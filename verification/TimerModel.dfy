/** The timer queue as a step system (TimerQueue.cpp, Timer.h, Timer.cpp): an explicit heap
    with address reuse, the two ordered indexes, the timerfd, and the functors that foreign
    threads queue.  Times are microseconds on one clock. */
module TimerModel {
  import opened Numbers

  type Addr = nat

  /** `repeat` is `interval_ > 0.0`; `interval` is the interval in whole microseconds. */
  datatype Timer = Timer(expiration: int, repeat: bool, interval: nat, sequence: nat)

  type Heap = map<Addr, Timer>

  datatype Entry = Entry(when: int, addr: Addr)

  datatype TimerId = TimerId(addr: Addr, sequence: nat)

  datatype Functor = AddInLoop(addr: Addr) | CancelInLoop(id: TimerId)

  /** `handleRead` from the inside: callbacks are running, or the batch is being reset. */
  datatype Phase =
    | Idle
    | Calling(now: int, batch: seq<Entry>, next: nat)
    | Resetting(now: int, batch: seq<Entry>)

  /** The one-shot timerfd; `since` is when it was armed. */
  datatype TimerFd = Disarmed | Armed(deadline: int, since: int) | Fired

  /** History: one run of a callback. */
  datatype Fire = Fire(sequence: nat, due: int, now: int, repeat: bool, interval: nat, batchNo: nat)

  datatype State = State(
    heap: Heap,
    timers: set<Entry>,
    active: set<TimerId>,
    canceling: set<TimerId>,
    phase: Phase,
    pending: seq<Functor>,
    nextSeq: nat,
    clock: int,
    fd: TimerFd,
    fires: seq<Fire>,
    freed: seq<nat>,
    batchNo: nat)

  function Start(clock: int): State {
    State(map[], {}, {}, {}, Idle, [], 0, clock, Disarmed, [], [], 0)
  }

  /** `ForeignAdd` and `LoopAdd` are `addTimer` on a foreign thread and on the loop thread;
      the address is whatever `operator new` returned. */
  datatype Event =
    | ForeignAdd(addr: Addr, when: int, repeat: bool, interval: nat)
    | ForeignCancel(id: TimerId)
    | LoopAdd(addr: Addr, when: int, repeat: bool, interval: nat)
    | LoopCancel(id: TimerId)
    | RunFunctor
    | Tick(elapsed: nat)
    | BeginBatch
    | RunNext
    | EndCallbacks
    | ResetNext
    | FinishReset

  predicate Allocatable(s: State, a: Addr) { a != 0 && a !in s.heap }

  /** An id that `addTimer` has returned, or the default `TimerId()`, whose address is null. */
  predicate Issued(id: TimerId, nextSeq: nat) { id.addr == 0 || id.sequence < nextSeq }

  predicate Enabled(s: State, e: Event) {
    match e
    case ForeignAdd(a, _, _, _) => Allocatable(s, a)
    case ForeignCancel(id) => Issued(id, s.nextSeq)
    case LoopAdd(a, _, _, _) => Allocatable(s, a) && !s.phase.Resetting?
    case LoopCancel(_) => !s.phase.Resetting?
    case RunFunctor => s.phase.Idle? && s.pending != []
    case Tick(_) => true
    case BeginBatch => s.phase.Idle?
    case RunNext => s.phase.Calling? && s.phase.next < |s.phase.batch|
    case EndCallbacks => s.phase.Calling? && s.phase.next == |s.phase.batch|
    case ResetNext => s.phase.Resetting? && s.phase.batch != []
    case FinishReset => s.phase.Resetting? && s.phase.batch == []
  }

  // ----- The order of the timer set -----

  predicate Before(a: Entry, b: Entry) { a.when < b.when || (a.when == b.when && a.addr < b.addr) }

  ghost predicate IsFirst(e: Entry, es: set<Entry>) {
    e in es && forall x :: x in es && x != e ==> Before(e, x)
  }

  lemma {:induction false} FirstExists(es: set<Entry>)
    requires es != {}
    ensures exists e :: IsFirst(e, es)
    decreases |es|
  {
    var x :| x in es;
    var others := es - {x};
    assert forall z :: z in es && z != x ==> z in others;
    if others == {} {
      assert IsFirst(x, es);
    } else {
      FirstExists(others);
      var y :| IsFirst(y, others);
      assert if Before(x, y) then IsFirst(x, es) else IsFirst(y, es);
    }
  }

  /** `*timers_.begin()` */
  ghost function First(es: set<Entry>): (e: Entry)
    requires es != {}
    ensures IsFirst(e, es)
  {
    FirstExists(es);
    var e :| IsFirst(e, es);
    e
  }

  lemma FirstIsUnique(e: Entry, es: set<Entry>)
    requires IsFirst(e, es)
    ensures First(es) == e
  {
    assert IsFirst(First(es), es);
  }

  ghost function Sorted(es: set<Entry>): (r: seq<Entry>)
    decreases |es|
  {
    if es == {} then [] else [First(es)] + Sorted(es - {First(es)})
  }

  ghost predicate Ascending(r: seq<Entry>) {
    forall i, j :: 0 <= i < j < |r| ==> Before(r[i], r[j])
  }

  /** The iteration order of the set: every element once, in ascending order. */
  lemma {:induction false} SortedIsExact(es: set<Entry>)
    ensures Ascending(Sorted(es)) && (forall e :: e in Sorted(es) <==> e in es)
    decreases |es|
  {
    if es != {} {
      SortedIsExact(es - {First(es)});
      var first, tail := First(es), Sorted(es - {First(es)});
      forall i, j | 0 <= i < j < |Sorted(es)| ensures Before(Sorted(es)[i], Sorted(es)[j]) {
        assert Sorted(es)[j] == tail[j - 1] && tail[j - 1] in tail;
      }
    }
  }

  // ----- Steps -----

  predicate EarliestChanged(timers: set<Entry>, when: int) { forall e :: e in timers ==> when < e.when }

  /** `resetTimerfd`: at least 100 microseconds from now. */
  function Arm(s: State, when: int): State {
    var delay := if when - s.clock < 100 then 100 else when - s.clock;
    s.(fd := Armed(s.clock + delay, s.clock))
  }

  function NewTimer(s: State, a: Addr, when: int, repeat: bool, interval: nat): State {
    s.(heap := s.heap[a := Timer(when, repeat, interval, s.nextSeq)], nextSeq := s.nextSeq + 1)
  }

  function IdOf(heap: Heap, a: Addr): TimerId
    requires a in heap
  {
    TimerId(a, heap[a].sequence)
  }

  function EntryOf(heap: Heap, a: Addr): Entry
    requires a in heap
  {
    Entry(heap[a].expiration, a)
  }

  function Insert(s: State, a: Addr): State
    requires a in s.heap
  {
    s.(timers := s.timers + {EntryOf(s.heap, a)}, active := s.active + {IdOf(s.heap, a)})
  }

  function AddTimerInLoop(s: State, a: Addr): State
    requires a in s.heap
  {
    if EarliestChanged(s.timers, s.heap[a].expiration) then Arm(Insert(s, a), s.heap[a].expiration)
    else Insert(s, a)
  }

  function Delete(s: State, a: Addr): State
    requires a in s.heap
  {
    s.(heap := s.heap - {a}, freed := s.freed + [s.heap[a].sequence])
  }

  function CancelTimerInLoop(s: State, id: TimerId): State
    requires id in s.active ==> id.addr in s.heap
  {
    if id in s.active then
      Delete(s.(timers := s.timers - {EntryOf(s.heap, id.addr)}, active := s.active - {id}), id.addr)
    else if s.phase.Calling? then s.(canceling := s.canceling + {id})
    else s
  }

  function Advance(s: State, elapsed: nat): State {
    var now := s.clock + elapsed;
    s.(clock := now, fd := if s.fd.Armed? && s.fd.deadline <= now then Fired else s.fd)
  }

  function Expired(timers: set<Entry>, now: int): set<Entry> { set e | e in timers && e.when <= now }

  function Ids(heap: Heap, es: set<Entry>): set<TimerId> {
    set e | e in es && e.addr in heap :: IdOf(heap, e.addr)
  }

  /** `handleRead` down to the loop over the batch: read the timerfd, `getExpired`, and
      forget the cancellations of the previous batch. */
  ghost function Begin(s: State): State {
    var expired := Expired(s.timers, s.clock);
    s.(fd := if s.fd.Fired? then Disarmed else s.fd,
       timers := s.timers - expired,
       active := s.active - Ids(s.heap, expired),
       canceling := {},
       phase := Calling(s.clock, Sorted(expired), 0),
       batchNo := s.batchNo + 1)
  }

  function RunCallback(s: State): State
    requires Enabled(s, RunNext) && s.phase.batch[s.phase.next].addr in s.heap
  {
    var t := s.heap[s.phase.batch[s.phase.next].addr];
    s.(fires := s.fires + [Fire(t.sequence, t.expiration, s.phase.now, t.repeat, t.interval, s.batchNo)],
       phase := Calling(s.phase.now, s.phase.batch, s.phase.next + 1))
  }

  function PopBatch(s: State): State
    requires Enabled(s, ResetNext)
  {
    s.(phase := Resetting(s.phase.now, s.phase.batch[1..]))
  }

  /** `Timestamp::invalid()` */
  const INVALID: int := 0

  /** `Timer::restart(now)`: a one-shot timer gets an invalid expiration. */
  function Restart(s: State, a: Addr): State
    requires a in s.heap && s.phase.Resetting?
  {
    var t := s.heap[a];
    s.(heap := s.heap[a := t.(expiration := if t.repeat then s.phase.now + t.interval else INVALID)])
  }

  /** One round of the loop in `reset`: restart and insert again, or delete. */
  function ResetOne(s: State): State
    requires Enabled(s, ResetNext) && s.phase.batch[0].addr in s.heap
  {
    var a := s.phase.batch[0].addr;
    if s.heap[a].repeat && IdOf(s.heap, a) !in s.canceling then Insert(Restart(PopBatch(s), a), a)
    else Delete(PopBatch(s), a)
  }

  ghost function Finish(s: State): State {
    var done := s.(phase := Idle);
    if s.timers != {} && First(s.timers).when > 0 then Arm(done, First(s.timers).when) else done
  }

  // ----- Who owns a timer -----

  function Batch(p: Phase): seq<Entry> {
    if p.Idle? then [] else p.batch
  }

  /** The part of the batch whose callbacks have not run. */
  function Unrun(p: Phase): seq<Entry> {
    if p.Calling? && p.next <= |p.batch| then p.batch[p.next..] else []
  }

  predicate InQueue(heap: Heap, timers: set<Entry>, a: Addr) { a in heap && EntryOf(heap, a) in timers }

  predicate InBatch(heap: Heap, batch: seq<Entry>, a: Addr) { a in heap && EntryOf(heap, a) in batch }

  predicate InPending(pending: seq<Functor>, a: Addr) { AddInLoop(a) in pending }

  // ----- Invariants -----

  /** The two indexes describe the same timers. */
  ghost predicate IndexesAgree(heap: Heap, timers: set<Entry>, active: set<TimerId>) {
    && (forall e :: e in timers ==> e.addr in heap && e == EntryOf(heap, e.addr) && IdOf(heap, e.addr) in active)
    && (forall id :: id in active ==>
          id.addr in heap && id == IdOf(heap, id.addr) && EntryOf(heap, id.addr) in timers)
  }

  /** Every live timer has exactly one owner: the queue, the batch or a pending add; except
      that `loose`, when it is not 0, is between two owners. */
  ghost predicate Owned(heap: Heap, timers: set<Entry>, batch: seq<Entry>, pending: seq<Functor>, loose: Addr) {
    && 0 !in heap && (loose != 0 ==> loose in heap)
    && (forall a :: a in heap ==>
          a == loose || InQueue(heap, timers, a) || InBatch(heap, batch, a) || InPending(pending, a))
    && (forall a :: InQueue(heap, timers, a) ==> a != loose && !InBatch(heap, batch, a) && !InPending(pending, a))
    && (forall a :: InBatch(heap, batch, a) ==> a != loose && !InPending(pending, a))
    && (forall a :: InPending(pending, a) ==> a != loose && a in heap)
    && (forall e :: e in batch ==> e.addr in heap && e == EntryOf(heap, e.addr))
    && (forall i, j :: 0 <= i < j < |pending| && pending[i].AddInLoop? ==> pending[i] != pending[j])
  }

  ghost predicate Live(heap: Heap, q: nat) { exists a :: a in heap && heap[a].sequence == q }

  /** Sequence numbers are never shared or reused, and each is live or deleted, not both. */
  ghost predicate Sequenced(heap: Heap, freed: seq<nat>, nextSeq: nat) {
    && (forall a, b :: a in heap && b in heap && a != b ==> heap[a].sequence != heap[b].sequence)
    && (forall a :: a in heap ==> heap[a].sequence < nextSeq && heap[a].sequence !in freed)
    && (forall i, j :: 0 <= i < j < |freed| ==> freed[i] != freed[j])
    && (forall q :: q in freed ==> q < nextSeq)
    && (forall q: nat :: q < nextSeq ==> q in freed || Live(heap, q))
  }

  /** The batch in flight: in order, and due. */
  ghost predicate BatchExact(phase: Phase, clock: int) {
    && clock > 0
    && (phase.Calling? ==> phase.next <= |phase.batch|)
    && (!phase.Idle? ==> 0 < phase.now <= clock)
    && Ascending(Batch(phase))
    && (forall e :: e in Batch(phase) ==> e.when <= phase.now)
  }

  /** A cancel is queued only after the add it refers to. */
  ghost predicate AddsBeforeCancels(heap: Heap, pending: seq<Functor>, nextSeq: nat) {
    && (forall i, j :: 0 <= i < j < |pending| && pending[i].CancelInLoop? && pending[j].AddInLoop? ==>
          pending[j].addr in heap ==> IdOf(heap, pending[j].addr) != pending[i].id)
    && (forall f :: f in pending && f.CancelInLoop? ==> Issued(f.id, nextSeq))
  }

  /** The timerfd has fired, or will fire in time for every queued timer. */
  ghost predicate Timely(timers: set<Entry>, fd: TimerFd) {
    fd.Fired? || (fd.Armed? && forall e :: e in timers ==> fd.deadline <= Max(e.when, fd.since + 100))
  }

  /** Outside `handleRead` the timerfd is timely; inside, it still is if some queued timer
      has an invalid expiration, because `reset` does not arm the timerfd for one. */
  ghost predicate Deadlines(timers: set<Entry>, idle: bool, fd: TimerFd, clock: int) {
    && (fd.Armed? ==> fd.since <= clock < fd.deadline)
    && (idle && timers != {} ==> Timely(timers, fd))
    && (forall e :: !idle && e in timers && e.when <= 0 ==> Timely(timers, fd))
  }

  ghost predicate FiresSound(fires: seq<Fire>, phase: Phase, clock: int, nextSeq: nat) {
    && (forall f :: f in fires ==>
          f.due <= f.now <= clock && f.sequence < nextSeq && (!phase.Idle? ==> f.now <= phase.now))
    && (forall i, j :: 0 <= i < j < |fires| && fires[i].sequence == fires[j].sequence ==>
          fires[i].repeat && fires[j].now >= fires[i].now + fires[i].interval)
  }

  /** A timer that has run and is waiting to run again is due a full interval later. */
  ghost predicate FiresSpaced(fires: seq<Fire>, heap: Heap, timers: set<Entry>,
                              pending: seq<Functor>, unrun: seq<Entry>)
  {
    forall f, a :: f in fires && a in heap && heap[a].sequence == f.sequence ==>
      && heap[a].repeat == f.repeat && heap[a].interval == f.interval
      && !InPending(pending, a)
      && (InQueue(heap, timers, a) || InBatch(heap, unrun, a) ==> Spaced(heap[a], f))
  }

  predicate Spaced(t: Timer, f: Fire) { t.repeat && t.expiration >= f.now + f.interval }

  ghost predicate InvWith(s: State, loose: Addr) {
    && IndexesAgree(s.heap, s.timers, s.active)
    && Owned(s.heap, s.timers, Batch(s.phase), s.pending, loose)
    && Sequenced(s.heap, s.freed, s.nextSeq)
    && BatchExact(s.phase, s.clock)
    && AddsBeforeCancels(s.heap, s.pending, s.nextSeq)
    && Deadlines(s.timers, s.phase.Idle?, s.fd, s.clock)
    && FiresSound(s.fires, s.phase, s.clock, s.nextSeq)
    && FiresSpaced(s.fires, s.heap, s.timers, s.pending, Unrun(s.phase))
  }

  ghost predicate Inv(s: State) { InvWith(s, 0) }

  /** The timers the step dereferences are live.  `TimerTheorems.AssertionsHold` shows that
      in reachable states they always are. */
  predicate PointersLive(s: State, e: Event)
    requires Enabled(s, e)
  {
    match e
    case LoopCancel(id) => id in s.active ==> id.addr in s.heap
    case RunFunctor =>
      (match s.pending[0]
       case AddInLoop(a) => a in s.heap
       case CancelInLoop(id) => id in s.active ==> id.addr in s.heap)
    case BeginBatch => forall x :: x in Expired(s.timers, s.clock) ==> x.addr in s.heap
    case RunNext => s.phase.batch[s.phase.next].addr in s.heap
    case ResetNext => s.phase.batch[0].addr in s.heap
    case _ => true
  }

  ghost function Step(s: State, e: Event): State {
    if !Enabled(s, e) || !PointersLive(s, e) then s
    else
      match e
      case ForeignAdd(a, w, r, i) =>
        var n := NewTimer(s, a, w, r, i);
        n.(pending := n.pending + [AddInLoop(a)])
      case ForeignCancel(id) => s.(pending := s.pending + [CancelInLoop(id)])
      case LoopAdd(a, w, r, i) => AddTimerInLoop(NewTimer(s, a, w, r, i), a)
      case LoopCancel(id) => CancelTimerInLoop(s, id)
      case RunFunctor =>
        var popped := s.(pending := s.pending[1..]);
        (match s.pending[0]
         case AddInLoop(a) => AddTimerInLoop(popped, a)
         case CancelInLoop(id) => CancelTimerInLoop(popped, id))
      case Tick(d) => Advance(s, d)
      case BeginBatch => Begin(s)
      case RunNext => RunCallback(s)
      case EndCallbacks => s.(phase := Resetting(s.phase.now, s.phase.batch))
      case ResetNext => ResetOne(s)
      case FinishReset => Finish(s)
  }
}
