/** What the callers of the timer queue asked for, read from the events, and what they get:
    which timer each `addTimer` makes, when it runs, and when it goes. */
module TimerRequests {
  import opened Numbers
  import opened TimerModel
  import opened TimerProofs
  import opened TimerTheorems

  /** The arguments of one call of `addTimer`, and the address that `operator new` returned. */
  datatype Request = Request(addr: Addr, when: int, repeat: bool, interval: nat)

  function AskedBy(s: State, e: Event): seq<Request> {
    match e
    case ForeignAdd(a, w, r, i) => if a != 0 && a !in s.heap then [Request(a, w, r, i)] else []
    case LoopAdd(a, w, r, i) =>
      if a != 0 && a !in s.heap && !s.phase.Resetting? then [Request(a, w, r, i)] else []
    case _ => []
  }

  /** The calls of `addTimer` in a run, in order. */
  ghost function Adds(clock: int, es: seq<Event>): seq<Request>
    requires clock > 0
  {
    if es == [] then []
    else Adds(clock, es[..|es| - 1]) + AskedBy(FromStart(clock, es[..|es| - 1]), es[|es| - 1])
  }

  /** When the timer made for `q` is due next: at the time asked for, and after a run an
      interval later than the `now` of that run. */
  function Due(q: Request, fires: seq<Fire>, k: nat): int {
    if fires == [] then q.when
    else
      var last := fires[|fires| - 1];
      if last.sequence == k then last.now + q.interval else Due(q, fires[..|fires| - 1], k)
  }

  /** The entries whose callbacks have run and that `reset` has not handled yet. */
  function Ran(p: Phase): seq<Entry> {
    match p
    case Idle => []
    case Calling(_, batch, next) => if next <= |batch| then batch[..next] else []
    case Resetting(_, batch) => batch
  }

  function Now(p: Phase): int {
    if p.Idle? then 0 else p.now
  }

  ghost predicate HasRun(fires: seq<Fire>, k: nat) { exists f :: f in fires && f.sequence == k }

  /** The timer at `a` is the one its request asked for, and is filed under the right time. */
  ghost predicate AsAsked(a: Addr, t: Timer, hasRun: bool, now: int, adds: seq<Request>, fires: seq<Fire>) {
    && t.sequence < |adds|
    && var q := adds[t.sequence];
      && q.addr == a && q.repeat == t.repeat && q.interval == t.interval
      && Due(q, fires, t.sequence) == (if hasRun then now + q.interval else t.expiration)
      && (hasRun ==> HasRun(fires, t.sequence))
  }

  ghost predicate TimersAsAsked(s: State, adds: seq<Request>) {
    && |adds| == s.nextSeq
    && forall a :: a in s.heap ==>
         AsAsked(a, s.heap[a], EntryOf(s.heap, a) in Ran(s.phase), Now(s.phase), adds, s.fires)
  }

  predicate FireAsAsked(fires: seq<Fire>, adds: seq<Request>, i: nat)
    requires i < |fires|
  {
    var f := fires[i];
    && f.sequence < |adds|
    && var q := adds[f.sequence];
      f.repeat == q.repeat && f.interval == q.interval && f.due == Due(q, fires[..i], f.sequence)
  }

  ghost predicate FiresAsAsked(fires: seq<Fire>, adds: seq<Request>) {
    forall i :: 0 <= i < |fires| ==> FireAsAsked(fires, adds, i)
  }

  lemma {:induction false} DueFirst(q: Request, fires: seq<Fire>, k: nat)
    requires forall i :: 0 <= i < |fires| ==> fires[i].sequence != k
    ensures Due(q, fires, k) == q.when
  {
    if fires != [] {
      DueFirst(q, fires[..|fires| - 1], k);
    }
  }

  lemma DueAfter(q: Request, fires: seq<Fire>, f: Fire, k: nat)
    ensures Due(q, fires + [f], k) == if f.sequence == k then f.now + q.interval else Due(q, fires, k)
  {
    assert (fires + [f])[..|fires|] == fires;
  }

  // ----- One step -----

  /** Only `reset` changes a timer; a new one is exactly what was asked for. */
  lemma HeapStep(s: State, e: Event, a: Addr)
    requires !e.ResetNext? && a in Step(s, e).heap
    ensures var r := Step(s, e);
            if a in s.heap then r.heap[a] == s.heap[a]
            else exists q :: AskedBy(s, e) == [q] && q.addr == a
                             && r.heap[a] == Timer(q.when, q.repeat, q.interval, s.nextSeq)
  {
    if a !in s.heap {
      var q := Request(a, e.when, e.repeat, e.interval);
      assert AskedBy(s, e) == [q];
    }
  }

  lemma CountStep(s: State, e: Event)
    requires Inv(s)
    ensures Step(s, e).nextSeq == s.nextSeq + |AskedBy(s, e)|
  {
    if Enabled(s, e) {
      PointersAreLive(s, e);
    }
  }

  lemma RanStep(s: State, e: Event)
    requires Inv(s) && !e.ResetNext? && !e.RunNext?
    ensures var r := Step(s, e);
            Ran(r.phase) == Ran(s.phase) && r.fires == s.fires && (Ran(s.phase) != [] ==> Now(r.phase) == Now(s.phase))
  {
    if Enabled(s, e) {
      PointersAreLive(s, e);
    }
  }

  lemma NewTimerAsAsked(s: State, e: Event, a: Addr, adds: seq<Request>)
    requires Inv(s) && !e.ResetNext? && a in Step(s, e).heap && a !in s.heap && |adds| == s.nextSeq
    ensures AsAsked(a, Step(s, e).heap[a], false, Now(s.phase), adds + AskedBy(s, e), s.fires)
  {
    HeapStep(s, e, a);
    assert FiresSound(s.fires, s.phase, s.clock, s.nextSeq);
    DueFirst(AskedBy(s, e)[0], s.fires, s.nextSeq);
  }

  /** A new timer is not in the batch. */
  lemma RanIsLive(s: State, x: Entry)
    requires Inv(s) && x in Ran(s.phase)
    ensures x.addr in s.heap && x == EntryOf(s.heap, x.addr)
  {
    assert x in Batch(s.phase);
  }

  lemma OtherStep(s: State, e: Event, a: Addr, adds: seq<Request>)
    requires Inv(s) && !e.ResetNext? && !e.RunNext? && TimersAsAsked(s, adds) && a in Step(s, e).heap
    ensures var r := Step(s, e);
            AsAsked(a, r.heap[a], EntryOf(r.heap, a) in Ran(r.phase), Now(r.phase), adds + AskedBy(s, e), r.fires)
  {
    hide Inv, Step;
    RanStep(s, e);
    HeapStep(s, e, a);
    if a !in s.heap {
      NewTimerAsAsked(s, e, a, adds);
      if EntryOf(Step(s, e).heap, a) in Ran(s.phase) {
        RanIsLive(s, EntryOf(Step(s, e).heap, a));
      }
    }
  }

  /** What `RunNext` does: the next timer of the batch, which has not run yet, runs. */
  lemma RunNextStep(s: State, x: Entry)
    requires Inv(s) && Enabled(s, RunNext) && x == s.phase.batch[s.phase.next]
    ensures x.addr in s.heap && x == EntryOf(s.heap, x.addr) && x !in Ran(s.phase)
    ensures var r := Step(s, RunNext);
            var t := s.heap[x.addr];
            && r.heap == s.heap && r.nextSeq == s.nextSeq && Now(r.phase) == Now(s.phase)
            && Ran(r.phase) == Ran(s.phase) + [x]
            && r.fires == s.fires + [Fire(t.sequence, t.expiration, Now(s.phase), t.repeat, t.interval, s.batchNo)]
    ensures forall a :: a in s.heap && a != x.addr ==> s.heap[a].sequence != s.heap[x.addr].sequence
  {
    PointersAreLive(s, RunNext);
    assert x in Batch(s.phase);
    assert forall j :: 0 <= j < s.phase.next ==> Before(s.phase.batch[j], x);
  }

  lemma RunNextAsAsked(s: State, adds: seq<Request>)
    requires Inv(s) && Enabled(s, RunNext) && TimersAsAsked(s, adds) && FiresAsAsked(s.fires, adds)
    ensures TimersAsAsked(Step(s, RunNext), adds) && FiresAsAsked(Step(s, RunNext).fires, adds)
  {
    hide Inv, Step;
    var x := s.phase.batch[s.phase.next];
    RunNextStep(s, x);
    var r := Step(s, RunNext);
    var f := r.fires[|s.fires|];
    forall a | a in s.heap
      ensures AsAsked(a, s.heap[a], EntryOf(s.heap, a) in Ran(r.phase), Now(s.phase), adds, r.fires)
    {
      DueAfter(adds[s.heap[a].sequence], s.fires, f, s.heap[a].sequence);
      assert f in r.fires && forall g :: g in s.fires ==> g in r.fires;
    }
    FiresExtended(s.fires, f, adds);
  }

  lemma FiresExtended(fires: seq<Fire>, f: Fire, adds: seq<Request>)
    requires FiresAsAsked(fires, adds) && f.sequence < |adds|
    requires var q := adds[f.sequence];
             f.repeat == q.repeat && f.interval == q.interval && f.due == Due(q, fires, f.sequence)
    ensures FiresAsAsked(fires + [f], adds)
  {
    var all := fires + [f];
    assert all[..|fires|] == fires;
    forall i | 0 <= i < |fires| ensures FireAsAsked(all, adds, i) {
      assert all[..i] == fires[..i] && FireAsAsked(fires, adds, i);
    }
  }

  /** What `ResetNext` does to the front entry of the batch. */
  lemma ResetStep(s: State, x: Entry)
    requires Inv(s) && Enabled(s, ResetNext) && x == s.phase.batch[0]
    ensures x.addr in s.heap && x == EntryOf(s.heap, x.addr) && x in Ran(s.phase)
    ensures var r := Step(s, ResetNext);
            var t := s.heap[x.addr];
            && r.fires == s.fires && r.nextSeq == s.nextSeq && Now(r.phase) == Now(s.phase)
            && Ran(s.phase) == [x] + Ran(r.phase) && (forall y :: y in Ran(r.phase) ==> y.addr != x.addr)
            && (forall a :: a != x.addr ==> (a in r.heap <==> a in s.heap))
            && (forall a :: a in r.heap && a != x.addr ==> r.heap[a] == s.heap[a])
            && (x.addr in r.heap ==> t.repeat && r.heap[x.addr] == t.(expiration := Now(s.phase) + t.interval))
  {
    PointersAreLive(s, ResetNext);
    BatchAddrsDiffer(s);
    assert x in Batch(s.phase);
    assert s.phase.batch == [x] + s.phase.batch[1..];
  }

  lemma ResetAsAsked(s: State, adds: seq<Request>)
    requires Inv(s) && Enabled(s, ResetNext) && TimersAsAsked(s, adds)
    ensures TimersAsAsked(Step(s, ResetNext), adds)
  {
    hide Inv, Step;
    ResetStep(s, s.phase.batch[0]);
  }

  lemma HonouredStep(s: State, e: Event, adds: seq<Request>)
    requires Inv(s) && TimersAsAsked(s, adds) && FiresAsAsked(s.fires, adds)
    ensures TimersAsAsked(Step(s, e), adds + AskedBy(s, e)) && FiresAsAsked(Step(s, e).fires, adds + AskedBy(s, e))
  {
    hide Inv, Step;
    if (e.RunNext? || e.ResetNext?) && !Enabled(s, e) {
      Stutter(s, e);
      assert adds + AskedBy(s, e) == adds;
    } else if e.RunNext? {
      RunNextAsAsked(s, adds);
      assert adds + AskedBy(s, e) == adds;
    } else if e.ResetNext? {
      ResetAsAsked(s, adds);
      ResetStep(s, s.phase.batch[0]);
      assert adds + AskedBy(s, e) == adds;
    } else {
      OthersAsAsked(s, e, adds);
    }
  }

  lemma Stutter(s: State, e: Event)
    requires !Enabled(s, e)
    ensures Step(s, e) == s
  {
  }

  lemma OthersAsAsked(s: State, e: Event, adds: seq<Request>)
    requires Inv(s) && TimersAsAsked(s, adds) && FiresAsAsked(s.fires, adds) && !e.RunNext? && !e.ResetNext?
    ensures TimersAsAsked(Step(s, e), adds + AskedBy(s, e)) && FiresAsAsked(Step(s, e).fires, adds + AskedBy(s, e))
  {
    hide Inv, Step;
    CountStep(s, e);
    RanStep(s, e);
    forall a | a in Step(s, e).heap
      ensures var r := Step(s, e);
              AsAsked(a, r.heap[a], EntryOf(r.heap, a) in Ran(r.phase), Now(r.phase), adds + AskedBy(s, e), r.fires)
    {
      OtherStep(s, e, a, adds);
    }
    forall i | 0 <= i < |s.fires| ensures FireAsAsked(s.fires, adds + AskedBy(s, e), i) {
      assert FireAsAsked(s.fires, adds, i);
    }
  }

  lemma {:induction false} AddsAreHonoured(clock: int, es: seq<Event>)
    requires clock > 0
    ensures TimersAsAsked(FromStart(clock, es), Adds(clock, es))
    ensures FiresAsAsked(FromStart(clock, es).fires, Adds(clock, es))
  {
    if es != [] {
      var before := es[..|es| - 1];
      AddsAreHonoured(clock, before);
      HonouredStep(FromStart(clock, before), es[|es| - 1], Adds(clock, before));
    }
  }

  // ----- What the caller of addTimer gets -----

  lemma {:induction false} DueIsLater(q: Request, fires: seq<Fire>, k: nat)
    requires forall i :: 0 <= i < |fires| && fires[i].sequence == k ==>
               fires[i].interval == q.interval && fires[i].due == Due(q, fires[..i], k) <= fires[i].now
    ensures Due(q, fires, k) >= q.when
  {
    if fires != [] {
      var front := fires[..|fires| - 1];
      assert forall i :: 0 <= i < |front| ==> fires[..i] == front[..i];
      DueIsLater(q, front, k);
    }
  }

  /** `j` is the run of the same timer before run `i`. */
  ghost predicate RunBefore(fires: seq<Fire>, j: nat, i: nat) {
    && j < i < |fires| && fires[j].sequence == fires[i].sequence
    && forall m :: j < m < i ==> fires[m].sequence != fires[i].sequence
  }

  lemma {:induction false} DueOfRun(q: Request, fires: seq<Fire>, j: nat, k: nat)
    requires j < |fires| && fires[j].sequence == k && forall m :: j < m < |fires| ==> fires[m].sequence != k
    ensures Due(q, fires, k) == fires[j].now + q.interval
  {
    if j < |fires| - 1 {
      DueOfRun(q, fires[..|fires| - 1], j, k);
    }
  }

  /** Run `i` is what its call of `addTimer` asked for: the first run is due at the time asked
      for, and each later one its interval after the `now` of the one before; it is never
      before it is due, nor before the time asked for; and only a periodic timer runs twice. */
  ghost predicate RunAsRequested(fires: seq<Fire>, adds: seq<Request>, i: nat)
    requires i < |fires|
  {
    var f := fires[i];
    && f.sequence < |adds|
    && var q := adds[f.sequence];
      && f.repeat == q.repeat && f.interval == q.interval
      && q.when <= f.now && f.due <= f.now
      && (!HasRun(fires[..i], f.sequence) ==> f.due == q.when)
      && forall j: nat :: RunBefore(fires, j, i) ==> q.repeat && f.due == fires[j].now + q.interval
  }

  lemma RequestedRun(fires: seq<Fire>, adds: seq<Request>, i: nat)
    requires FiresAsAsked(fires, adds) && i < |fires|
    requires forall f :: f in fires ==> f.due <= f.now
    requires forall j, m :: 0 <= j < m < |fires| && fires[j].sequence == fires[m].sequence ==> fires[j].repeat
    ensures RunAsRequested(fires, adds, i)
  {
    var f := fires[i];
    assert f in fires && FireAsAsked(fires, adds, i);
    var q, k, past := adds[f.sequence], f.sequence, fires[..i];
    PastIsLater(fires, adds, i);
    if !HasRun(past, k) {
      DueFirst(q, past, k);
    }
    forall j: nat | RunBefore(fires, j, i) ensures q.repeat && f.due == fires[j].now + q.interval {
      DueOfRun(q, past, j, k);
      assert FireAsAsked(fires, adds, j);
    }
  }

  lemma PastIsLater(fires: seq<Fire>, adds: seq<Request>, i: nat)
    requires FiresAsAsked(fires, adds) && i < |fires| && fires[i].sequence < |adds|
    requires forall f :: f in fires ==> f.due <= f.now
    ensures var k := fires[i].sequence; Due(adds[k], fires[..i], k) >= adds[k].when
  {
    var k, past := fires[i].sequence, fires[..i];
    forall m | 0 <= m < |past| && past[m].sequence == k
      ensures past[m].interval == adds[k].interval && past[m].due == Due(adds[k], past[..m], k) <= past[m].now
    {
      assert past[..m] == fires[..m] && FireAsAsked(fires, adds, m) && fires[m] in fires;
    }
    DueIsLater(adds[k], past, k);
  }

  /** Over every run, every callback that ran is what the call of `addTimer` with its number
      asked for. */
  lemma RunsAreAsRequested(clock: int, es: seq<Event>, i: nat)
    requires clock > 0
    ensures var fires := FromStart(clock, es).fires; i < |fires| ==> RunAsRequested(fires, Adds(clock, es), i)
  {
    var s := FromStart(clock, es);
    AddsAreHonoured(clock, es);
    if i < |s.fires| {
      assert FiresSound(s.fires, s.phase, s.clock, s.nextSeq);
      RequestedRun(s.fires, Adds(clock, es), i);
    }
  }

  /** A live timer is the one its call of `addTimer` asked for, at the address that call
      returned; and while it waits to run, it is filed under the time asked for or, once it
      has run, under the `now` of its last run plus its interval. */
  ghost predicate TimerAsRequested(s: State, adds: seq<Request>, a: Addr)
    requires a in s.heap
  {
    var t := s.heap[a];
    && t.sequence < |adds|
    && var q := adds[t.sequence];
      && q == Request(a, q.when, t.repeat, t.interval)
      && (!InBatch(s.heap, Batch(s.phase), a) || InBatch(s.heap, Unrun(s.phase), a) ==>
            t.expiration == Due(q, s.fires, t.sequence))
  }

  lemma TimersAreAsRequested(clock: int, es: seq<Event>, a: Addr)
    requires clock > 0
    ensures var s, adds := FromStart(clock, es), Adds(clock, es);
            |adds| == s.nextSeq && (a in s.heap ==> TimerAsRequested(s, adds, a))
  {
    hide Inv, FromStart;
    AddsAreHonoured(clock, es);
    var s := FromStart(clock, es);
    if a in s.heap {
      assert AsAsked(a, s.heap[a], EntryOf(s.heap, a) in Ran(s.phase), Now(s.phase), Adds(clock, es), s.fires);
      if !InBatch(s.heap, Batch(s.phase), a) || InBatch(s.heap, Unrun(s.phase), a) {
        WaitingHasNotRun(s, a);
      }
    }
  }

  lemma WaitingHasNotRun(s: State, a: Addr)
    requires Inv(s) && a in s.heap
    requires !InBatch(s.heap, Batch(s.phase), a) || InBatch(s.heap, Unrun(s.phase), a)
    ensures EntryOf(s.heap, a) !in Ran(s.phase)
  {
    if InBatch(s.heap, Unrun(s.phase), a) {
      var j :| 0 <= j < |Unrun(s.phase)| && Unrun(s.phase)[j] == EntryOf(s.heap, a);
      assert s.phase.batch[s.phase.next + j] == EntryOf(s.heap, a);
      assert forall i :: 0 <= i < s.phase.next ==> Before(s.phase.batch[i], s.phase.batch[s.phase.next + j]);
    } else {
      assert forall x :: x in Ran(s.phase) ==> x in Batch(s.phase);
    }
  }

  // ----- Requests of other threads -----

  /** What a call on a foreign thread leaves for the loop. */
  ghost function QueuedBy(clock: int, before: seq<Event>, e: Event): seq<Functor>
    requires clock > 0
  {
    match e
    case ForeignAdd(a, _, _, _) => if a != 0 && a !in FromStart(clock, before).heap then [AddInLoop(a)] else []
    case ForeignCancel(id) =>
      if id.addr == 0 || id.sequence < |Adds(clock, before)| then [CancelInLoop(id)] else []
    case _ => []
  }

  /** The calls of `addTimer` and `cancel` on foreign threads, in order. */
  ghost function Queued(clock: int, es: seq<Event>): seq<Functor>
    requires clock > 0
  {
    if es == [] then [] else Queued(clock, es[..|es| - 1]) + QueuedBy(clock, es[..|es| - 1], es[|es| - 1])
  }

  /** How many queued functors the loop has run. */
  ghost function Served(clock: int, es: seq<Event>): nat
    requires clock > 0
  {
    if es == [] then 0
    else
      var s := FromStart(clock, es[..|es| - 1]);
      Served(clock, es[..|es| - 1]) + One(es[|es| - 1].RunFunctor? && s.phase.Idle? && s.pending != [])
  }

  lemma PendingStep(s: State, e: Event)
    requires Inv(s)
    ensures var r := Step(s, e);
            r.pending == match e
                         case ForeignAdd(a, _, _, _) =>
                           if a != 0 && a !in s.heap then s.pending + [AddInLoop(a)] else s.pending
                         case ForeignCancel(id) =>
                           if id.addr == 0 || id.sequence < s.nextSeq then s.pending + [CancelInLoop(id)] else s.pending
                         case RunFunctor => if s.phase.Idle? && s.pending != [] then s.pending[1..] else s.pending
                         case _ => s.pending
  {
    if Enabled(s, e) {
      PointersAreLive(s, e);
    }
  }

  lemma OneMore(clock: int, es: seq<Event>)
    requires clock > 0 && es != []
    ensures FromStart(clock, es) == Step(FromStart(clock, es[..|es| - 1]), es[|es| - 1])
  {
  }

  lemma NothingPending(clock: int)
    requires clock > 0
    ensures FromStart(clock, []).pending == []
  {
  }

  lemma AddsCounted(clock: int, es: seq<Event>)
    requires clock > 0
    ensures |Adds(clock, es)| == FromStart(clock, es).nextSeq
  {
    AddsAreHonoured(clock, es);
  }

  /** Over every run, what waits for the loop is exactly what foreign threads have asked for
      and the loop has not run, in the order of the calls. */
  lemma {:induction false} QueueIsWhatIsAsked(clock: int, es: seq<Event>)
    requires clock > 0
    ensures Served(clock, es) <= |Queued(clock, es)|
    ensures FromStart(clock, es).pending == Queued(clock, es)[Served(clock, es)..]
  {
    hide Inv, Step, FromStart, TimersAsAsked;
    if es == [] {
      NothingPending(clock);
    } else {
      var before, e := es[..|es| - 1], es[|es| - 1];
      QueueIsWhatIsAsked(clock, before);
      OneMore(clock, es);
      PendingStep(FromStart(clock, before), e);
      AddsCounted(clock, before);
    }
  }

  // ----- The timerfd -----

  ghost predicate BeforeAll(x: Entry, timers: set<Entry>) { forall y :: y in timers ==> x.when < y.when }

  /** The step arms the timerfd: it queues a timer before all others, or it ends `reset`
      with a valid earliest expiration. */
  ghost predicate Arms(s: State, e: Event, r: State) {
    || ((e.LoopAdd? || e.RunFunctor?) && exists x :: x in r.timers && BeforeAll(x, s.timers))
    || (e.FinishReset? && s.phase.Resetting? && s.phase.batch == [] && r.timers != {} && First(r.timers).when > 0)
  }

  /** The timerfd is armed exactly then, for the earliest queued timer but never less than
      100 microseconds ahead; otherwise it only runs out and is read. */
  ghost predicate FdFollows(s: State, e: Event, r: State) {
    if Arms(s, e, r) then
      r.timers != {} && r.fd == Armed(Max(First(r.timers).when, s.clock + 100), s.clock)
    else if e.Tick? && s.fd.Armed? && s.fd.deadline <= s.clock + e.elapsed then r.fd == Fired
    else if e.BeginBatch? && s.phase.Idle? && s.fd.Fired? then r.fd == Disarmed
    else r.fd == s.fd
  }

  lemma AddFollows(s: State, t: State, a: Addr, e: Event)
    requires a in s.heap && (e.LoopAdd? || e.RunFunctor?)
    requires t.timers == s.timers && t.fd == s.fd && t.clock == s.clock
    ensures FdFollows(t, e, AddTimerInLoop(s, a))
  {
    var r, x := AddTimerInLoop(s, a), EntryOf(s.heap, a);
    assert EarliestChanged(s.timers, x.when) <==> BeforeAll(x, s.timers);
    if BeforeAll(x, s.timers) {
      FirstIsUnique(x, r.timers);
    }
  }

  lemma CancelFollows(s: State, t: State, id: TimerId)
    requires id in s.active ==> id.addr in s.heap
    requires t.timers == s.timers && t.fd == s.fd && t.clock == s.clock
    ensures FdFollows(t, RunFunctor, CancelTimerInLoop(s, id))
  {
    assert forall x :: x in CancelTimerInLoop(s, id).timers ==> x in s.timers && !BeforeAll(x, s.timers);
  }

  lemma StutterFollows(s: State, e: Event)
    requires !Enabled(s, e)
    ensures FdFollows(s, e, s)
  {
    assert forall x :: x in s.timers ==> !BeforeAll(x, s.timers);
  }

  lemma FinishFollows(s: State)
    requires Enabled(s, FinishReset)
    ensures FdFollows(s, FinishReset, Finish(s))
  {
  }

  lemma OthersFollow(s: State, e: Event)
    requires Enabled(s, e) && !e.LoopAdd? && !e.RunFunctor? && !e.FinishReset?
    requires PointersLive(s, e)
    ensures FdFollows(s, e, Step(s, e))
  {
  }

  lemma FdStep(s: State, e: Event)
    requires Inv(s)
    ensures FdFollows(s, e, Step(s, e))
  {
    if !Enabled(s, e) {
      StutterFollows(s, e);
    } else {
      PointersAreLive(s, e);
      hide Inv, InvWith, FdFollows, AddTimerInLoop, CancelTimerInLoop, Finish;
      match e {
        case LoopAdd(a, w, r, i) => AddFollows(NewTimer(s, a, w, r, i), s, a, e);
        case RunFunctor =>
          var popped := s.(pending := s.pending[1..]);
          match s.pending[0] {
            case AddInLoop(a) => AddFollows(popped, s, a, e);
            case CancelInLoop(id) => CancelFollows(popped, s, id);
          }
        case FinishReset => FinishFollows(s);
        case _ => OthersFollow(s, e);
      }
    }
  }

  lemma ArmedExactlyWhen(clock: int, es: seq<Event>, e: Event)
    requires clock > 0
    ensures var s := FromStart(clock, es); FdFollows(s, e, Next(s, e))
  {
    FdStep(FromStart(clock, es), e);
  }

  // ----- The clock -----

  function Elapsed(es: seq<Event>): nat {
    if es == [] then 0
    else Elapsed(es[..|es| - 1]) + if es[|es| - 1].Tick? then es[|es| - 1].elapsed else 0
  }

  lemma {:induction false} ClockTicks(clock: int, es: seq<Event>)
    requires clock > 0
    ensures FromStart(clock, es).clock == clock + Elapsed(es)
  {
    hide Inv;
    if es != [] {
      ClockTicks(clock, es[..|es| - 1]);
      OneMore(clock, es);
      ClockStep(FromStart(clock, es[..|es| - 1]), es[|es| - 1]);
    }
  }

  lemma ClockStep(s: State, e: Event)
    ensures Step(s, e).clock == s.clock + if e.Tick? then e.elapsed else 0
  {
  }
}
