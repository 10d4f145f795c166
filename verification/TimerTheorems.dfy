/** What holds of the timer queue over every run: any interleaving of foreign and loop
    thread calls, clock ticks and batches, with callbacks that add and cancel timers. */
module TimerTheorems {
  import opened Numbers
  import opened TimerModel
  import opened TimerProofs

  lemma StartKeeps(clock: int)
    requires clock > 0
    ensures Inv(Start(clock))
  {
  }

  ghost function Next(s: State, e: Event): (r: State)
    requires Inv(s)
    ensures Inv(r)
  {
    StepKeepsInv(s, e);
    Step(s, e)
  }

  /** The invariants, at the end of every run. */
  ghost function Run(s: State, es: seq<Event>): (r: State)
    requires Inv(s)
    ensures Inv(r)
  {
    if es == [] then s else Next(Run(s, es[..|es| - 1]), es[|es| - 1])
  }

  ghost function FromStart(clock: int, es: seq<Event>): (r: State)
    requires clock > 0
    ensures Inv(r)
  {
    StartKeeps(clock);
    Run(Start(clock), es)
  }

  // ----- The source's assertions -----

  lemma {:induction false} SameSize(heap: Heap, timers: set<Entry>, active: set<TimerId>)
    requires IndexesAgree(heap, timers, active)
    ensures |timers| == |active|
    decreases |timers|
  {
    if timers == {} {
      assert active == {};
    } else {
      var e :| e in timers;
      DequeueIndexes(heap, e.addr, timers, active);
      SameSize(heap, timers - {e}, active - {IdOf(heap, e.addr)});
    }
  }

  /** What the source asserts, and what it dereferences, when it takes the step. */
  ghost predicate SourceAsserts(s: State, e: Event)
    requires Enabled(s, e)
  {
    && |s.timers| == |s.active|
    && PointersLive(s, e)
    && (match e
        case LoopAdd(a, w, _, _) => Entry(w, a) !in s.timers && TimerId(a, s.nextSeq) !in s.active
        case LoopCancel(id) => id in s.active ==> EntryOf(s.heap, id.addr) in s.timers
        case RunFunctor =>
          (match s.pending[0]
           case AddInLoop(a) => EntryOf(s.heap, a) !in s.timers && IdOf(s.heap, a) !in s.active
           case CancelInLoop(id) => id in s.active ==> EntryOf(s.heap, id.addr) in s.timers)
        case BeginBatch =>
          && (forall x :: x in Begin(s).timers ==> s.clock < x.when)
          && (forall x :: x in Expired(s.timers, s.clock) ==> IdOf(s.heap, x.addr) in s.active)
        case ResetNext =>
          var a := s.phase.batch[0].addr;
          IdOf(s.heap, a) !in s.active && Entry(s.phase.now + s.heap[a].interval, a) !in s.timers
        case _ => true)
  }

  lemma PointersAreLive(s: State, e: Event)
    requires Inv(s) && Enabled(s, e)
    ensures SourceAsserts(s, e)
  {
    SameSize(s.heap, s.timers, s.active);
    match e {
      case RunFunctor =>
        if s.pending[0].AddInLoop? {
          assert InPending(s.pending, s.pending[0].addr);
        }
      case RunNext => assert s.phase.batch[s.phase.next] in Batch(s.phase);
      case ResetNext =>
        var x := s.phase.batch[0];
        assert x in Batch(s.phase) && InBatch(s.heap, Batch(s.phase), x.addr);
        assert !InQueue(s.heap, s.timers, x.addr);
      case _ =>
    }
  }

  lemma StepReady(s: State, e: Event)
    requires Inv(s) && Enabled(s, e)
    ensures PointersLive(s, e) && Inv(Step(s, e))
  {
    PointersAreLive(s, e);
    StepKeepsInv(s, e);
  }

  lemma IndexesOf(s: State, a: Addr)
    requires InvWith(s, a)
    ensures IndexesAgree(s.heap, s.timers, s.active) && (a != 0 ==> a in s.heap)
  {
  }

  /** In every reachable state, between any two callbacks too, the two indexes agree, every
      assertion of the next step holds, and every pointer it follows is live. */
  lemma AssertionsHold(clock: int, es: seq<Event>, e: Event)
    requires clock > 0
    ensures var s := FromStart(clock, es);
            IndexesAgree(s.heap, s.timers, s.active) && (Enabled(s, e) ==> SourceAsserts(s, e))
  {
    if Enabled(FromStart(clock, es), e) {
      PointersAreLive(FromStart(clock, es), e);
    }
  }

  // ----- Expiry -----

  /** `getExpired`: the batch is in order and holds exactly the entries due by now; exactly
      the later ones stay queued. */
  lemma BatchIsExact(clock: int, es: seq<Event>)
    requires clock > 0
    ensures var s := FromStart(clock, es);
            var b := Next(s, BeginBatch);
            s.phase.Idle? ==>
              && b.phase.Calling?
              && Ascending(b.phase.batch)
              && (forall e :: e in b.phase.batch <==> e in s.timers && e.when <= s.clock)
              && (forall e :: e in b.timers <==> e in s.timers && s.clock < e.when)
  {
    var s := FromStart(clock, es);
    if s.phase.Idle? {
      PointersAreLive(s, BeginBatch);
      SortedIsExact(Expired(s.timers, s.clock));
    }
  }

  /** Over every run: no callback runs before its expiration, a one-shot timer runs at most
      once, and two runs of a periodic timer are at least its interval apart. */
  lemma FiresAreRight(clock: int, es: seq<Event>)
    requires clock > 0
    ensures var fires := FromStart(clock, es).fires;
            && (forall i :: 0 <= i < |fires| ==> fires[i].due <= fires[i].now)
            && (forall i, j :: 0 <= i < j < |fires| && fires[i].sequence == fires[j].sequence ==>
                  fires[i].repeat && fires[j].now >= fires[i].now + fires[i].interval)
  {
    var r := FromStart(clock, es);
    assert FiresSound(r.fires, r.phase, r.clock, r.nextSeq);
  }

  /** No missed deadline: outside `handleRead`, a queued timer whose time has come (and 100
      microseconds have passed since the timerfd was last armed) finds the timerfd fired. */
  lemma NoMissedDeadline(clock: int, es: seq<Event>, e: Entry)
    requires clock > 0
    ensures var s := FromStart(clock, es);
            s.phase.Idle? && e in s.timers ==>
              s.fd.Fired? || (s.fd.Armed? && s.clock < s.fd.deadline <= Max(e.when, s.fd.since + 100))
  {
    var s := FromStart(clock, es);
    if s.phase.Idle? && e in s.timers {
      assert Timely(s.timers, s.fd);
    }
  }

  // ----- Ownership -----

  /** Every timer ever created is, at every moment, either deleted once or live with
      exactly one owner: a pending add, the queue or the batch. */
  lemma OwnershipIsConserved(clock: int, es: seq<Event>, q: nat)
    requires clock > 0
    ensures var s := FromStart(clock, es);
            && (q < s.nextSeq ==> (q in s.freed <==> !Live(s.heap, q)))
            && multiset(s.freed)[q] <= 1
            && (Live(s.heap, q) ==> exists a :: a in s.heap && s.heap[a].sequence == q && OneOwner(s, a))
  {
    var s := FromStart(clock, es);
    DistinctOnce(s.freed, q);
    if Live(s.heap, q) {
      var a :| a in s.heap && s.heap[a].sequence == q;
      assert InPending(s.pending, a) || InQueue(s.heap, s.timers, a) || InBatch(s.heap, Batch(s.phase), a);
      assert OneOwner(s, a);
    }
  }

  /** A pending add, the queue or the batch: exactly one of them has the timer. */
  predicate OneOwner(s: State, a: Addr) {
    var p, q, b := InPending(s.pending, a), InQueue(s.heap, s.timers, a), InBatch(s.heap, Batch(s.phase), a);
    (p || q || b) && !(p && q) && !(p && b) && !(q && b)
  }

  lemma {:induction false} DistinctOnce(s: seq<nat>, q: nat)
    requires forall i, j :: 0 <= i < j < |s| ==> s[i] != s[j]
    ensures multiset(s)[q] <= 1
  {
    if s != [] {
      var front, last := s[..|s| - 1], s[|s| - 1];
      DistinctOnce(front, q);
      assert s == front + [last];
      assert last !in front;
    }
  }

  /** `later` continues the history `earlier` without a run of timer `q`, except in batch `n`
      when `inFlight`. */
  ghost predicate Quiet(earlier: seq<Fire>, later: seq<Fire>, q: nat, inFlight: bool, n: nat) {
    && earlier <= later
    && forall k :: |earlier| <= k < |later| && later[k].sequence == q ==> inFlight && later[k].batchNo == n
  }

  lemma QuietTrans(a: seq<Fire>, b: seq<Fire>, c: seq<Fire>, q: nat, inFlight: bool, n: nat)
    requires Quiet(a, b, q, inFlight, n) && Quiet(b, c, q, inFlight, n)
    ensures Quiet(a, c, q, inFlight, n)
  {
    assert forall k :: |a| <= k < |b| ==> c[k] == b[k];
  }

  lemma DeadHeap(h: Heap, g: Heap, q: nat, n: nat, a: Addr)
    requires q < n && !Live(h, q)
    requires OneChange(h, g, n, a)
    ensures !Live(g, q)
  {
    forall x | x in g ensures g[x].sequence != q {
      assert x in h ==> h[x].sequence != q;
    }
  }

  /** At most one timer appears, disappears or is rescheduled, and none changes its number. */
  ghost predicate OneChange(h: Heap, g: Heap, n: nat, a: Addr) {
    || g == h
    || g == h - {a}
    || (a in g && g == h[a := g[a]] && (g[a].sequence == n || (a in h && g[a].sequence == h[a].sequence)))
  }

  lemma OneTimerAtATime(s: State, e: Event) returns (a: Addr)
    ensures OneChange(s.heap, Step(s, e).heap, s.nextSeq, a) && s.nextSeq <= Step(s, e).nextSeq
  {
    a := match e
         case ForeignAdd(b, _, _, _) => b
         case LoopAdd(b, _, _, _) => b
         case LoopCancel(id) => id.addr
         case RunFunctor =>
           if s.pending != [] && s.pending[0].CancelInLoop? then s.pending[0].id.addr else 0
         case ResetNext => if Enabled(s, e) then s.phase.batch[0].addr else 0
         case _ => 0;
  }

  /** Only `RunNext` adds to the history, and only a live timer of the batch runs. */
  lemma OnlyRunNextFires(s: State, e: Event)
    requires Inv(s)
    ensures var r := Step(s, e);
            if e.RunNext? && Enabled(s, e) then
              exists f :: r.fires == s.fires + [f] && f.batchNo == s.batchNo && Live(s.heap, f.sequence)
            else r.fires == s.fires
  {
    if e.RunNext? && Enabled(s, e) {
      PointersAreLive(s, e);
      var f := Step(s, e).fires[|s.fires|];
      assert s.heap[s.phase.batch[s.phase.next].addr].sequence == f.sequence;
    }
  }

  lemma DeadStep(s: State, e: Event, q: nat)
    requires Inv(s) && q < s.nextSeq && !Live(s.heap, q)
    ensures var r := Step(s, e); !Live(r.heap, q) && q < r.nextSeq && Quiet(s.fires, r.fires, q, false, 0)
  {
    var a := OneTimerAtATime(s, e);
    DeadHeap(s.heap, Step(s, e).heap, q, s.nextSeq, a);
    OnlyRunNextFires(s, e);
  }

  /** A deleted timer stays deleted and its callback never runs again, whatever timer is
      created at its address. */
  lemma {:induction false} DeletedIsFinal(s: State, q: nat, es: seq<Event>)
    requires Inv(s) && q < s.nextSeq && !Live(s.heap, q)
    ensures var r := Run(s, es); !Live(r.heap, q) && q < r.nextSeq && Quiet(s.fires, r.fires, q, false, 0)
  {
    if es != [] {
      var p := Run(s, es[..|es| - 1]);
      DeletedIsFinal(s, q, es[..|es| - 1]);
      DeadStep(p, es[|es| - 1], q);
      QuietTrans(s.fires, p.fires, Run(s, es).fires, q, false, 0);
    }
  }

  // ----- Cancel -----

  /** The timer `q` is in the batch `n`, and marked to be deleted at its end. */
  ghost predicate Marked(s: State, q: nat, n: nat, x: Entry) {
    && !s.phase.Idle? && s.batchNo == n
    && x in Batch(s.phase) && x.addr in s.heap && s.heap[x.addr].sequence == q && TimerId(x.addr, q) in s.canceling
  }

  ghost predicate Doomed(s: State, q: nat, n: nat, x: Entry) {
    q < s.nextSeq && (Live(s.heap, q) ==> Marked(s, q, n, x))
  }

  /** No two entries of a batch are for the same timer. */
  lemma BatchAddrsDiffer(s: State)
    requires Inv(s) && Enabled(s, ResetNext)
    ensures forall x :: x in s.phase.batch[1..] ==> x.addr != s.phase.batch[0].addr
  {
    AscendingIsDistinct(s.phase.batch, 0);
    assert s.phase.batch == [s.phase.batch[0]] + s.phase.batch[1..];
    forall x | x in s.phase.batch[1..] ensures x.addr != s.phase.batch[0].addr {
      assert x in Batch(s.phase) && s.phase.batch[0] in Batch(s.phase);
    }
  }

  /** The marked timer's own turn: it is deleted. */
  lemma MarkedIsDeleted(s: State, q: nat, n: nat, x: Entry)
    requires Inv(s) && Enabled(s, ResetNext) && Marked(s, q, n, x) && s.phase.batch[0] == x
    ensures Step(s, ResetNext) == Delete(PopBatch(s), x.addr) && !Live(s.heap - {x.addr}, q)
  {
  }

  lemma OthersReset(s: State, x: Entry)
    requires Inv(s) && Enabled(s, ResetNext) && x in s.phase.batch && s.phase.batch[0] != x && x.addr in s.heap
    ensures var r := Step(s, ResetNext);
            && x in Batch(r.phase) && r.phase.Resetting? && r.batchNo == s.batchNo && r.canceling == s.canceling
            && x.addr in r.heap && r.heap[x.addr] == s.heap[x.addr] && r.nextSeq == s.nextSeq
  {
    hide InvWith;
    StepReady(s, ResetNext);
    BatchAddrsDiffer(s);
    assert s.phase.batch == [s.phase.batch[0]] + s.phase.batch[1..];
    assert x in s.phase.batch[1..];
  }

  lemma MarkedReset(s: State, q: nat, n: nat, x: Entry)
    requires Inv(s) && Enabled(s, ResetNext) && q < s.nextSeq && Marked(s, q, n, x)
    ensures Doomed(Step(s, ResetNext), q, n, x)
  {
    if s.phase.batch[0] == x {
      MarkedIsDeleted(s, q, n, x);
    } else {
      OthersReset(s, x);
    }
    hide Inv, Step;
  }

  lemma MarkedStep(s: State, e: Event, q: nat, n: nat, x: Entry)
    requires Inv(s) && q < s.nextSeq && Marked(s, q, n, x)
    ensures Doomed(Step(s, e), q, n, x)
  {
    assert InBatch(s.heap, Batch(s.phase), x.addr);
    if Enabled(s, e) {
      match e {
        case ResetNext => MarkedReset(s, q, n, x);
        case LoopCancel(id) => assert id in s.active ==> id.addr != x.addr;
        case _ =>
      }
    }
  }

  lemma DoomedStep(s: State, e: Event, q: nat, n: nat, x: Entry, inFlight: bool)
    requires Inv(s) && Doomed(s, q, n, x) && (Live(s.heap, q) ==> inFlight)
    ensures var r := Step(s, e);
            Doomed(r, q, n, x) && (Live(r.heap, q) ==> inFlight) && Quiet(s.fires, r.fires, q, inFlight, n)
  {
    if Live(s.heap, q) {
      MarkedStep(s, e, q, n, x);
      OnlyRunNextFires(s, e);
    } else {
      DeadStep(s, e, q);
    }
  }

  lemma {:induction false} DoomedRun(s: State, es: seq<Event>, q: nat, n: nat, x: Entry, inFlight: bool)
    requires Inv(s) && Doomed(s, q, n, x) && (Live(s.heap, q) ==> inFlight)
    ensures var r := Run(s, es);
            Doomed(r, q, n, x) && (Live(r.heap, q) ==> inFlight) && Quiet(s.fires, r.fires, q, inFlight, n)
  {
    if es != [] {
      var p := Run(s, es[..|es| - 1]);
      DoomedRun(s, es[..|es| - 1], q, n, x, inFlight);
      DoomedStep(p, es[|es| - 1], q, n, x, inFlight);
      QuietTrans(s.fires, p.fires, Run(s, es).fires, q, inFlight, n);
    }
  }

  /** `id` names a live timer. */
  predicate Names(s: State, id: TimerId) { id.addr in s.heap && IdOf(s.heap, id.addr) == id }

  /** Cancel is final.  Once the add of a timer has been executed, cancelling its id means
      that it never runs again, whatever happens afterwards; except that a timer already
      in the batch being called may still run in that batch, and in no later one. */
  lemma CancelIsFinal(clock: int, before: seq<Event>, id: TimerId, after: seq<Event>)
    requires clock > 0
    ensures var s := FromStart(clock, before);
            var r := Run(Next(s, LoopCancel(id)), after);
            Enabled(s, LoopCancel(id)) && Names(s, id) && !InPending(s.pending, id.addr) ==>
              Quiet(s.fires, r.fires, id.sequence, InBatch(s.heap, Batch(s.phase), id.addr), s.batchNo)
  {
    var s := FromStart(clock, before);
    if Enabled(s, LoopCancel(id)) && Names(s, id) && !InPending(s.pending, id.addr) {
      CancelDooms(s, id);
      DoomedRun(Next(s, LoopCancel(id)), after, id.sequence, s.batchNo,
                EntryOf(s.heap, id.addr), InBatch(s.heap, Batch(s.phase), id.addr));
    }
  }

  lemma CancelDooms(s: State, id: TimerId)
    requires Inv(s) && Enabled(s, LoopCancel(id)) && Names(s, id) && !InPending(s.pending, id.addr)
    ensures var c := Next(s, LoopCancel(id));
            && c.fires == s.fires
            && Doomed(c, id.sequence, s.batchNo, EntryOf(s.heap, id.addr))
            && (Live(c.heap, id.sequence) ==> InBatch(s.heap, Batch(s.phase), id.addr))
  {
    assert InQueue(s.heap, s.timers, id.addr) || InBatch(s.heap, Batch(s.phase), id.addr);
    if InQueue(s.heap, s.timers, id.addr) {
      assert id in s.active;
      assert !Live(s.heap - {id.addr}, id.sequence);
    } else {
      assert id !in s.active;
    }
  }

  /** If the next functor is a cancel of `id`, no add of that timer is still to come, and no
      live timer has the id afterwards. */
  ghost predicate CancelFinds(s: State, id: TimerId)
    requires Inv(s)
  {
    Enabled(s, RunFunctor) && s.pending[0] == CancelInLoop(id) ==>
      (Names(s, id) ==> !InPending(s.pending, id.addr)) && !Names(Next(s, RunFunctor), id)
  }

  lemma CancelAfterAdd(s: State, id: TimerId)
    requires Inv(s) && Enabled(s, RunFunctor) && s.pending[0] == CancelInLoop(id) && Names(s, id)
    ensures !InPending(s.pending, id.addr) && id in s.active
  {
    forall j | 0 <= j < |s.pending| ensures s.pending[j] != AddInLoop(id.addr) {
      assert j == 0 || s.pending[j].CancelInLoop? || s.pending[j].addr !in s.heap
             || IdOf(s.heap, s.pending[j].addr) != id;
    }
    assert InQueue(s.heap, s.timers, id.addr) || InBatch(s.heap, Batch(s.phase), id.addr);
  }

  /** A foreign thread's cancel finds its timer: when the functor runs, the add it refers to
      has run before it, so a timer that is still live is deleted at once. */
  lemma QueuedCancelWorks(clock: int, before: seq<Event>, id: TimerId)
    requires clock > 0
    ensures CancelFinds(FromStart(clock, before), id)
  {
    var s := FromStart(clock, before);
    if Enabled(s, RunFunctor) && s.pending[0] == CancelInLoop(id) && Names(s, id) {
      CancelAfterAdd(s, id);
    }
  }

  // ----- Cancellations nobody can see -----

  /** Two states that differ only in cancellations that match no timer in the batch. */
  ghost predicate Same(s: State, t: State) {
    && t == s.(canceling := t.canceling)
    && forall e :: e in Batch(s.phase) && e.addr in s.heap ==>
         (IdOf(s.heap, e.addr) in s.canceling <==> IdOf(s.heap, e.addr) in t.canceling)
  }

  lemma SameReset(s: State, t: State)
    requires Same(s, t) && Enabled(s, ResetNext) && PointersLive(s, ResetNext)
    requires forall x :: x in s.phase.batch[1..] ==> x.addr != s.phase.batch[0].addr
    ensures Same(Step(s, ResetNext), Step(t, ResetNext))
  {
    var rest := s.phase.batch[1..];
    assert s.phase.batch == [s.phase.batch[0]] + rest;
    var r := Step(s, ResetNext);
    assert s.phase.batch[0] in Batch(s.phase);
    assert Step(t, ResetNext) == r.(canceling := t.canceling);
    assert forall x :: x in rest && x.addr in r.heap ==>
        x in Batch(s.phase) && x.addr in s.heap && IdOf(r.heap, x.addr) == IdOf(s.heap, x.addr);
  }

  /** Whatever else a step does, the timers of the batch stay where they are. */
  lemma BatchUntouched(s: State, e: Event, x: Entry)
    requires Inv(s) && x in Batch(s.phase) && !e.ResetNext?
    ensures var r := Step(s, e); x.addr in s.heap && x.addr in r.heap && r.heap[x.addr] == s.heap[x.addr]
  {
    assert InBatch(s.heap, Batch(s.phase), x.addr);
    if Enabled(s, e) {
      match e {
        case LoopCancel(id) => assert id in s.active ==> id.addr != x.addr;
        case _ =>
      }
    }
  }

  /** What a step does to the rest of the state does not depend on the cancellations,
      unless it resets a timer. */
  lemma SameElse(s: State, t: State, e: Event)
    requires t == s.(canceling := t.canceling) && !e.ResetNext?
    ensures var r, u := Step(s, e), Step(t, e); u == r.(canceling := u.canceling)
  {
    match e {
      case BeginBatch => SameBegin(s, t);
      case RunFunctor => SameFunctor(s, t);
      case LoopCancel(id) => SameCancel(s, t, id);
      case LoopAdd(a, w, r, i) => SameAdd(s, t, e);
      case _ =>
    }
  }

  lemma SameCancel(s: State, t: State, id: TimerId)
    requires t == s.(canceling := t.canceling)
    ensures var r, u := Step(s, LoopCancel(id)), Step(t, LoopCancel(id)); u == r.(canceling := u.canceling)
  {
  }

  lemma SameAdd(s: State, t: State, e: Event)
    requires t == s.(canceling := t.canceling) && e.LoopAdd?
    ensures var r, u := Step(s, e), Step(t, e); u == r.(canceling := u.canceling)
  {
  }

  lemma SameFunctor(s: State, t: State)
    requires t == s.(canceling := t.canceling)
    ensures var r, u := Step(s, RunFunctor), Step(t, RunFunctor); u == r.(canceling := u.canceling)
  {
  }

  lemma SameBegin(s: State, t: State)
    requires t == s.(canceling := t.canceling)
    ensures var r, u := Step(s, BeginBatch), Step(t, BeginBatch); u == r.(canceling := u.canceling)
  {
  }

  /** The cancellations a step adds while callbacks run. */
  function NewMarks(s: State, e: Event): set<TimerId> {
    if e.LoopCancel? && s.phase.Calling? && e.id !in s.active then {e.id} else {}
  }

  lemma MarksGrow(s: State, e: Event)
    requires !e.ResetNext? && (Enabled(s, e) ==> PointersLive(s, e))
    ensures var r := Step(s, e);
            if e.BeginBatch? && s.phase.Idle? then r.canceling == {}
            else r.canceling == s.canceling + NewMarks(s, e)
                 && (Batch(r.phase) == Batch(s.phase) || Batch(r.phase) == [])
  {
  }

  lemma SameStep(s: State, t: State, e: Event)
    requires Inv(s) && Inv(t) && Same(s, t)
    ensures Same(Step(s, e), Step(t, e))
  {
    if e.ResetNext? {
      if Enabled(s, e) {
        PointersAreLive(s, e);
        BatchAddrsDiffer(s);
        SameReset(s, t);
      }
    } else {
      SameElsewhere(s, t, e);
    }
  }

  lemma SameElsewhere(s: State, t: State, e: Event)
    requires Inv(s) && Inv(t) && Same(s, t) && !e.ResetNext?
    ensures Same(Step(s, e), Step(t, e))
  {
    hide InvWith, Step;
    SameElse(s, t, e);
    if Enabled(s, e) {
      StepReady(s, e);
      StepReady(t, e);
    }
    MarksGrow(s, e);
    MarksGrow(t, e);
    var r := Step(s, e);
    forall x | x in Batch(r.phase) && Batch(r.phase) == Batch(s.phase) && x.addr in r.heap
      ensures x.addr in s.heap && IdOf(r.heap, x.addr) == IdOf(s.heap, x.addr)
    {
      BatchUntouched(s, e, x);
    }
  }

  lemma {:induction false} SameRun(s: State, t: State, es: seq<Event>)
    requires Inv(s) && Inv(t) && Same(s, t)
    ensures Same(Run(s, es), Run(t, es))
  {
    if es != [] {
      SameRun(s, t, es[..|es| - 1]);
      SameStep(Run(s, es[..|es| - 1]), Run(t, es[..|es| - 1]), es[|es| - 1]);
    }
  }

  /** A cancel whose id names no timer that has been added to the queue is invisible: every
      continuation is the one without it, up to the set of cancellations.  That covers a
      stale id whose address now holds a newer timer, an id already cancelled or expired,
      and a cancel that overtakes its own add, which is lost. */
  lemma UselessCancelIsInvisible(clock: int, before: seq<Event>, id: TimerId, after: seq<Event>)
    requires clock > 0
    ensures var s := FromStart(clock, before);
            var r := Run(Next(s, LoopCancel(id)), after);
            (Names(s, id) ==> InPending(s.pending, id.addr)) ==> r == Run(s, after).(canceling := r.canceling)
  {
    var s := FromStart(clock, before);
    if Names(s, id) ==> InPending(s.pending, id.addr) {
      UselessCancelIsSame(s, id);
      SameRun(s, Next(s, LoopCancel(id)), after);
    }
  }

  lemma UselessCancelIsSame(s: State, id: TimerId)
    requires Inv(s) && (Names(s, id) ==> InPending(s.pending, id.addr))
    ensures Same(s, Next(s, LoopCancel(id)))
  {
    assert id !in s.active;
    assert forall x :: x in Batch(s.phase) && x.addr in s.heap ==> InBatch(s.heap, Batch(s.phase), x.addr);
  }
}
