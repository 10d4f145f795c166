/** One batch from beginning to end, and the life of a timer that nobody cancels. */
module TimerBatches {
  import opened Numbers
  import opened TimerModel
  import opened TimerProofs
  import opened TimerTheorems
  import opened TimerRequests

  // ----- One batch -----

  /** The ids that callbacks of the batch begun in `b` cancel while the batch is called. */
  ghost function NamedIn(b: State, es: seq<Event>): set<TimerId>
    requires Inv(b)
  {
    if es == [] then {} else NamedIn(b, es[..|es| - 1]) + NamedBy(Run(b, es[..|es| - 1]), es[|es| - 1])
  }

  function NamedBy(s: State, e: Event): set<TimerId> {
    if e.LoopCancel? && s.phase.Calling? then {e.id} else {}
  }

  /** The first `k` entries of the batch run, in order, at the batch's `now`. */
  ghost function RunsOf(b: State, k: nat): seq<Fire>
    requires b.phase.Calling? && k <= |b.phase.batch| && forall x :: x in b.phase.batch ==> x.addr in b.heap
  {
    if k == 0 then []
    else
      var t := b.heap[b.phase.batch[k - 1].addr];
      RunsOf(b, k - 1) + [Fire(t.sequence, t.expiration, b.phase.now, t.repeat, t.interval, b.batchNo)]
  }

  /** Timer `t` of the batch has been handled: a periodic timer that no callback cancelled is
      queued again, due an interval after the batch's `now`, and any other is gone. */
  ghost predicate Settled(r: State, a: Addr, t: Timer, now: int, named: set<TimerId>) {
    if t.repeat && TimerId(a, t.sequence) !in named then
      a in r.heap && r.heap[a] == t.(expiration := now + t.interval) && InQueue(r.heap, r.timers, a)
    else t.sequence < r.nextSeq && !Live(r.heap, t.sequence)
  }

  /** Entry `x` in the batch begun in `b`, at `r`. */
  ghost predicate Carried(b: State, r: State, x: Entry, named: set<TimerId>)
    requires x.addr in b.heap && b.phase.Calling?
  {
    && r.batchNo >= b.batchNo
    && (r.batchNo == b.batchNo && !r.phase.Idle? ==>
          && r.phase.now == b.phase.now
          && (r.phase.Calling? ==> x in r.phase.batch)
          && (if x in r.phase.batch then
                && x.addr in r.heap && r.heap[x.addr] == b.heap[x.addr]
                && (IdOf(r.heap, x.addr) in r.canceling <==> IdOf(r.heap, x.addr) in named)
              else Settled(r, x.addr, b.heap[x.addr], b.phase.now, named)))
  }

  lemma InFlightStep(s: State, e: Event)
    requires Inv(s)
    ensures var r := Step(s, e);
            && r.batchNo >= s.batchNo && r.nextSeq >= s.nextSeq
            && (r.batchNo == s.batchNo && !r.phase.Idle? ==>
                  && !s.phase.Idle? && Now(r.phase) == Now(s.phase)
                  && (!e.ResetNext? ==> Batch(r.phase) == Batch(s.phase))
                  && (s.phase.Resetting? ==> r.phase.Resetting?)
                  && (e.LoopCancel? && Enabled(s, e) ==> s.phase.Calling?)
                  && (!e.LoopCancel? ==> r.canceling == s.canceling))
  {
    if Enabled(s, e) {
      PointersAreLive(s, e);
    }
  }

  lemma CancelMarks(s: State, id: TimerId, x: Entry)
    requires Inv(s) && s.phase.Calling? && x in s.phase.batch && x.addr in s.heap
    ensures var q := IdOf(s.heap, x.addr);
            q in Step(s, LoopCancel(id)).canceling <==> q in s.canceling || q == id
  {
    assert x in Batch(s.phase) && InBatch(s.heap, Batch(s.phase), x.addr);
    if id in s.active {
      assert InQueue(s.heap, s.timers, id.addr);
    }
  }

  /** An entry that is still in the batch after the step. */
  lemma StaysCarried(b: State, s: State, e: Event, x: Entry, named: set<TimerId>)
    requires Inv(s) && x.addr in b.heap && b.phase.Calling? && Carried(b, s, x, named) && !e.ResetNext?
    requires s.batchNo == b.batchNo && !s.phase.Idle? && x in s.phase.batch
    ensures Carried(b, Step(s, e), x, named + NamedBy(s, e))
  {
    hide Inv, Step;
    InFlightStep(s, e);
    BatchUntouched(s, e, x);
    if !Enabled(s, e) {
      Stutter(s, e);
    }
    if e.LoopCancel? && s.phase.Calling? {
      CancelMarks(s, e.id, x);
    }
  }

  lemma ResetCarried(b: State, s: State, x: Entry, named: set<TimerId>)
    requires Inv(s) && x.addr in b.heap && b.phase.Calling? && Carried(b, s, x, named)
    requires s.batchNo == b.batchNo && Enabled(s, ResetNext) && x in s.phase.batch
    ensures Carried(b, Step(s, ResetNext), x, named)
  {
    if s.phase.batch[0] == x {
      OwnReset(s, x, named);
      hide Inv, Step;
      InFlightStep(s, ResetNext);
    } else {
      hide Inv, Step;
      InFlightStep(s, ResetNext);
      OthersReset(s, x);
    }
  }

  /** Its own turn. */
  lemma OwnReset(s: State, x: Entry, named: set<TimerId>)
    requires Inv(s) && Enabled(s, ResetNext) && s.phase.batch[0] == x && x.addr in s.heap
    requires IdOf(s.heap, x.addr) in s.canceling <==> IdOf(s.heap, x.addr) in named
    ensures var r := Step(s, ResetNext);
            && r.phase.Resetting? && r.phase.now == s.phase.now && x !in r.phase.batch
            && Settled(r, x.addr, s.heap[x.addr], s.phase.now, named)
  {
    BatchAddrsDiffer(s);
  }

  /** Nothing touches a handled timer before the reset is over. */
  lemma StaysSettled(s: State, e: Event, a: Addr, t: Timer, now: int, named: set<TimerId>)
    requires Inv(s) && s.phase.Resetting? && Settled(s, a, t, now, named)
    ensures Settled(Step(s, e), a, t, now, named)
  {
    if t.repeat && TimerId(a, t.sequence) !in named {
      if Enabled(s, e) && e.ResetNext? {
        PointersAreLive(s, e);
        assert s.phase.batch[0] in Batch(s.phase);
      }
    } else {
      DeadStep(s, e, t.sequence);
    }
  }

  lemma CarriedStep(b: State, s: State, e: Event, x: Entry, named: set<TimerId>)
    requires Inv(s) && x.addr in b.heap && b.phase.Calling? && Carried(b, s, x, named)
    ensures Carried(b, Step(s, e), x, named + NamedBy(s, e))
  {
    hide Inv, Step;
    InFlightStep(s, e);
    var r := Step(s, e);
    if r.batchNo == b.batchNo && !r.phase.Idle? {
      if !Enabled(s, e) {
        Stutter(s, e);
      }
      if x !in s.phase.batch {
        StaysSettled(s, e, x.addr, b.heap[x.addr], b.phase.now, named);
        NotBack(s, e, x);
        assert named + NamedBy(s, e) == named;
      } else if e.ResetNext? {
        if Enabled(s, e) {
          ResetCarried(b, s, x, named);
        }
        assert named + NamedBy(s, e) == named;
      } else {
        StaysCarried(b, s, e, x, named);
      }
    }
  }

  lemma NotBack(s: State, e: Event, x: Entry)
    requires Inv(s) && s.phase.Resetting? && x !in s.phase.batch
    ensures x !in Batch(Step(s, e).phase)
  {
  }

  lemma {:induction false} CarriedRun(b: State, es: seq<Event>, x: Entry)
    requires Inv(b) && b.phase.Calling? && b.canceling == {} && x in b.phase.batch
    ensures x.addr in b.heap && Carried(b, Run(b, es), x, NamedIn(b, es))
  {
    assert x in Batch(b.phase);
    if es != [] {
      CarriedRun(b, es[..|es| - 1], x);
      CarriedStep(b, Run(b, es[..|es| - 1]), es[|es| - 1], x, NamedIn(b, es[..|es| - 1]));
    }
  }

  /** Every batch, whatever its callbacks and other threads do meanwhile: when `handleRead`
      ends, each periodic timer of the batch that no callback cancelled is queued again under
      its own number, due its interval after the batch's `now`, and every other timer of the
      batch is deleted. */
  lemma BatchIsReset(clock: int, before: seq<Event>, during: seq<Event>, x: Entry)
    requires clock > 0
    ensures var s := FromStart(clock, before);
            var b := Next(s, BeginBatch);
            var r := Run(b, during);
            s.phase.Idle? && x in Expired(s.timers, s.clock) && r.batchNo == b.batchNo && Enabled(r, FinishReset) ==>
              && x.addr in s.heap
              && Settled(Next(r, FinishReset), x.addr, s.heap[x.addr], s.clock, NamedIn(b, during))
  {
    hide Inv, Step, Settled, Run, FromStart, NamedIn, Expired;
    var s := FromStart(clock, before);
    var b := Next(s, BeginBatch);
    if s.phase.Idle? && x in Expired(s.timers, s.clock) {
      Begun(s, x);
      CarriedRun(b, during, x);
      var r := Run(b, during);
      if r.batchNo == b.batchNo && Enabled(r, FinishReset) {
        StaysSettled(r, FinishReset, x.addr, s.heap[x.addr], s.clock, NamedIn(b, during));
      }
    }
  }

  lemma Begun(s: State, x: Entry)
    requires Inv(s) && s.phase.Idle? && x in Expired(s.timers, s.clock)
    ensures x.addr in s.heap && x == EntryOf(s.heap, x.addr)
    ensures var b := Step(s, BeginBatch);
            && b.phase == Calling(s.clock, Sorted(Expired(s.timers, s.clock)), 0) && x in b.phase.batch
            && b.heap == s.heap && b.canceling == {} && b.fires == s.fires && b.batchNo == s.batchNo + 1
  {
    PointersAreLive(s, BeginBatch);
    SortedIsExact(Expired(s.timers, s.clock));
  }

  // ----- The callbacks of one batch -----

  lemma BatchIsLive(b: State)
    requires Inv(b) && b.phase.Calling?
    ensures forall x :: x in b.phase.batch ==> x.addr in b.heap
  {
    assert Batch(b.phase) == b.phase.batch;
  }

  /** How far the batch begun in `b` has come at `r`. */
  ghost predicate Called(b: State, r: State)
    requires b.phase.Calling? && forall x :: x in b.phase.batch ==> x.addr in b.heap
  {
    && r.batchNo >= b.batchNo
    && (r.batchNo == b.batchNo && r.phase.Calling? ==>
          && r.phase.batch == b.phase.batch && r.phase.now == b.phase.now && r.phase.next <= |b.phase.batch|
          && r.fires == b.fires + RunsOf(b, r.phase.next)
          && forall x :: x in b.phase.batch ==> x.addr in r.heap && r.heap[x.addr] == b.heap[x.addr])
    && (r.batchNo == b.batchNo && r.phase.Resetting? ==> r.fires == b.fires + RunsOf(b, |b.phase.batch|))
  }

  lemma RunNextCalled(b: State, s: State)
    requires Inv(s) && b.phase.Calling? && (forall x :: x in b.phase.batch ==> x.addr in b.heap) && Called(b, s)
    requires s.batchNo == b.batchNo && Enabled(s, RunNext)
    ensures Called(b, Step(s, RunNext))
  {
    hide Inv;
    StepReady(s, RunNext);
    var k := s.phase.next;
    assert b.phase.batch[k] in b.phase.batch;
    assert RunsOf(b, k + 1)[..k] == RunsOf(b, k) && |RunsOf(b, k + 1)| == k + 1 by {
      RunsLength(b, k);
    }
  }

  lemma {:induction false} RunsLength(b: State, k: nat)
    requires b.phase.Calling? && k <= |b.phase.batch| && forall x :: x in b.phase.batch ==> x.addr in b.heap
    ensures |RunsOf(b, k)| == k
  {
    if k > 0 {
      RunsLength(b, k - 1);
    }
  }

  lemma CallingStep(s: State, e: Event)
    requires Inv(s) && !e.RunNext?
    ensures var r := Step(s, e);
            && r.fires == s.fires
            && (r.batchNo == s.batchNo && r.phase.Calling? ==> s.phase == r.phase)
            && (r.batchNo == s.batchNo && r.phase.Resetting? ==>
                  s.phase.Resetting? || (s.phase.Calling? && s.phase.next == |s.phase.batch|))
  {
    if Enabled(s, e) {
      PointersAreLive(s, e);
    }
  }

  lemma CalledStep(b: State, s: State, e: Event)
    requires Inv(s) && b.phase.Calling? && (forall x :: x in b.phase.batch ==> x.addr in b.heap) && Called(b, s)
    ensures Called(b, Step(s, e))
  {
    hide Inv, Step;
    InFlightStep(s, e);
    if !Enabled(s, e) {
      Stutter(s, e);
    } else if e.RunNext? {
      if s.batchNo == b.batchNo {
        RunNextCalled(b, s);
      }
    } else {
      CallingStep(s, e);
      var r := Step(s, e);
      forall x | r.batchNo == b.batchNo && r.phase.Calling? && x in b.phase.batch
        ensures x.addr in r.heap && r.heap[x.addr] == b.heap[x.addr]
      {
        NotResetting(s, e);
        BatchUntouched(s, e, x);
      }
    }
  }

  lemma NotResetting(s: State, e: Event)
    requires Enabled(s, e) && s.phase.Calling?
    ensures !e.ResetNext?
  {
  }

  lemma {:induction false} CalledRun(b: State, es: seq<Event>)
    requires Inv(b) && b.phase.Calling? && b.phase.next == 0
    ensures forall x :: x in b.phase.batch ==> x.addr in b.heap
    ensures Called(b, Run(b, es))
  {
    BatchIsLive(b);
    if es != [] {
      CalledRun(b, es[..|es| - 1]);
      CalledStep(b, Run(b, es[..|es| - 1]), es[|es| - 1]);
    }
  }

  /** Every batch runs exactly the callbacks of the timers due when it began, each once, in
      the order of their expirations, at the `now` with which it began. */
  lemma BatchRunsEachOnce(clock: int, before: seq<Event>, during: seq<Event>)
    requires clock > 0
    ensures var s := FromStart(clock, before);
            var b := Next(s, BeginBatch);
            var r := Run(b, during);
            s.phase.Idle? && r.batchNo == b.batchNo && Enabled(r, FinishReset) ==>
              && b.phase == Calling(s.clock, Sorted(Expired(s.timers, s.clock)), 0) && b.heap == s.heap
              && (forall x :: x in b.phase.batch ==> x.addr in b.heap)
              && Next(r, FinishReset).fires == s.fires + RunsOf(b, |b.phase.batch|)
  {
    hide Inv, Step, RunsOf, Run, FromStart;
    var s := FromStart(clock, before);
    var b := Next(s, BeginBatch);
    if s.phase.Idle? {
      BegunCalling(s);
      CalledRun(b, during);
      CallingStep(Run(b, during), FinishReset);
    }
  }

  lemma BegunCalling(s: State)
    requires Inv(s) && s.phase.Idle?
    ensures var b := Step(s, BeginBatch);
            b.phase == Calling(s.clock, Sorted(Expired(s.timers, s.clock)), 0)
            && b.heap == s.heap && b.fires == s.fires && b.batchNo == s.batchNo + 1
  {
    PointersAreLive(s, BeginBatch);
  }

  // ----- A timer that nobody cancels -----

  ghost predicate NeverNamed(es: seq<Event>, id: TimerId) { LoopCancel(id) !in es && ForeignCancel(id) !in es }

  ghost predicate Unmarked(s: State, id: TimerId) { id !in s.canceling && CancelInLoop(id) !in s.pending }

  /** The timer is live, unless it is a one-shot timer that has run. */
  ghost predicate Kept(s: State, q: Request, k: nat) {
    if q.repeat then q.addr in s.heap && s.heap[q.addr].sequence == k
    else HasRun(s.fires, k) || (q.addr in s.heap && s.heap[q.addr].sequence == k)
  }

  lemma UnmarkedStep(s: State, e: Event, id: TimerId)
    requires Unmarked(s, id) && e != LoopCancel(id) && e != ForeignCancel(id)
    ensures Unmarked(Step(s, e), id)
  {
  }

  lemma {:induction false} UnmarkedRun(clock: int, es: seq<Event>, id: TimerId)
    requires clock > 0 && NeverNamed(es, id)
    ensures Unmarked(FromStart(clock, es), id)
  {
    if es != [] {
      UnmarkedRun(clock, es[..|es| - 1], id);
      UnmarkedStep(FromStart(clock, es[..|es| - 1]), es[|es| - 1], id);
    }
  }

  /** A step that leaves the timer at `id.addr` alone. */
  lemma NotTaken(s: State, e: Event, id: TimerId)
    requires Inv(s) && Unmarked(s, id) && e != LoopCancel(id) && !e.ResetNext? && Names(s, id)
    ensures Names(Step(s, e), id)
  {
  }

  lemma NotTakenByReset(s: State, id: TimerId, adds: seq<Request>)
    requires Inv(s) && Unmarked(s, id) && Names(s, id) && Enabled(s, ResetNext) && TimersAsAsked(s, adds)
    requires s.heap[id.addr].repeat || !HasRun(s.fires, id.sequence)
    ensures Names(Step(s, ResetNext), id)
  {
    var x := s.phase.batch[0];
    PointersAreLive(s, ResetNext);
    assert x in Batch(s.phase);
    if x.addr == id.addr {
      assert AsAsked(id.addr, s.heap[id.addr], true, s.phase.now, adds, s.fires);
    }
  }

  lemma KeptStep(s: State, e: Event, adds: seq<Request>, k: nat)
    requires Inv(s) && TimersAsAsked(s, adds) && k < |adds|
    requires var id := TimerId(adds[k].addr, k); Unmarked(s, id) && e != LoopCancel(id)
    requires Kept(s, adds[k], k)
    ensures Kept(Step(s, e), adds[k], k)
  {
    hide Inv, Step, TimersAsAsked;
    var id := TimerId(adds[k].addr, k);
    OnlyRunNextFires(s, e);
    if Names(s, id) {
      assert adds[k].repeat == s.heap[id.addr].repeat by {
        NamesItsRequest(s, id, adds);
      }
      if !e.ResetNext? {
        NotTaken(s, e, id);
      } else if !Enabled(s, e) {
        Stutter(s, e);
      } else if adds[k].repeat || !HasRun(s.fires, k) {
        NotTakenByReset(s, id, adds);
      }
    }
  }

  lemma NamesItsRequest(s: State, id: TimerId, adds: seq<Request>)
    requires TimersAsAsked(s, adds) && Names(s, id) && id.sequence < |adds|
    ensures s.heap[id.addr].repeat == adds[id.sequence].repeat
  {
    assert AsAsked(id.addr, s.heap[id.addr], EntryOf(s.heap, id.addr) in Ran(s.phase), Now(s.phase), adds, s.fires);
  }

  lemma NewIsKept(s: State, e: Event)
    requires Inv(s) && AskedBy(s, e) != []
    ensures Kept(Step(s, e), AskedBy(s, e)[0], s.nextSeq)
  {
  }

  /** Over every run, with any callbacks: a timer that no cancel ever names is live under its
      own number, unless it is a one-shot timer that has run.  So a periodic timer that is
      never cancelled is live for ever. */
  lemma {:induction false} UncancelledIsKept(clock: int, es: seq<Event>, k: nat)
    requires clock > 0
    ensures var adds := Adds(clock, es);
            k < |adds| && NeverNamed(es, TimerId(adds[k].addr, k)) ==> Kept(FromStart(clock, es), adds[k], k)
  {
    var adds := Adds(clock, es);
    if k < |adds| && NeverNamed(es, TimerId(adds[k].addr, k)) {
      var front, e := es[..|es| - 1], es[|es| - 1];
      var s := FromStart(clock, front);
      AddsAreHonoured(clock, front);
      if k < |Adds(clock, front)| {
        UncancelledIsKept(clock, front, k);
        UnmarkedRun(clock, front, TimerId(adds[k].addr, k));
        KeptStep(s, e, Adds(clock, front), k);
      } else {
        NewIsKept(s, e);
      }
    }
  }
}
