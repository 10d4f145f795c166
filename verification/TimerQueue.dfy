/** The timer queue as the class of TimerQueue.cpp.  Every method does to the object what
    the corresponding step does to its state, and keeps the invariants. */
module TimerQueues {
  import opened TimerModel
  import opened TimerProofs
  import opened TimerTheorems

  /** What may happen while one callback runs. */
  predicate DuringCallback(e: Event) {
    e.ForeignAdd? || e.ForeignCancel? || e.LoopAdd? || e.LoopCancel? || e.Tick?
  }

  /** What each callback of a batch does, and what happens meanwhile. */
  type Script = f: nat -> seq<Event> | forall i: nat, k :: 0 <= k < |f(i)| ==> DuringCallback(f(i)[k])
    ghost witness ((i: nat) => [])

  ghost function AfterCallbacks(s: State, script: Script, k: nat): (r: State)
    requires Inv(s)
    ensures Inv(r)
  {
    if k == 0 then Next(s, BeginBatch)
    else Run(Next(AfterCallbacks(s, script, k - 1), RunNext), script(k - 1))
  }

  ghost function AfterResets(s: State, k: nat): (r: State)
    requires Inv(s)
    ensures Inv(r)
  {
    if k == 0 then s else Next(AfterResets(s, k - 1), ResetNext)
  }

  /** `handleRead` from beginning to end, for a batch of `n` timers. */
  ghost function AfterHandleRead(s: State, script: Script, n: nat): (r: State)
    requires Inv(s)
    ensures Inv(r)
  {
    Next(AfterResets(Next(AfterCallbacks(s, script, n), EndCallbacks), n), FinishReset)
  }

  class TimerQueue {
    var heap: Heap
    var timers: set<Entry>
    var activeTimers: set<TimerId>
    var cancelingTimers: set<TimerId>
    var callingExpiredTimers: bool
    var timerfd: TimerFd
    var pendingFunctors: seq<Functor>
    var nextSeq: nat
    var clock: int
    ghost var phase: Phase
    ghost var fires: seq<Fire>
    ghost var freed: seq<nat>
    ghost var batchNo: nat

    ghost function View(): State
      reads this
    {
      State(heap, timers, activeTimers, cancelingTimers, phase, pendingFunctors, nextSeq, clock, timerfd,
            fires, freed, batchNo)
    }

    ghost predicate Valid()
      reads this
    {
      Inv(View()) && (callingExpiredTimers <==> phase.Calling?)
    }

    constructor (now: int)
      requires now > 0
      ensures Valid() && View() == Start(now)
    {
      heap, timers, activeTimers, cancelingTimers := map[], {}, {}, {};
      callingExpiredTimers, timerfd, pendingFunctors, nextSeq, clock := false, Disarmed, [], 0, now;
      phase, fires, freed, batchNo := Idle, [], [], 0;
      new;
      StartKeeps(now);
    }

    /** `*timers_.begin()` */
    method BeginEntry() returns (e: Entry)
      requires timers != {}
      ensures e == First(timers)
    {
      FirstExists(timers);
      e :| e in timers && forall x :: x in timers && x != e ==> Before(e, x);
      assert IsFirst(e, timers);
      FirstIsUnique(e, timers);
    }

    method ResetTimerfd(when: int)
      modifies this`timerfd
      ensures View() == Arm(old(View()), when)
    {
      var microSeconds := when - clock;
      if microSeconds < 100 {
        microSeconds := 100;
      }
      timerfd := Armed(clock + microSeconds, clock);
    }

    method Insert(a: Addr) returns (earliestChanged: bool)
      requires a in heap && InvWith(View(), a) && a != 0
      modifies this`timers, this`activeTimers
      ensures View() == TimerModel.Insert(old(View()), a)
      ensures earliestChanged <==> EarliestChanged(old(timers), heap[a].expiration)
    {
      var when := heap[a].expiration;
      earliestChanged := timers == {};
      if timers != {} {
        var first := BeginEntry();
        earliestChanged := when < first.when;
      }
      assert Entry(when, a) !in timers;
      timers := timers + {Entry(when, a)};
      assert TimerId(a, heap[a].sequence) !in activeTimers;
      activeTimers := activeTimers + {TimerId(a, heap[a].sequence)};
    }

    method AddTimerInLoop(a: Addr)
      requires a in heap && InvWith(View(), a) && a != 0
      modifies this`timers, this`activeTimers, this`timerfd
      ensures View() == TimerModel.AddTimerInLoop(old(View()), a)
      ensures Entry(heap[a].expiration, a) in timers
    {
      var earliestChanged := Insert(a);
      if earliestChanged {
        ResetTimerfd(heap[a].expiration);
      }
    }

    /** `new Timer(...)`, at the address the allocator chose. */
    method CreateTimer(a: Addr, when: int, repeat: bool, interval: nat)
      modifies this`heap, this`nextSeq
      ensures View() == NewTimer(old(View()), a, when, repeat, interval)
    {
      heap, nextSeq := heap[a := Timer(when, repeat, interval, nextSeq)], nextSeq + 1;
    }

    /** `addTimer`; `runInLoop` runs the add at once on the loop thread and queues it on any
        other. */
    method AddTimer(inLoop: bool, a: Addr, when: int, repeat: bool, interval: nat) returns (id: TimerId)
      requires Valid() && Allocatable(View(), a) && (inLoop ==> !phase.Resetting?)
      modifies this`heap, this`nextSeq, this`timers, this`activeTimers, this`timerfd, this`pendingFunctors
      ensures Valid() && id == TimerId(a, old(nextSeq)) && Names(View(), id)
      ensures heap == old(heap)[a := Timer(when, repeat, interval, id.sequence)]
      ensures if inLoop then Entry(when, a) in timers
              else pendingFunctors == old(pendingFunctors) + [Functor.AddInLoop(a)]
      ensures View() == Step(old(View()), if inLoop then LoopAdd(a, when, repeat, interval)
                                          else ForeignAdd(a, when, repeat, interval))
    {
      hide InvWith, TimerModel.AddTimerInLoop;
      StepKeepsInv(View(), if inLoop then LoopAdd(a, when, repeat, interval)
                           else ForeignAdd(a, when, repeat, interval));
      NewTimerKeeps(View(), a, when, repeat, interval);
      id := TimerId(a, nextSeq);
      CreateTimer(a, when, repeat, interval);
      if inLoop {
        AddTimerInLoop(a);
      } else {
        pendingFunctors := pendingFunctors + [Functor.AddInLoop(a)];
      }
    }

    method CancelInLoop(id: TimerId)
      requires Valid() && !phase.Resetting?
      modifies this`heap, this`timers, this`activeTimers, this`cancelingTimers, this`freed
      ensures Valid() && View() == CancelTimerInLoop(old(View()), id)
      ensures View() == Step(old(View()), LoopCancel(id))
    {
      hide InvWith;
      StepReady(View(), LoopCancel(id));
      IndexesOf(View(), 0);
      assert id in activeTimers ==> id.addr in heap && Entry(heap[id.addr].expiration, id.addr) in timers;
      if id in activeTimers {
        var removing := Entry(heap[id.addr].expiration, id.addr);
        assert removing in timers;
        timers := timers - {removing};
        freed := freed + [heap[id.addr].sequence];
        heap := heap - {id.addr};
        activeTimers := activeTimers - {id};
      } else if callingExpiredTimers {
        cancelingTimers := cancelingTimers + {id};
      }
    }

    method Cancel(inLoop: bool, id: TimerId)
      requires Valid() && Enabled(View(), if inLoop then LoopCancel(id) else ForeignCancel(id))
      modifies this`heap, this`timers, this`activeTimers, this`cancelingTimers, this`freed, this`pendingFunctors
      ensures Valid() && View() == Step(old(View()), if inLoop then LoopCancel(id) else ForeignCancel(id))
    {
      if inLoop {
        CancelInLoop(id);
      } else {
        StepKeepsInv(View(), ForeignCancel(id));
        pendingFunctors := pendingFunctors + [Functor.CancelInLoop(id)];
      }
    }

    /** The loop runs the next functor a foreign thread queued. */
    method RunFunctor()
      requires Valid() && phase.Idle? && pendingFunctors != []
      modifies this`heap, this`timers, this`activeTimers, this`cancelingTimers
      modifies this`freed, this`pendingFunctors, this`timerfd
      ensures Valid() && View() == Step(old(View()), Event.RunFunctor)
    {
      hide InvWith, TimerModel.AddTimerInLoop, CancelTimerInLoop;
      StepReady(View(), Event.RunFunctor);
      PopKeeps(View());
      PendingIsLive(View());
      var f := pendingFunctors[0];
      pendingFunctors := pendingFunctors[1..];
      match f {
        case AddInLoop(a) => AddTimerInLoop(a);
        case CancelInLoop(id) => CancelInLoop(id);
      }
    }

    /** Time passes. */
    method Elapse(d: nat)
      requires Valid()
      modifies this`clock, this`timerfd
      ensures Valid() && View() == Step(old(View()), Tick(d))
    {
      StepKeepsInv(View(), Tick(d));
      clock := clock + d;
      if timerfd.Armed? && timerfd.deadline <= clock {
        timerfd := Fired;
      }
    }

    /** Take the entries due by `now` out of both indexes, first to last. */
    method GetExpired(now: int) returns (expired: seq<Entry>)
      requires IndexesAgree(heap, timers, activeTimers)
      modifies this`timers, this`activeTimers
      ensures expired == Sorted(Expired(old(timers), now))
      ensures timers == old(timers) - Expired(old(timers), now)
      ensures activeTimers == old(activeTimers) - Ids(heap, Expired(old(timers), now))
    {
      expired := [];
      ghost var due := Expired(timers, now);
      while timers != {}
        invariant IndexesAgree(heap, timers, activeTimers)
        invariant expired + Sorted(Expired(timers, now)) == Sorted(due)
        invariant timers - Expired(timers, now) == old(timers) - due
        invariant activeTimers - Ids(heap, Expired(timers, now)) == old(activeTimers) - Ids(heap, due)
        decreases timers
      {
        var first := BeginEntry();
        if now < first.when {
          break;
        }
        assert TimerId(first.addr, heap[first.addr].sequence) in activeTimers;
        TakeFirst(heap, timers, activeTimers, now);
        expired := expired + [first];
        activeTimers := activeTimers - {TimerId(first.addr, heap[first.addr].sequence)};
        timers := timers - {first};
      }
      NothingDue(heap, timers, now);
    }

    /** One thing that happens while a callback runs. */
    method Perform(e: Event)
      requires Valid() && phase.Calling? && DuringCallback(e)
      modifies this
      ensures Valid() && View() == Next(old(View()), e)
      ensures phase == old(phase)
    {
      match e {
        case ForeignAdd(a, w, r, i) =>
          if a != 0 && a !in heap { var _ := AddTimer(false, a, w, r, i); }
        case LoopAdd(a, w, r, i) =>
          if a != 0 && a !in heap { var _ := AddTimer(true, a, w, r, i); }
        case ForeignCancel(id) =>
          if Issued(id, nextSeq) { Cancel(false, id); }
        case LoopCancel(id) => Cancel(true, id);
        case Tick(d) => Elapse(d);
      }
    }

    /** `it.second->run()` */
    method RunTimer(entry: Entry)
      requires Valid() && phase.Calling? && phase.next < |phase.batch| && phase.batch[phase.next] == entry
      modifies this`fires, this`phase
      ensures Valid() && View() == Next(old(View()), RunNext)
      ensures phase == Calling(old(phase.now), old(phase.batch), old(phase.next) + 1)
    {
      hide InvWith;
      StepReady(View(), RunNext);
      var t := heap[entry.addr];
      fires := fires + [Fire(t.sequence, t.expiration, phase.now, t.repeat, t.interval, batchNo)];
      phase := Calling(phase.now, phase.batch, phase.next + 1);
    }

    /** ... and what happens while it runs. */
    method PerformAll(events: seq<Event>)
      requires Valid() && phase.Calling? && forall k :: 0 <= k < |events| ==> DuringCallback(events[k])
      modifies this
      ensures Valid() && View() == Run(old(View()), events)
      ensures phase == old(phase)
    {
      hide InvWith;
      ghost var start := View();
      var k := 0;
      while k < |events|
        invariant k <= |events| && Valid() && phase == start.phase
        invariant View() == Run(start, events[..k])
      {
        Perform(events[k]);
        assert events[..k + 1][..k] == events[..k];
        k := k + 1;
      }
      assert events[..|events|] == events;
    }

    /** The loop over the expired batch in `reset`, then the re-arming. */
    method Reset(expired: seq<Entry>, now: int)
      requires Valid() && phase == Resetting(now, expired)
      modifies this
      ensures Valid() && View() == Next(AfterResets(old(View()), |expired|), FinishReset)
    {
      ghost var start := View();
      var i := 0;
      while i < |expired|
        invariant i <= |expired| && Valid() && phase == Resetting(now, expired[i..])
        invariant View() == AfterResets(start, i)
      {
        assert expired[i..][1..] == expired[i + 1..];
        ResetTimer(expired[i], now);
        i := i + 1;
      }
      FinishResetting();
    }

    method ResetTimer(it: Entry, now: int)
      requires Valid() && phase.Resetting? && phase.now == now && phase.batch != [] && phase.batch[0] == it
      modifies this
      ensures Valid() && View() == Next(old(View()), ResetNext)
      ensures phase == Resetting(now, old(phase.batch[1..]))
      ensures it.addr in old(heap)
      ensures var t := old(heap[it.addr]);
              if t.repeat && TimerId(it.addr, t.sequence) !in cancelingTimers then
                heap == old(heap)[it.addr := t.(expiration := now + t.interval)]
                && timers == old(timers) + {Entry(now + t.interval, it.addr)}
              else heap == old(heap) - {it.addr} && timers == old(timers)
    {
      hide InvWith;
      StepReady(View(), ResetNext);
      PopBatchKeeps(View(), it.addr);
      var t := heap[it.addr];
      phase := Resetting(now, phase.batch[1..]);
      if t.repeat && TimerId(it.addr, t.sequence) !in cancelingTimers {
        RestartTimer(it.addr, now);
        var _ := Insert(it.addr);
      } else {
        DeleteTimer(it.addr);
      }
    }

    method RestartTimer(a: Addr, now: int)
      requires InvWith(View(), a) && a != 0 && phase.Resetting? && phase.now == now
      modifies this`heap
      ensures View() == Restart(old(View()), a) && InvWith(View(), a)
    {
      hide InvWith;
      IndexesOf(View(), a);
      RestartKeeps(View(), a);
      var t := heap[a];
      if t.repeat {
        heap := heap[a := t.(expiration := now + t.interval)];
      } else {
        heap := heap[a := t.(expiration := INVALID)];
      }
    }

    method DeleteTimer(a: Addr)
      requires a in heap
      modifies this`heap, this`freed
      ensures View() == Delete(old(View()), a)
    {
      freed := freed + [heap[a].sequence];
      heap := heap - {a};
    }

    method FinishResetting()
      requires Valid() && phase.Resetting? && phase.batch == []
      modifies this`timerfd, this`phase
      ensures Valid() && View() == Next(old(View()), FinishReset)
    {
      hide InvWith;
      StepKeepsInv(View(), FinishReset);
      var nextExpired := 0;
      if timers != {} {
        var first := BeginEntry();
        nextExpired := first.when;
      }
      phase := Idle;
      if nextExpired > 0 {
        ResetTimerfd(nextExpired);
      }
    }

    /** `handleRead` down to the loop over the batch. */
    method BeginBatch(now: int) returns (expired: seq<Entry>)
      requires Valid() && phase.Idle? && now == clock
      modifies this
      ensures Valid() && View() == Next(old(View()), Event.BeginBatch)
      ensures phase == Calling(now, expired, 0) && expired == Sorted(Expired(old(timers), now))
    {
      hide InvWith;
      StepReady(View(), Event.BeginBatch);
      IndexesOf(View(), 0);
      ReadTimerfd();
      expired := GetExpired(now);
      StartCalling(now, expired);
    }

    method ReadTimerfd()
      modifies this`timerfd
      ensures timerfd == if old(timerfd).Fired? then Disarmed else old(timerfd)
    {
      if timerfd.Fired? {
        timerfd := Disarmed;
      }
    }

    method StartCalling(ghost now: int, ghost expired: seq<Entry>)
      modifies this`cancelingTimers, this`callingExpiredTimers, this`phase, this`batchNo
      ensures callingExpiredTimers && phase == Calling(now, expired, 0)
      ensures cancelingTimers == {} && batchNo == old(batchNo) + 1
    {
      cancelingTimers, callingExpiredTimers := {}, true;
      phase, batchNo := Calling(now, expired, 0), batchNo + 1;
    }

    /** `handleRead`, with everything the callbacks of the batch do. */
    method HandleRead(script: Script)
      requires Valid() && phase.Idle?
      modifies this
      ensures Valid() && View() == AfterHandleRead(old(View()), script, |Sorted(Expired(old(timers), old(clock)))|)
    {
      hide InvWith, Next;
      ghost var start := View();
      var now := clock;
      var expired := BeginBatch(now);
      var i := 0;
      while i < |expired|
        invariant i <= |expired| && Valid() && phase == Calling(now, expired, i)
        invariant View() == AfterCallbacks(start, script, i)
      {
        RunTimer(expired[i]);
        PerformAll(script(i));
        i := i + 1;
      }
      EndCallbacks(expired, now);
      Reset(expired, now);
    }

    method EndCallbacks(ghost expired: seq<Entry>, ghost now: int)
      requires Valid() && phase == Calling(now, expired, |expired|)
      modifies this`callingExpiredTimers, this`phase
      ensures Valid() && View() == Next(old(View()), Event.EndCallbacks) && phase == Resetting(now, expired)
    {
      StepKeepsInv(View(), Event.EndCallbacks);
      callingExpiredTimers := false;
      phase := Resetting(now, expired);
    }
  }

  lemma PendingIsLive(s: State)
    requires Inv(s) && s.pending != []
    ensures s.pending[0].AddInLoop? ==> s.pending[0].addr in s.heap && s.pending[0].addr != 0
  {
    if s.pending[0].AddInLoop? {
      assert InPending(s.pending, s.pending[0].addr);
    }
  }

  /** The first entry of the set is the first of those due. */
  lemma TakeFirst(heap: Heap, timers: set<Entry>, active: set<TimerId>, now: int)
    requires timers != {} && First(timers).when <= now && IndexesAgree(heap, timers, active)
    ensures var e := First(timers);
            var rest := timers - {e};
            && Sorted(Expired(timers, now)) == [e] + Sorted(Expired(rest, now))
            && rest - Expired(rest, now) == timers - Expired(timers, now)
            && (active - {IdOf(heap, e.addr)}) - Ids(heap, Expired(rest, now))
               == active - Ids(heap, Expired(timers, now))
            && IndexesAgree(heap, rest, active - {IdOf(heap, e.addr)})
  {
    var e := First(timers);
    var rest := timers - {e};
    var due := Expired(timers, now);
    FirstIsUnique(e, due);
    assert due - {e} == Expired(rest, now);
    assert Ids(heap, due) == Ids(heap, Expired(rest, now)) + {IdOf(heap, e.addr)};
    DequeueIndexes(heap, e.addr, timers, active);
  }

  lemma NothingDue(heap: Heap, timers: set<Entry>, now: int)
    requires timers == {} || now < First(timers).when
    ensures Expired(timers, now) == {} && Ids(heap, Expired(timers, now)) == {}
  {
  }
}
