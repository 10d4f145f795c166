/** Every step of the timer queue keeps its invariants. */
module TimerProofs {
  import opened TimerModel

  // ----- A new timer: live, with no owner yet -----

  ghost predicate Extends(heap: Heap, bigger: Heap, a: Addr, nextSeq: nat) {
    a != 0 && a !in heap && a in bigger && bigger == heap[a := bigger[a]] && bigger[a].sequence == nextSeq
  }

  lemma NewIndexes(h: Heap, g: Heap, a: Addr, n: nat, timers: set<Entry>, active: set<TimerId>)
    requires Extends(h, g, a, n) && IndexesAgree(h, timers, active)
    ensures IndexesAgree(g, timers, active)
  {
  }

  lemma NewOwned(h: Heap, g: Heap, a: Addr, n: nat,
                 timers: set<Entry>, active: set<TimerId>, batch: seq<Entry>, pending: seq<Functor>)
    requires Extends(h, g, a, n) && IndexesAgree(h, timers, active) && Owned(h, timers, batch, pending, 0)
    ensures Owned(g, timers, batch, pending, a)
  {
    forall x | x in g
      ensures x == a || InQueue(g, timers, x) || InBatch(g, batch, x) || InPending(pending, x)
    {
      if x != a {
        assert g[x] == h[x];
        assert InQueue(h, timers, x) ==> InQueue(g, timers, x);
        assert InBatch(h, batch, x) ==> InBatch(g, batch, x);
      }
    }
    forall x | InQueue(g, timers, x)
      ensures x != a && !InBatch(g, batch, x) && !InPending(pending, x)
    {
      assert EntryOf(g, x).addr in h;
      assert InQueue(h, timers, x) && InBatch(g, batch, x) ==> InBatch(h, batch, x);
    }
    forall x | InBatch(g, batch, x)
      ensures x != a && !InPending(pending, x)
    {
      assert EntryOf(g, x).addr in h;
      assert InBatch(h, batch, x);
    }
  }

  lemma NewSequenced(h: Heap, g: Heap, a: Addr, n: nat, freed: seq<nat>)
    requires Extends(h, g, a, n) && Sequenced(h, freed, n)
    ensures Sequenced(g, freed, n + 1)
  {
    assert g[a].sequence == n;
    forall q: nat | q < n + 1 ensures q in freed || Live(g, q) {
      if q < n && q !in freed {
        assert Live(h, q);
        var x :| x in h && h[x].sequence == q;
        assert g[x].sequence == q;
      }
    }
  }

  lemma NewOrdered(h: Heap, g: Heap, a: Addr, n: nat, pending: seq<Functor>)
    requires Extends(h, g, a, n) && AddsBeforeCancels(h, pending, n)
    ensures AddsBeforeCancels(g, pending, n + 1)
    ensures AddsBeforeCancels(g, pending + [AddInLoop(a)], n + 1)
  {
    var p := pending + [AddInLoop(a)];
    assert forall f :: f in p && f.CancelInLoop? ==> f in pending;
    forall i, j | 0 <= i < j < |p| && p[i].CancelInLoop? && p[j].AddInLoop? && p[j].addr in g
      ensures IdOf(g, p[j].addr) != p[i].id
    {
      assert p[i] in pending;
    }
  }

  lemma NewSpaced(h: Heap, g: Heap, a: Addr, n: nat,
                  fires: seq<Fire>, timers: set<Entry>, pending: seq<Functor>, unrun: seq<Entry>)
    requires Extends(h, g, a, n) && FiresSpaced(fires, h, timers, pending, unrun)
    requires forall f :: f in fires ==> f.sequence < n
    ensures FiresSpaced(fires, g, timers, pending, unrun)
    ensures FiresSpaced(fires, g, timers, pending + [AddInLoop(a)], unrun)
  {
    forall f, x | f in fires && x in g && g[x].sequence == f.sequence
      ensures g[x].repeat == f.repeat && g[x].interval == f.interval
      ensures !InPending(pending + [AddInLoop(a)], x)
      ensures InQueue(g, timers, x) || InBatch(g, unrun, x) ==> Spaced(g[x], f)
    {
      assert x != a && g[x] == h[x];
      assert InQueue(g, timers, x) ==> InQueue(h, timers, x);
      assert InBatch(g, unrun, x) ==> InBatch(h, unrun, x);
    }
  }

  lemma NewTimerKeeps(s: State, a: Addr, w: int, r: bool, i: nat)
    requires Inv(s) && Allocatable(s, a)
    ensures InvWith(NewTimer(s, a, w, r, i), a)
    ensures Inv(ForeignAdded(s, a, w, r, i))
  {
    var n := NewTimer(s, a, w, r, i);
    NewIndexes(s.heap, n.heap, a, s.nextSeq, s.timers, s.active);
    NewOwned(s.heap, n.heap, a, s.nextSeq, s.timers, s.active, Batch(s.phase), s.pending);
    NewSequenced(s.heap, n.heap, a, s.nextSeq, s.freed);
    NewOrdered(s.heap, n.heap, a, s.nextSeq, s.pending);
    NewSpaced(s.heap, n.heap, a, s.nextSeq, s.fires, s.timers, s.pending, Unrun(s.phase));
    PushedOwned(n.heap, n.timers, Batch(n.phase), n.pending, a);
  }

  function ForeignAdded(s: State, a: Addr, w: int, r: bool, i: nat): State {
    var n := NewTimer(s, a, w, r, i);
    n.(pending := n.pending + [AddInLoop(a)])
  }

  // ----- The functor queue -----

  lemma PushedOwned(heap: Heap, timers: set<Entry>, batch: seq<Entry>, pending: seq<Functor>, a: Addr)
    requires Owned(heap, timers, batch, pending, a) && a != 0
    ensures Owned(heap, timers, batch, pending + [AddInLoop(a)], 0)
  {
    var p := pending + [AddInLoop(a)];
    assert forall x :: InPending(p, x) <==> x == a || InPending(pending, x);
    assert !InPending(pending, a);
  }

  lemma PushCancelKeeps(s: State, id: TimerId)
    requires Inv(s) && Issued(id, s.nextSeq)
    ensures Inv(s.(pending := s.pending + [CancelInLoop(id)]))
  {
    PushCancelOwned(s.heap, s.timers, Batch(s.phase), s.pending, id);
    PushCancelOrdered(s.heap, s.pending, s.nextSeq, id);
    assert forall x :: InPending(s.pending + [CancelInLoop(id)], x) <==> InPending(s.pending, x);
  }

  lemma PushCancelOwned(h: Heap, timers: set<Entry>, batch: seq<Entry>, pending: seq<Functor>, id: TimerId)
    requires Owned(h, timers, batch, pending, 0)
    ensures Owned(h, timers, batch, pending + [CancelInLoop(id)], 0)
  {
    assert forall x :: InPending(pending + [CancelInLoop(id)], x) <==> InPending(pending, x);
  }

  lemma PushCancelOrdered(h: Heap, pending: seq<Functor>, n: nat, id: TimerId)
    requires AddsBeforeCancels(h, pending, n) && Issued(id, n)
    ensures AddsBeforeCancels(h, pending + [CancelInLoop(id)], n)
  {
  }

  lemma PopOwned(heap: Heap, timers: set<Entry>, batch: seq<Entry>, pending: seq<Functor>)
    requires pending != [] && Owned(heap, timers, batch, pending, 0)
    ensures Owned(heap, timers, batch, pending[1..], if pending[0].AddInLoop? then pending[0].addr else 0)
  {
    var f, p := pending[0], pending[1..];
    assert pending == [f] + p;
    assert forall x :: InPending(pending, x) <==> f == AddInLoop(x) || InPending(p, x);
    if f.AddInLoop? {
      assert InPending(pending, f.addr) && f !in p;
    }
  }

  lemma PopOrdered(heap: Heap, pending: seq<Functor>, n: nat)
    requires pending != [] && AddsBeforeCancels(heap, pending, n)
    ensures AddsBeforeCancels(heap, pending[1..], n)
  {
  }

  lemma PopSpaced(fires: seq<Fire>, heap: Heap, timers: set<Entry>, pending: seq<Functor>, unrun: seq<Entry>)
    requires pending != [] && FiresSpaced(fires, heap, timers, pending, unrun)
    ensures FiresSpaced(fires, heap, timers, pending[1..], unrun)
  {
    assert forall x :: InPending(pending[1..], x) ==> InPending(pending, x);
  }

  lemma PopKeeps(s: State)
    requires Inv(s) && s.pending != []
    ensures InvWith(s.(pending := s.pending[1..]), if s.pending[0].AddInLoop? then s.pending[0].addr else 0)
  {
    PopOwned(s.heap, s.timers, Batch(s.phase), s.pending);
    PopOrdered(s.heap, s.pending, s.nextSeq);
    PopSpaced(s.fires, s.heap, s.timers, s.pending, Unrun(s.phase));
  }

  lemma RunAddKeeps(s: State, a: Addr)
    requires Inv(s) && s.pending != [] && s.pending[0] == AddInLoop(a) && a in s.heap
    ensures Inv(AddTimerInLoop(s.(pending := s.pending[1..]), a))
  {
    hide InvWith;
    PopKeeps(s);
    PendingHasNotRun(s, a);
    AddKeeps(s.(pending := s.pending[1..]), a);
  }

  lemma PendingHasNotRun(s: State, a: Addr)
    requires Inv(s) && AddInLoop(a) in s.pending
    ensures a != 0 && a in s.heap && forall f :: f in s.fires ==> f.sequence != s.heap[a].sequence
  {
    assert InPending(s.pending, a);
  }

  lemma RunCancelKeeps(s: State, id: TimerId)
    requires Inv(s) && s.pending != [] && s.pending[0] == CancelInLoop(id)
    ensures var popped := s.(pending := s.pending[1..]);
            Inv(popped) && Inv(CancelTimerInLoop(popped, id))
  {
    hide InvWith;
    PopKeeps(s);
    CancelKeeps(s.(pending := s.pending[1..]), id);
  }

  // ----- Into the queue -----

  lemma InsertIndexes(h: Heap, a: Addr, timers: set<Entry>, active: set<TimerId>)
    requires a in h && IndexesAgree(h, timers, active)
    ensures IndexesAgree(h, timers + {EntryOf(h, a)}, active + {IdOf(h, a)})
  {
  }

  lemma InsertOwned(h: Heap, a: Addr, timers: set<Entry>, batch: seq<Entry>, pending: seq<Functor>)
    requires a != 0 && Owned(h, timers, batch, pending, a)
    ensures Owned(h, timers + {EntryOf(h, a)}, batch, pending, 0)
  {
    var more := timers + {EntryOf(h, a)};
    assert forall x :: InQueue(h, more, x) <==> x == a || InQueue(h, timers, x);
  }

  lemma InsertSpaced(h: Heap, a: Addr, fires: seq<Fire>, timers: set<Entry>, pending: seq<Functor>, unrun: seq<Entry>)
    requires a in h && FiresSpaced(fires, h, timers, pending, unrun)
    requires forall f :: f in fires && f.sequence == h[a].sequence ==> Spaced(h[a], f)
    ensures FiresSpaced(fires, h, timers + {EntryOf(h, a)}, pending, unrun)
  {
    var more := timers + {EntryOf(h, a)};
    assert forall x :: InQueue(h, more, x) ==> x == a || InQueue(h, timers, x);
  }

  /** `addTimerInLoop` arms the timerfd exactly when it has to. */
  lemma ArmedInTime(s: State, a: Addr)
    requires a in s.heap && Deadlines(s.timers, s.phase.Idle?, s.fd, s.clock)
    ensures Deadlines(s.timers + {EntryOf(s.heap, a)}, s.phase.Idle?, AddTimerInLoop(s, a).fd, s.clock)
  {
    var w := s.heap[a].expiration;
    if !EarliestChanged(s.timers, w) {
      var e :| e in s.timers && e.when <= w;
    }
  }

  lemma AddKeeps(s: State, a: Addr)
    requires InvWith(s, a) && a != 0
    requires forall f :: f in s.fires ==> f.sequence != s.heap[a].sequence
    ensures Inv(AddTimerInLoop(s, a))
  {
    ArmedInTime(s, a);
    InsertIndexes(s.heap, a, s.timers, s.active);
    InsertOwned(s.heap, a, s.timers, Batch(s.phase), s.pending);
    InsertSpaced(s.heap, a, s.fires, s.timers, s.pending, Unrun(s.phase));
  }

  // ----- Out of the heap -----

  lemma DeleteIndexes(h: Heap, a: Addr, timers: set<Entry>, active: set<TimerId>)
    requires a in h && IndexesAgree(h, timers, active) && !InQueue(h, timers, a)
    ensures IndexesAgree(h - {a}, timers, active)
  {
  }

  lemma DeleteOwned(h: Heap, a: Addr, timers: set<Entry>, batch: seq<Entry>, pending: seq<Functor>)
    requires a != 0 && Owned(h, timers, batch, pending, a)
    ensures Owned(h - {a}, timers, batch, pending, 0)
  {
    var g := h - {a};
    assert forall x :: InQueue(g, timers, x) <==> InQueue(h, timers, x);
    assert forall x :: InBatch(g, batch, x) <==> InBatch(h, batch, x);
  }

  lemma DeleteSequenced(h: Heap, a: Addr, freed: seq<nat>, n: nat)
    requires a in h && Sequenced(h, freed, n)
    ensures Sequenced(h - {a}, freed + [h[a].sequence], n)
  {
    var g := h - {a};
    forall q: nat | q < n ensures q in freed + [h[a].sequence] || Live(g, q) {
      if q !in freed && q != h[a].sequence {
        assert Live(h, q);
        var x :| x in h && h[x].sequence == q;
        assert x in g && g[x].sequence == q;
      }
    }
  }

  lemma DeleteSpaced(h: Heap, a: Addr, fires: seq<Fire>, timers: set<Entry>, pending: seq<Functor>, unrun: seq<Entry>)
    requires a in h && FiresSpaced(fires, h, timers, pending, unrun)
    ensures FiresSpaced(fires, h - {a}, timers, pending, unrun)
  {
    var g := h - {a};
    assert forall x :: x in g ==> g[x] == h[x];
    assert forall x :: InQueue(g, timers, x) ==> InQueue(h, timers, x);
    assert forall x :: InBatch(g, unrun, x) ==> InBatch(h, unrun, x);
  }

  lemma DeleteKeeps(s: State, a: Addr)
    requires InvWith(s, a) && a != 0
    ensures Inv(Delete(s, a))
  {
    DeleteIndexes(s.heap, a, s.timers, s.active);
    DeleteOwned(s.heap, a, s.timers, Batch(s.phase), s.pending);
    DeleteSequenced(s.heap, a, s.freed, s.nextSeq);
    DeleteSpaced(s.heap, a, s.fires, s.timers, s.pending, Unrun(s.phase));
  }

  // ----- Cancel -----

  lemma DequeueIndexes(h: Heap, a: Addr, timers: set<Entry>, active: set<TimerId>)
    requires a in h && IndexesAgree(h, timers, active)
    ensures IndexesAgree(h, timers - {EntryOf(h, a)}, active - {IdOf(h, a)})
  {
  }

  lemma DequeueOwned(h: Heap, a: Addr, timers: set<Entry>, batch: seq<Entry>, pending: seq<Functor>)
    requires InQueue(h, timers, a) && Owned(h, timers, batch, pending, 0)
    ensures Owned(h, timers - {EntryOf(h, a)}, batch, pending, a) && a != 0
  {
    var fewer := timers - {EntryOf(h, a)};
    assert forall x :: InQueue(h, timers, x) <==> x == a || InQueue(h, fewer, x);
    assert !InQueue(h, fewer, a);
  }

  lemma DequeueSpaced(h: Heap, a: Addr, fires: seq<Fire>, timers: set<Entry>, pending: seq<Functor>, unrun: seq<Entry>)
    requires a in h && FiresSpaced(fires, h, timers, pending, unrun)
    ensures FiresSpaced(fires, h, timers - {EntryOf(h, a)}, pending, unrun)
  {
    var fewer := timers - {EntryOf(h, a)};
    assert forall x :: InQueue(h, fewer, x) ==> InQueue(h, timers, x);
  }

  lemma CancelKeeps(s: State, id: TimerId)
    requires Inv(s)
    ensures Inv(CancelTimerInLoop(s, id))
  {
    if id in s.active {
      var a := id.addr;
      var d := s.(timers := s.timers - {EntryOf(s.heap, a)}, active := s.active - {id});
      DequeueIndexes(s.heap, a, s.timers, s.active);
      DequeueOwned(s.heap, a, s.timers, Batch(s.phase), s.pending);
      DequeueSpaced(s.heap, a, s.fires, s.timers, s.pending, Unrun(s.phase));
      DeleteKeeps(d, a);
    }
  }

  lemma TickKeeps(s: State, d: nat)
    requires Inv(s)
    ensures Inv(Advance(s, d))
  {
  }

  // ----- handleRead -----

  lemma BeginIndexes(s: State)
    requires IndexesAgree(s.heap, s.timers, s.active)
    ensures IndexesAgree(s.heap, Begin(s).timers, Begin(s).active)
  {
    var b := Begin(s);
    forall id | id in b.active
      ensures id.addr in s.heap && id == IdOf(s.heap, id.addr) && EntryOf(s.heap, id.addr) in b.timers
    {
      assert EntryOf(s.heap, id.addr) in s.timers;
      assert id == IdOf(s.heap, EntryOf(s.heap, id.addr).addr);
    }
  }

  lemma BeginOwned(s: State)
    requires IndexesAgree(s.heap, s.timers, s.active) && Owned(s.heap, s.timers, [], s.pending, 0)
    ensures Owned(s.heap, Begin(s).timers, Sorted(Expired(s.timers, s.clock)), s.pending, 0)
  {
    SortedIsExact(Expired(s.timers, s.clock));
    var batch := Sorted(Expired(s.timers, s.clock));
    assert forall x ::
        InQueue(s.heap, s.timers, x) <==> InQueue(s.heap, Begin(s).timers, x) || InBatch(s.heap, batch, x);
    assert forall x :: !InBatch(s.heap, [], x);
  }

  lemma BeginSpaced(s: State)
    requires FiresSpaced(s.fires, s.heap, s.timers, s.pending, [])
    ensures FiresSpaced(s.fires, s.heap, Begin(s).timers, s.pending, Sorted(Expired(s.timers, s.clock)))
  {
    SortedIsExact(Expired(s.timers, s.clock));
    var batch := Sorted(Expired(s.timers, s.clock));
    assert forall x ::
        InQueue(s.heap, Begin(s).timers, x) || InBatch(s.heap, batch, x) ==> InQueue(s.heap, s.timers, x);
  }

  lemma BeginKeeps(s: State)
    requires Inv(s) && s.phase.Idle?
    ensures Inv(Begin(s))
  {
    SortedIsExact(Expired(s.timers, s.clock));
    BeginIndexes(s);
    BeginOwned(s);
    BeginSpaced(s);
    assert Unrun(Begin(s).phase) == Sorted(Expired(s.timers, s.clock));
  }

  lemma AscendingIsDistinct(r: seq<Entry>, k: nat)
    requires Ascending(r) && k < |r|
    ensures r[k] !in r[k + 1..]
  {
    assert forall j :: k < j < |r| ==> Before(r[k], r[j]);
  }

  lemma RunSpaced(s: State, e: Entry)
    requires Inv(s) && Enabled(s, RunNext) && e == s.phase.batch[s.phase.next] && e.addr in s.heap
    ensures var n := RunCallback(s); FiresSpaced(n.fires, n.heap, n.timers, n.pending, Unrun(n.phase))
  {
    var n := RunCallback(s);
    assert e in Batch(s.phase) && InBatch(s.heap, Batch(s.phase), e.addr);
    assert Unrun(s.phase) == [e] + Unrun(n.phase);
    AscendingIsDistinct(s.phase.batch, s.phase.next);
    RunningSpaced(s.heap, e.addr, s.fires, n.fires[|s.fires|], s.timers, s.pending, Unrun(n.phase));
  }

  lemma RunningSpaced(h: Heap, a: Addr, fires: seq<Fire>, f: Fire,
                      timers: set<Entry>, pending: seq<Functor>, rest: seq<Entry>)
    requires a in h && FiresSpaced(fires, h, timers, pending, [EntryOf(h, a)] + rest)
    requires f.sequence == h[a].sequence && f.repeat == h[a].repeat && f.interval == h[a].interval
    requires forall x :: x in h && x != a ==> h[x].sequence != h[a].sequence
    requires !InPending(pending, a) && !InQueue(h, timers, a) && !InBatch(h, rest, a)
    ensures FiresSpaced(fires + [f], h, timers, pending, rest)
  {
    assert forall x :: InBatch(h, rest, x) ==> InBatch(h, [EntryOf(h, a)] + rest, x);
  }

  lemma RunSound(s: State, e: Entry)
    requires Inv(s) && Enabled(s, RunNext) && e == s.phase.batch[s.phase.next] && e.addr in s.heap
    ensures var n := RunCallback(s); FiresSound(n.fires, n.phase, n.clock, n.nextSeq)
  {
    assert e in Batch(s.phase) && e in Unrun(s.phase);
    assert InBatch(s.heap, Unrun(s.phase), e.addr);
  }

  lemma RunKeeps(s: State)
    requires Inv(s) && Enabled(s, RunNext) && s.phase.batch[s.phase.next].addr in s.heap
    ensures Inv(RunCallback(s))
  {
    RunSpaced(s, s.phase.batch[s.phase.next]);
    RunSound(s, s.phase.batch[s.phase.next]);
  }

  lemma PopBatchOwned(h: Heap, timers: set<Entry>, batch: seq<Entry>, pending: seq<Functor>)
    requires batch != [] && Ascending(batch) && Owned(h, timers, batch, pending, 0)
    ensures Owned(h, timers, batch[1..], pending, batch[0].addr) && batch[0].addr != 0
  {
    var e, rest := batch[0], batch[1..];
    assert batch == [e] + rest;
    assert e in batch && InBatch(h, batch, e.addr);
    AscendingIsDistinct(batch, 0);
    assert forall x :: InBatch(h, batch, x) <==> x == e.addr || InBatch(h, rest, x);
  }

  /** Taking the front entry off the batch leaves its timer without an owner. */
  lemma PopBatchKeeps(s: State, a: Addr)
    requires Inv(s) && Enabled(s, ResetNext) && a == s.phase.batch[0].addr
    ensures InvWith(PopBatch(s), a) && a != 0
  {
    PopBatchOwned(s.heap, s.timers, s.phase.batch, s.pending);
  }

  lemma RestartOwned(h: Heap, a: Addr, t: Timer,
                     timers: set<Entry>, active: set<TimerId>, batch: seq<Entry>, pending: seq<Functor>)
    requires a != 0 && IndexesAgree(h, timers, active) && Owned(h, timers, batch, pending, a)
    requires t.sequence == h[a].sequence
    ensures IndexesAgree(h[a := t], timers, active) && Owned(h[a := t], timers, batch, pending, a)
  {
    var g := h[a := t];
    assert forall x :: InQueue(g, timers, x) <==> InQueue(h, timers, x);
    assert forall x :: InBatch(g, batch, x) <==> InBatch(h, batch, x);
  }

  lemma RestartSequenced(h: Heap, a: Addr, t: Timer, freed: seq<nat>, n: nat)
    requires a in h && t.sequence == h[a].sequence && Sequenced(h, freed, n)
    ensures Sequenced(h[a := t], freed, n)
  {
    var g := h[a := t];
    assert forall x :: x in h ==> g[x].sequence == h[x].sequence;
    forall q: nat | q < n ensures q in freed || Live(g, q) {
      if q !in freed {
        assert Live(h, q);
        var x :| x in h && h[x].sequence == q;
        assert g[x].sequence == q;
      }
    }
  }

  lemma RestartSpaced(h: Heap, a: Addr, t: Timer, fires: seq<Fire>, timers: set<Entry>, pending: seq<Functor>)
    requires a in h && t == h[a].(expiration := t.expiration)
    requires FiresSpaced(fires, h, timers, pending, [])
    requires !InQueue(h[a := t], timers, a)
    ensures FiresSpaced(fires, h[a := t], timers, pending, [])
  {
    var g := h[a := t];
    assert forall x :: x != a && InQueue(g, timers, x) ==> InQueue(h, timers, x);
  }

  /** Rescheduling a timer without an owner. */
  lemma RestartKeeps(s: State, a: Addr)
    requires InvWith(s, a) && a != 0 && s.phase.Resetting?
    ensures InvWith(Restart(s, a), a)
  {
    var t := Restart(s, a).heap[a];
    RestartOwned(s.heap, a, t, s.timers, s.active, Batch(s.phase), s.pending);
    RestartSequenced(s.heap, a, t, s.freed, s.nextSeq);
    RestartSpaced(s.heap, a, t, s.fires, s.timers, s.pending);
    RestartOrdered(s.heap, a, t, s.pending, s.nextSeq);
  }

  /** During a reset the timerfd stays timely for a timer whose expiration is valid. */
  lemma ValidDeadline(timers: set<Entry>, fd: TimerFd, clock: int, e: Entry)
    requires Deadlines(timers, false, fd, clock) && e.when > 0
    ensures Deadlines(timers + {e}, false, fd, clock)
  {
  }

  lemma ReinsertKeeps(s: State, a: Addr)
    requires InvWith(s, a) && a != 0 && s.phase.Resetting?
    requires s.heap[a].repeat && s.heap[a].expiration == s.phase.now + s.heap[a].interval
    ensures Inv(Insert(s, a))
  {
    InsertIndexes(s.heap, a, s.timers, s.active);
    InsertOwned(s.heap, a, s.timers, Batch(s.phase), s.pending);
    InsertSpaced(s.heap, a, s.fires, s.timers, s.pending, Unrun(s.phase));
    ValidDeadline(s.timers, s.fd, s.clock, EntryOf(s.heap, a));
  }

  lemma RestartOrdered(h: Heap, a: Addr, t: Timer, pending: seq<Functor>, n: nat)
    requires a in h && t.sequence == h[a].sequence && AddsBeforeCancels(h, pending, n)
    ensures AddsBeforeCancels(h[a := t], pending, n)
  {
    assert forall x :: x in h ==> IdOf(h[a := t], x) == IdOf(h, x);
  }

  lemma ResetKeeps(s: State)
    requires Inv(s) && Enabled(s, ResetNext) && s.phase.batch[0].addr in s.heap
    ensures Inv(ResetOne(s))
  {
    var a := s.phase.batch[0].addr;
    PopBatchKeeps(s, a);
    if s.heap[a].repeat && IdOf(s.heap, a) !in s.canceling {
      RestartKeeps(PopBatch(s), a);
      ReinsertKeeps(Restart(PopBatch(s), a), a);
    } else {
      DeleteKeeps(PopBatch(s), a);
    }
  }

  lemma FinishKeeps(s: State)
    requires Inv(s) && Enabled(s, FinishReset)
    ensures Inv(Finish(s))
  {
    FinishArms(s);
    assert Unrun(Finish(s).phase) == Unrun(s.phase) && Batch(Finish(s).phase) == Batch(s.phase);
  }

  /** Either `reset` arms the timerfd for the earliest timer, or that one is invalid and the
      timerfd was timely all along. */
  lemma FinishArms(s: State)
    requires Deadlines(s.timers, false, s.fd, s.clock)
    ensures Deadlines(s.timers, true, Finish(s).fd, s.clock)
  {
    if s.timers != {} {
      var first := First(s.timers);
      assert forall e :: e in s.timers ==> first.when <= e.when;
    }
  }

  lemma FunctorKeeps(s: State)
    requires Inv(s) && Enabled(s, RunFunctor)
    ensures Inv(Step(s, RunFunctor))
  {
    match s.pending[0] {
      case AddInLoop(a) =>
        assert InPending(s.pending, a);
        RunAddKeeps(s, a);
      case CancelInLoop(id) => RunCancelKeeps(s, id);
    }
  }

  lemma LoopAddKeeps(s: State, a: Addr, w: int, r: bool, i: nat)
    requires Inv(s) && Allocatable(s, a)
    ensures Inv(AddTimerInLoop(NewTimer(s, a, w, r, i), a))
  {
    NewTimerKeeps(s, a, w, r, i);
    AddKeeps(NewTimer(s, a, w, r, i), a);
  }

  lemma HandleReadKeeps(s: State, e: Event)
    requires Inv(s) && Enabled(s, e)
    requires e.BeginBatch? || e.RunNext? || e.EndCallbacks? || e.ResetNext? || e.FinishReset?
    ensures Inv(Step(s, e))
  {
    match e {
      case BeginBatch => BeginKeeps(s);
      case RunNext =>
        assert s.phase.batch[s.phase.next] in Batch(s.phase);
        RunKeeps(s);
      case EndCallbacks =>
      case ResetNext =>
        assert s.phase.batch[0] in Batch(s.phase);
        ResetKeeps(s);
      case FinishReset => FinishKeeps(s);
    }
  }

  lemma StepKeepsInv(s: State, e: Event)
    requires Inv(s)
    ensures Inv(Step(s, e))
  {
    if Enabled(s, e) {
      match e {
        case ForeignAdd(a, w, r, i) => NewTimerKeeps(s, a, w, r, i);
        case ForeignCancel(id) => PushCancelKeeps(s, id);
        case LoopAdd(a, w, r, i) => LoopAddKeeps(s, a, w, r, i);
        case LoopCancel(id) => CancelKeeps(s, id);
        case RunFunctor => FunctorKeeps(s);
        case Tick(d) => TickKeeps(s, d);
        case _ => HandleReadKeeps(s, e);
      }
    }
  }
}
