/** What is asked of the server's connections, read from the events, and what becomes of it. */
module LifecycleCalls {
  import opened ConnStates
  import opened Lifecycles
  import opened Numbers

  /** The loops that the accepted connections were given to, in order. */
  function Accepted(es: seq<Event>): seq<LoopId> {
    if es == [] then []
    else
      var e := es[|es| - 1];
      Accepted(es[..|es| - 1]) + if e.NewConnection? && !Run(es[..|es| - 1]).failed then [e.loop] else []
  }

  predicate IsUp(s: State, c: ConnId) { !s.failed && c in s.conns && Up(s.conns[c].state) }

  /** Loop `l` runs a functor of `forceCloseInLoop` for `c` next. */
  predicate RunsForcedClose(s: State, e: Event, c: ConnId) {
    && !s.failed && c in s.conns
    && e.RunTask? && Queue(s, e.loop) != [] && Queue(s, e.loop)[0] == ForceCloseInLoop(c)
  }

  /** The calls of `forceClose` made on a connection that was up. */
  function ForcedCloses(es: seq<Event>, c: ConnId): nat {
    if es == [] then 0
    else ForcedCloses(es[..|es| - 1], c) + One(es[|es| - 1] == ForceClose(c) && IsUp(Run(es[..|es| - 1]), c))
  }

  /** Those of them that the connection's loop has reached. */
  function ForcedClosesRun(es: seq<Event>, c: ConnId): nat {
    if es == [] then 0
    else ForcedClosesRun(es[..|es| - 1], c) + One(RunsForcedClose(Run(es[..|es| - 1]), es[|es| - 1], c))
  }

  /** The hang-ups and ends of stream of a connection that was up, and the forced closes that
      the loop reached while it was. */
  function Endings(es: seq<Event>, c: ConnId): nat {
    if es == [] then 0
    else
      var s, e := Run(es[..|es| - 1]), es[|es| - 1];
      Endings(es[..|es| - 1], c) + One(IsUp(s, c) && (e == CloseEvent(c) || RunsForcedClose(s, e, c)))
  }

  /** `shutdown` or `forceClose` was called in a state in which it has an effect. */
  predicate Left(es: seq<Event>, c: ConnId) {
    es != [] && (Left(es[..|es| - 1], c) || Leaves(Run(es[..|es| - 1]), es[|es| - 1], c))
  }

  predicate Leaves(s: State, e: Event, c: ConnId) {
    IsUp(s, c) && (e == ForceClose(c) || (e == Shutdown(c) && s.conns[c].state.Connected?))
  }

  // ----- One step -----

  lemma AcceptStep(s: State, e: Event)
    requires Books(s) && !s.failed
    ensures var r := Step(s, e);
            && r.nextConnId == s.nextConnId + One(e.NewConnection?)
            && (forall c :: c in r.conns <==> c in s.conns || (e.NewConnection? && c == s.nextConnId))
            && (forall c :: c in s.conns && c != s.nextConnId ==> r.conns[c].loop == s.conns[c].loop)
            && (e.NewConnection? ==> r.conns[s.nextConnId].loop == e.loop && r.conns[s.nextConnId].closes == 0)
  {
    hide WellPlaced, BookOf, Balanced;
  }

  lemma CloseStep(s: State, e: Event, c: ConnId)
    requires Books(s) && !s.failed && c in s.conns
    ensures var r := Step(s, e);
            c in r.conns
            && r.conns[c].closes
               == s.conns[c].closes + One(IsUp(s, c) && (e == CloseEvent(c) || RunsForcedClose(s, e, c)))
  {
    hide WellPlaced, BookOf, Balanced;
  }

  lemma LeaveStep(s: State, e: Event, c: ConnId)
    requires Books(s) && !s.failed && c in s.conns
    ensures var r := Step(s, e);
            c in r.conns && !r.failed ==>
              (r.conns[c].state.Disconnecting? <==>
                 Leaves(s, e, c) || (s.conns[c].state.Disconnecting? && r.conns[c].state != Disconnected))
  {
    hide WellPlaced, BookOf, Balanced;
  }

  /** The forced closes waiting for the loop of `c`. */
  function WaitingCloses(s: State, c: ConnId): nat
    requires c in s.conns
  {
    Waiting(s, s.conns[c].loop, ForceCloseInLoop(c))
  }

  lemma AskStep(s: State, c: ConnId, x: ConnId)
    requires Books(s) && !s.failed && c in s.conns && x in s.conns
    ensures var r := Step(s, ForceClose(x));
            c in r.conns && WaitingCloses(r, c) == WaitingCloses(s, c) + One(x == c && IsUp(s, c))
  {
    hide Waiting, Queue, Push, WellPlaced, BookOf, Balanced;
    if Up(s.conns[x].state) {
      var n := SetState(s, x, Disconnecting);
      PushCounts(n, s.conns[x].loop, ForceCloseInLoop(x));
      SameQueues(s, n);
      PushConns(n, s.conns[x].loop, ForceCloseInLoop(x));
    }
  }

  lemma SameQueues(s: State, n: State)
    requires n.queues == s.queues
    ensures forall l, t :: Waiting(n, l, t) == Waiting(s, l, t)
  {
  }

  lemma PushConns(s: State, l: LoopId, t: Task)
    ensures Push(s, l, t).conns == s.conns
  {
  }

  /** What running the functor `t` of loop `l` does to the forced closes that wait, once it is
      off the queue: nothing. */
  lemma RunQueues(s: State, l: LoopId, c: ConnId)
    requires Books(s) && !s.failed && Enabled(s, RunTask(l)) && c in s.conns
    ensures var r := Step(s, RunTask(l));
            c in r.conns && r.conns[c].loop == s.conns[c].loop
            && forall m :: Waiting(r, m, ForceCloseInLoop(c)) == Waiting(Pop(s, l), m, ForceCloseInLoop(c))
  {
    hide Waiting, Queue, Push, Pop, WellPlaced, BookOf, Balanced;
    PopConns(s, l);
    var n := Pop(s, l);
    match Queue(s, l)[0] {
      case Establish(x) => SameQueues(n, ConnEstablished(n, x));
      case Destroy(x) => SameQueues(n, ConnDestroyed(n, x));
      case Remove(x) => RemovalQueues(n, x, c);
      case ForceCloseInLoop(x) => if Up(n.conns[x].state) { CloseQueues(n, x, c); }
    }
  }

  lemma PopConns(s: State, l: LoopId)
    requires Queue(s, l) != []
    ensures Pop(s, l) == s.(queues := Pop(s, l).queues)
  {
  }

  lemma RemovalQueues(s: State, x: ConnId, c: ConnId)
    requires x in s.conns
    ensures RemoveInLoop(s, x).conns == s.conns
    ensures forall m :: Waiting(RemoveInLoop(s, x), m, ForceCloseInLoop(c)) == Waiting(s, m, ForceCloseInLoop(c))
  {
    hide Waiting, Queue, Push;
    var n := Record(Erased(s, x), Remove(x));
    SameQueues(s, n);
    SameQueues(s, s.(failed := true));
    PushCounts(n, s.conns[x].loop, Destroy(x));
    PushConns(n, s.conns[x].loop, Destroy(x));
  }

  lemma CloseQueues(s: State, x: ConnId, c: ConnId)
    requires x in s.conns && c in s.conns
    ensures c in HandleClose(s, x).conns && HandleClose(s, x).conns[c].loop == s.conns[c].loop
    ensures forall m :: Waiting(HandleClose(s, x), m, ForceCloseInLoop(c)) == Waiting(s, m, ForceCloseInLoop(c))
  {
    hide Waiting, Queue, Push, RemoveInLoop;
    SameQueues(s, s.(failed := true));
    var n := Closed(s, x);
    SameQueues(s, n);
    RemovalQueues(n, x, c);
    PushCounts(n, BASE, Remove(x));
    PushConns(n, BASE, Remove(x));
  }

  lemma AcceptQueues(s: State, l: LoopId, c: ConnId)
    requires Books(s) && !s.failed && c in s.conns
    ensures var r := Step(s, NewConnection(l));
            c in r.conns && r.conns[c].loop == s.conns[c].loop
            && forall m :: Waiting(r, m, ForceCloseInLoop(c)) == Waiting(s, m, ForceCloseInLoop(c))
  {
    hide Waiting, Queue, Push, WellPlaced, BookOf, Balanced;
    var n := Added(s, l);
    SameQueues(s, n);
    SameQueues(n, ConnEstablished(n, s.nextConnId));
    PushCounts(n, l, Establish(s.nextConnId));
    PushConns(n, l, Establish(s.nextConnId));
  }

  /** A functor waits on its own connection's loop. */
  lemma ForcedCloseIsHome(s: State, e: Event, c: ConnId)
    requires Books(s) && RunsForcedClose(s, e, c)
    ensures e.loop == s.conns[c].loop && Enabled(s, e)
  {
    hide BookOf, Balanced;
    assert Queue(s, e.loop)[0] in Queue(s, e.loop);
  }

  lemma QueueStep(s: State, e: Event, c: ConnId)
    requires Books(s) && !s.failed && c in s.conns
    ensures var r := Step(s, e);
            c in r.conns
            && WaitingCloses(r, c) + One(RunsForcedClose(s, e, c))
               == WaitingCloses(s, c) + One(e == ForceClose(c) && IsUp(s, c))
  {
    hide Waiting, Queue, Books, Step;
    if !Enabled(s, e) {
      Disabled(s, e, c);
    } else {
      match e {
        case NewConnection(l) => AcceptQueues(s, l, c);
        case Shutdown(x) => ShutdownQueues(s, x, c);
        case ForceClose(x) => AskStep(s, c, x);
        case CloseEvent(x) => EventQueues(s, x, c);
        case RunTask(l) =>
          RunQueues(s, l, c);
          PopCounts(s, l);
          if Queue(s, l)[0] == ForceCloseInLoop(c) {
            ForcedCloseIsHome(s, e, c);
          }
      }
    }
  }

  lemma Disabled(s: State, e: Event, c: ConnId)
    requires Books(s) && !s.failed && c in s.conns && !Enabled(s, e)
    ensures Step(s, e) == s && !RunsForcedClose(s, e, c) && !(e == ForceClose(c) && IsUp(s, c))
  {
  }

  lemma ShutdownQueues(s: State, x: ConnId, c: ConnId)
    requires !s.failed && c in s.conns && x in s.conns
    ensures var r := Step(s, Shutdown(x)); c in r.conns && WaitingCloses(r, c) == WaitingCloses(s, c)
  {
    hide Waiting;
    SameQueues(s, Step(s, Shutdown(x)));
  }

  lemma EventQueues(s: State, x: ConnId, c: ConnId)
    requires !s.failed && c in s.conns && Enabled(s, CloseEvent(x))
    ensures var r := Step(s, CloseEvent(x)); c in r.conns && WaitingCloses(r, c) == WaitingCloses(s, c)
  {
    hide Waiting, HandleClose;
    CloseQueues(s, x, c);
  }

  // ----- Every run -----

  /** The state before the last event, which had not failed either. */
  lemma Before(es: seq<Event>)
    requires es != [] && !Run(es).failed
    ensures var s := Run(es[..|es| - 1]);
            Run(es) == Step(s, es[|es| - 1]) && !s.failed && Books(s) && Books(Run(es))
  {
    RunKeepsInv(es);
    RunKeepsInv(es[..|es| - 1]);
  }

  lemma AtStart()
    ensures Run([]) == INIT && Accepted([]) == [] && INIT.conns == map[] && INIT.nextConnId == 1
  {
  }

  ghost predicate Numbered(s: State, loops: seq<LoopId>) {
    && s.nextConnId == |loops| + 1
    && (forall c :: c in s.conns <==> 1 <= c <= |loops|)
    && (forall c :: c in s.conns ==> 1 <= c <= |loops| && s.conns[c].loop == loops[c - 1])
  }

  lemma OneMoreAccepted(es: seq<Event>)
    requires es != [] && !Run(es[..|es| - 1]).failed
    ensures Accepted(es)
            == Accepted(es[..|es| - 1]) + if es[|es| - 1].NewConnection? then [es[|es| - 1].loop] else []
  {
  }

  lemma NumberedStep(s: State, e: Event, loops: seq<LoopId>)
    requires Books(s) && !s.failed && Numbered(s, loops)
    ensures Numbered(Step(s, e), loops + if e.NewConnection? then [e.loop] else [])
  {
    hide Step, Books;
    AcceptStep(s, e);
    if !e.NewConnection? {
      assert loops + [] == loops;
    }
  }

  /** Every accepted connection is filed under the next number, on the loop it was given to,
      and there are no others. */
  lemma {:induction false} ConnectionsAreAccepted(es: seq<Event>)
    requires !Run(es).failed
    ensures Numbered(Run(es), Accepted(es))
  {
    AtStart();
    if es != [] {
      Before(es);
      hide Run, Step, Books, Accepted, Numbered;
      ConnectionsAreAccepted(es[..|es| - 1]);
      OneMoreAccepted(es);
      NumberedStep(Run(es[..|es| - 1]), es[|es| - 1], Accepted(es[..|es| - 1]));
    }
  }

  /** What `c`'s books say of the calls. */
  ghost predicate AsCalled(es: seq<Event>, s: State, c: ConnId) {
    if c in s.conns then
      && s.conns[c].closes == Endings(es, c)
      && WaitingCloses(s, c) + ForcedClosesRun(es, c) == ForcedCloses(es, c)
      && (ForcedCloses(es, c) > 0 ==> !s.conns[c].state.Connecting?)
      && (ForcedClosesRun(es, c) > 0 ==> s.conns[c].closes > 0)
      && (s.conns[c].state.Disconnecting? <==> Left(es, c) && !s.conns[c].state.Disconnected?)
    else Endings(es, c) == 0 && ForcedClosesRun(es, c) == 0 && ForcedCloses(es, c) == 0 && !Left(es, c)
  }

  lemma OneMoreCall(es: seq<Event>, c: ConnId)
    requires es != []
    ensures var before, e := es[..|es| - 1], es[|es| - 1];
            var s := Run(before);
            && Endings(es, c)
               == Endings(before, c) + One(IsUp(s, c) && (e == CloseEvent(c) || RunsForcedClose(s, e, c)))
            && ForcedClosesRun(es, c) == ForcedClosesRun(before, c) + One(RunsForcedClose(s, e, c))
            && ForcedCloses(es, c) == ForcedCloses(before, c) + One(e == ForceClose(c) && IsUp(s, c))
            && (Left(es, c) <==> Left(before, c) || Leaves(s, e, c))
  {
  }

  /** A forced close that the loop reaches when the connection is not up finds it closed. */
  lemma ClosedBefore(s: State, c: ConnId)
    requires Books(s) && !s.failed && c in s.conns && s.conns[c].state.Disconnected?
    ensures s.conns[c].closes > 0
  {
    OpenBooks(s, c);
  }

  lemma NewIsUntouched(s: State, e: Event, c: ConnId)
    requires Books(s) && !s.failed && c !in s.conns && c in Step(s, e).conns
    ensures var r := Step(s, e);
            && r.conns[c].closes == 0 && WaitingCloses(r, c) == 0
            && !r.conns[c].state.Disconnecting? && !r.conns[c].state.Disconnected?
  {
    hide BookOf, Balanced;
    NoneWaits(s, c);
    var r := Step(s, e);
    forall l ensures Waiting(r, l, ForceCloseInLoop(c)) == 0 {
      CountNone(Queue(s, l), ForceCloseInLoop(c));
      CountNone(Queue(r, l), ForceCloseInLoop(c));
    }
  }

  lemma NoneWaits(s: State, c: ConnId)
    requires Books(s) && c !in s.conns
    ensures forall l :: ForceCloseInLoop(c) !in Queue(s, l)
  {
  }

  lemma StateStays(s: State, e: Event, c: ConnId)
    requires Books(s) && !s.failed && c in s.conns
    ensures var r := Step(s, e);
            && c in r.conns
            && (!s.conns[c].state.Connecting? ==> !r.conns[c].state.Connecting?)
            && (s.conns[c].state.Disconnected? ==> r.conns[c].state.Disconnected?)
  {
    hide WellPlaced, BookOf, Balanced;
  }

  lemma CalledStep(es: seq<Event>, c: ConnId)
    requires es != [] && !Run(es).failed && AsCalled(es[..|es| - 1], Run(es[..|es| - 1]), c)
    ensures AsCalled(es, Run(es), c)
  {
    hide Run, Step, Books, Waiting, Queue, Endings, ForcedCloses, ForcedClosesRun, Left;
    var s, e := Run(es[..|es| - 1]), es[|es| - 1];
    Before(es);
    OneMoreCall(es, c);
    if c in s.conns {
      CloseStep(s, e, c);
      LeaveStep(s, e, c);
      QueueStep(s, e, c);
      StateStays(s, e, c);
      if s.conns[c].state.Disconnected? {
        ClosedBefore(s, c);
      }
    } else if c in Run(es).conns {
      NewIsUntouched(s, e, c);
    }
  }

  lemma {:induction false} CallsAreNoted(es: seq<Event>, c: ConnId)
    requires !Run(es).failed
    ensures AsCalled(es, Run(es), c)
  {
    if es == [] {
      AtStart();
    } else {
      Before(es);
      CallsAreNoted(es[..|es| - 1], c);
      CalledStep(es, c);
    }
  }

  /** `handleClose` runs for a connection exactly once for every hang-up or end of stream, and
      for every forced close that its loop reaches while it is up. */
  lemma ClosesAreEndings(es: seq<Event>, c: ConnId)
    requires !Run(es).failed && c in Run(es).conns
    ensures Run(es).conns[c].closes == Endings(es, c)
  {
    CallsAreNoted(es, c);
  }

  /** A forced close happens: once `forceClose` is called on a connection that is up, either
      its loop still has to run the close, or `handleClose` has run. */
  lemma ForcedCloseHappens(es: seq<Event>, c: ConnId)
    requires !Run(es).failed && c in Run(es).conns
    ensures var s := Run(es);
            && WaitingCloses(s, c) + ForcedClosesRun(es, c) == ForcedCloses(es, c)
            && (ForcedCloses(es, c) > 0 ==>
                  ForceCloseInLoop(c) in Queue(s, s.conns[c].loop) || s.conns[c].closes > 0)
  {
    CallsAreNoted(es, c);
    CountNone(Queue(Run(es), Run(es).conns[c].loop), ForceCloseInLoop(c));
  }

  /** The state of a connection is where its calls and functors have left it. */
  lemma StateFollowsCalls(es: seq<Event>, c: ConnId)
    requires !Run(es).failed && c in Run(es).conns
    ensures var s := Run(es);
            s.conns[c].state == if Done(s, Establish(c)) == 0 then Connecting
                                else if Done(s, Destroy(c)) > 0 then Disconnected
                                else if Left(es, c) then Disconnecting
                                else Connected
  {
    CallsAreNoted(es, c);
    EachAtMostOnce(es, c);
  }
}
