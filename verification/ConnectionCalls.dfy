/** What the callers of a connection asked for, read from the events alone, and what becomes
    of it: which messages are accepted, in which order, and what a shutdown, a forced close
    or a write lead to. */
module ConnectionCalls {
  import opened Buffers
  import opened ConnStates
  import opened Numbers
  import opened TcpConnections
  import Codec

  // ----- The calls -----

  /** The state that the calls so far put the connection in. */
  function StateOf(es: seq<Event>): ConnState {
    if es == [] then Connecting
    else
      var before := StateOf(es[..|es| - 1]);
      match es[|es| - 1]
      case Established => if before.Connecting? then Connected else before
      case Shutdown => if before.Connected? then Disconnecting else before
      case ShutdownFromThread => if before.Connected? then Disconnecting else before
      case ForceClose => if Up(before) then Disconnecting else before
      case Destroyed => if Up(before) then Disconnected else before
      case _ => before
  }

  lemma {:induction false} StateFollows(es: seq<Event>)
    ensures Run(NEW, es).state == StateOf(es)
  {
    if es != [] {
      StateFollows(es[..|es| - 1]);
      StateStep(Run(NEW, es[..|es| - 1]), es[|es| - 1]);
      hide Step;
    }
  }

  lemma StateStep(o: Out, e: Event)
    ensures Step(o, e).state ==
            match e
            case Established => if o.state.Connecting? then Connected else o.state
            case Shutdown => if o.state.Connected? then Disconnecting else o.state
            case ShutdownFromThread => if o.state.Connected? then Disconnecting else o.state
            case ForceClose => if Up(o.state) then Disconnecting else o.state
            case Destroyed => if Up(o.state) then Disconnected else o.state
            case _ => o.state
  {
    hide AfterSend, AfterWrite;
    if Possible(o, e) {
      match e {
        case Send(m, r) => if o.state.Connected? { SendMoves(o, m, r); }
        case SocketWritable(r) => WriteMoves(o, r);
        case RunFunctor(r) => if o.queue[0].SendLater? { SendMoves(Popped(o), o.queue[0].message, r); }
        case _ =>
      }
    }
  }

  /** The messages of the calls of `send` on the loop thread, made while connected. */
  function LoopSends(es: seq<Event>): seq<seq<byte>> {
    if es == [] then [] else LoopSends(es[..|es| - 1]) + SentOnLoop(StateOf(es[..|es| - 1]), es[|es| - 1])
  }

  function SentOnLoop(before: ConnState, e: Event): seq<seq<byte>> {
    if before.Connected? && e.Send? && (e.result.Took? ==> e.result.n <= |e.message|) then [e.message] else []
  }

  /** What the calls of `send` and `shutdown` on other threads, and of `forceClose` on any,
      leave for the loop. */
  function Asked(es: seq<Event>): seq<Functor> {
    if es == [] then [] else Asked(es[..|es| - 1]) + AskedBy(StateOf(es[..|es| - 1]), es[|es| - 1])
  }

  function AskedBy(before: ConnState, e: Event): seq<Functor> {
    match e
    case SendFromThread(m) => if before.Connected? then [SendLater(m)] else []
    case ShutdownFromThread => if before.Connected? then [ShutdownLater] else []
    case ForceClose => if Up(before) then [ForceCloseLater] else []
    case _ => []
  }

  /** How many of them the loop has run. */
  function Served(es: seq<Event>): nat {
    if es == [] then 0
    else
      var e := es[|es| - 1];
      Served(es[..|es| - 1]) + One(e.RunFunctor? && Possible(Run(NEW, es[..|es| - 1]), e))
  }

  /** The messages other threads have sent while connected. */
  function ThreadSends(es: seq<Event>): seq<seq<byte>> { Messages(Asked(es)) }

  // ----- The queue -----

  lemma QueueStep(o: Out, e: Event)
    ensures Step(o, e).queue ==
            if e.RunFunctor? && Possible(o, e) then o.queue[1..] else o.queue + AskedBy(o.state, e)
  {
    hide AfterSend, AfterWrite;
    if Possible(o, e) {
      match e {
        case Send(m, r) => if o.state.Connected? { SendMoves(o, m, r); }
        case SocketWritable(r) => WriteMoves(o, r);
        case RunFunctor(r) => if o.queue[0].SendLater? { SendMoves(Popped(o), o.queue[0].message, r); }
        case _ =>
      }
    }
  }

  lemma OneMoreAsked(es: seq<Event>)
    requires es != []
    ensures var before, e := es[..|es| - 1], es[|es| - 1];
            && Run(NEW, es) == Step(Run(NEW, before), e)
            && Asked(es) == Asked(before) + AskedBy(StateOf(before), e)
            && Served(es) == Served(before) + One(e.RunFunctor? && Possible(Run(NEW, before), e))
  {
  }

  lemma RunAsksNothing(state: ConnState, e: Event)
    requires e.RunFunctor?
    ensures AskedBy(state, e) == []
  {
  }

  /** Over every run, what the loop still has to run of the connection is what was asked of it
      and has not been run, in the order of the calls. */
  lemma {:induction false} QueueIsWhatIsAsked(es: seq<Event>)
    ensures Served(es) <= |Asked(es)| && Run(NEW, es).queue == Asked(es)[Served(es)..]
  {
    hide Step, Possible, Run, Asked, Served, StateOf, AskedBy;
    if es == [] {
      NothingCalled();
    } else {
      var o, e := Run(NEW, es[..|es| - 1]), es[|es| - 1];
      QueueIsWhatIsAsked(es[..|es| - 1]);
      StateFollows(es[..|es| - 1]);
      OneMoreAsked(es);
      QueueStep(o, e);
      if e.RunFunctor? && Possible(o, e) {
        RunTakesOne(o, e);
        RunAsksNothing(o.state, e);
        assert Asked(es) == Asked(es[..|es| - 1]);
      }
    }
  }

  lemma RunTakesOne(o: Out, e: Event)
    requires e.RunFunctor? && Possible(o, e)
    ensures o.queue != []
  {
  }

  // ----- The messages -----

  /** `c` is `a` and `b` merged, each in its own order. */
  predicate Interleaving<T(==)>(c: seq<T>, a: seq<T>, b: seq<T>) {
    if c == [] then a == [] && b == []
    else
      || (a != [] && a[|a| - 1] == c[|c| - 1] && Interleaving(c[..|c| - 1], a[..|a| - 1], b))
      || (b != [] && b[|b| - 1] == c[|c| - 1] && Interleaving(c[..|c| - 1], a, b[..|b| - 1]))
  }

  lemma InterleavingMore<T>(c: seq<T>, a: seq<T>, b: seq<T>, x: seq<T>)
    requires Interleaving(c, a, b) && |x| <= 1
    ensures Interleaving(c + x, a + x, b) && Interleaving(c + x, a, b + x)
  {
    if x == [] {
      assert c + x == c && a + x == a && b + x == b;
    } else {
      assert (c + x)[..|c|] == c && (a + x)[..|a|] == a && (b + x)[..|b|] == b;
    }
  }

  lemma OpenWhileConnected(o: Out)
    requires Inv(o) && o.state.Connected?
    ensures !o.writeShut
  {
  }

  lemma SentStep(o: Out, e: Event)
    requires Inv(o)
    ensures Step(o, e).sent ==
            if e.RunFunctor? && Possible(o, e) then o.sent + Messages([o.queue[0]]) else o.sent + SentOnLoop(o.state, e)
  {
    hide AfterSend, AfterWrite, Inv, Messages;
    assert o.sent + [] == o.sent;
    if o.state.Connected? {
      OpenWhileConnected(o);
    }
    if Possible(o, e) {
      match e {
        case Send(m, r) => if o.state.Connected? { SendMoves(o, m, r); }
        case SocketWritable(r) => WriteMoves(o, r);
        case RunFunctor(r) =>
          OneMessage(o.queue[0]);
          if o.queue[0].SendLater? {
            SendMoves(Popped(o), o.queue[0].message, r);
          }
        case _ =>
      }
    }
  }

  lemma OneMessage(f: Functor)
    ensures Messages([f]) == if f.SendLater? then [f.message] else []
  {
    assert [f][1..] == [];
  }

  lemma {:induction false} MessagesConcat(a: seq<Functor>, b: seq<Functor>)
    ensures Messages(a + b) == Messages(a) + Messages(b)
  {
    if a == [] {
      assert a + b == b;
    } else {
      assert (a + b)[1..] == a[1..] + b;
      MessagesConcat(a[1..], b);
    }
  }

  lemma NothingSent()
    ensures Interleaving(Run(NEW, []).sent, LoopSends([]), Messages(Asked([])[..Served([])]))
  {
  }

  /** What one more event adds to the calls. */
  lemma OneMore(es: seq<Event>)
    requires es != []
    ensures var before, e := es[..|es| - 1], es[|es| - 1];
            var o, n := Run(NEW, before), Served(before);
            && Run(NEW, es) == Step(o, e) && n <= |Asked(before)|
            && LoopSends(es) == LoopSends(before) + SentOnLoop(o.state, e)
            && (if e.RunFunctor? && Possible(o, e) then
                  && o.queue != [] && Served(es) == n + 1 <= |Asked(es)|
                  && Asked(es)[..n + 1] == Asked(before)[..n] + [o.queue[0]]
                else Served(es) == n <= |Asked(es)| && Asked(es)[..n] == Asked(before)[..n])
  {
    hide Step, Possible;
    var before, e := es[..|es| - 1], es[|es| - 1];
    var o, n := Run(NEW, before), Served(before);
    QueueIsWhatIsAsked(before);
    StateFollows(before);
    if e.RunFunctor? && Possible(o, e) {
      RunTakesOne(o, e);
      assert Asked(before)[n] == o.queue[0] && Asked(es) == Asked(before);
    }
  }

  /** Every `send` that finds the connection connected is accepted, exactly once: over every
      run, the messages accepted are those of the loop thread's calls and those of other
      threads' calls that the loop has reached, each in the order of the calls, and the rest
      of the latter are queued. */
  lemma {:induction false} SendsAreAccepted(es: seq<Event>)
    ensures var n := Served(es);
            && n <= |Asked(es)|
            && Interleaving(Run(NEW, es).sent, LoopSends(es), Messages(Asked(es)[..n]))
            && ThreadSends(es) == Messages(Asked(es)[..n]) + Messages(Run(NEW, es).queue)
  {
    hide Step, Possible, Inv, Interleaving, Messages, Run, Asked, Served, StateOf, LoopSends;
    QueueIsWhatIsAsked(es);
    assert Asked(es) == Asked(es)[..Served(es)] + Asked(es)[Served(es)..];
    MessagesConcat(Asked(es)[..Served(es)], Asked(es)[Served(es)..]);
    if es == [] {
      NothingSent();
    } else {
      var before, e := es[..|es| - 1], es[|es| - 1];
      var o := Run(NEW, before);
      SendsAreAccepted(before);
      RunKeepsInv(before);
      SentStep(o, e);
      OneMore(es);
      var thread := Messages(Asked(before)[..Served(before)]);
      if e.RunFunctor? && Possible(o, e) {
        OneMessage(o.queue[0]);
        MessagesConcat(Asked(before)[..Served(before)], [o.queue[0]]);
        InterleavingMore(o.sent, LoopSends(before), thread, Messages([o.queue[0]]));
        assert LoopSends(before) + [] == LoopSends(before);
      } else {
        InterleavingMore(o.sent, LoopSends(before), thread, SentOnLoop(o.state, e));
      }
    }
  }

  // ----- Half-close and close -----

  /** `shutdown` was called on the loop thread while connected. */
  predicate LoopShutdown(es: seq<Event>) {
    es != [] && (LoopShutdown(es[..|es| - 1]) || (es[|es| - 1].Shutdown? && StateOf(es[..|es| - 1]).Connected?))
  }

  /** A hang-up, an end of stream or the server ended the connection. */
  predicate Ended(es: seq<Event>) {
    es != [] && (Ended(es[..|es| - 1])
                 || ((es[|es| - 1].HandleClose? || es[|es| - 1].Destroyed?) && Up(StateOf(es[..|es| - 1]))))
  }

  lemma ClosingStep(o: Out, e: Event)
    requires Inv(o)
    ensures var p, runs := Step(o, e), e.RunFunctor? && Possible(o, e);
            && (p.promised <==> o.promised || (e.Shutdown? && o.state.Connected?)
                                || (runs && o.queue[0] == ShutdownLater))
            && (p.closed <==> o.closed || ((e.HandleClose? || e.Destroyed?) && Up(o.state))
                              || (runs && o.queue[0] == ForceCloseLater))
  {
    hide AfterSend, AfterWrite, Conserved, NotifiedTruly;
    if Possible(o, e) {
      match e {
        case Send(m, r) => if o.state.Connected? { SendMoves(o, m, r); }
        case SocketWritable(r) => WriteMoves(o, r);
        case RunFunctor(r) => if o.queue[0].SendLater? { SendMoves(Popped(o), o.queue[0].message, r); }
        case _ =>
      }
    }
  }

  /** Every shutdown and every forced close is carried out, and nothing else is: over every
      run, the half-close has been performed or is due at the next drain exactly if `shutdown`
      was called on the loop thread or the loop has reached one called elsewhere; and the
      connection has been closed exactly if it ended or the loop has reached a forced close. */
  lemma {:induction false} CallsAreCarriedOut(es: seq<Event>)
    ensures Served(es) <= |Asked(es)|
    ensures var o, run := Run(NEW, es), Asked(es)[..Served(es)];
            && (o.promised <==> LoopShutdown(es) || ShutdownLater in run)
            && (o.promised && !o.closed && o.output == [] ==> o.writeShut)
            && (o.closed <==> Ended(es) || ForceCloseLater in run)
  {
    hide Step, Possible, Run, Asked, Served, StateOf, Inv, LoopShutdown, Ended;
    QueueIsWhatIsAsked(es);
    RunKeepsInv(es);
    PromiseKept(Run(NEW, es));
    if es == [] {
      NothingCalled();
    } else {
      var before, e := es[..|es| - 1], es[|es| - 1];
      CallsAreCarriedOut(before);
      RunKeepsInv(before);
      StateFollows(before);
      ClosingStep(Run(NEW, before), e);
      OneMore(es);
      OneMoreEnd(es);
    }
  }

  lemma PromiseKept(o: Out)
    requires Inv(o)
    ensures o.promised && !o.closed && o.output == [] ==> o.writeShut
  {
  }

  lemma OneMoreEnd(es: seq<Event>)
    requires es != []
    ensures var before, e := es[..|es| - 1], es[|es| - 1];
            && (LoopShutdown(es) <==> LoopShutdown(before) || (e.Shutdown? && StateOf(before).Connected?))
            && (Ended(es) <==> Ended(before) || ((e.HandleClose? || e.Destroyed?) && Up(StateOf(before))))
  {
  }

  lemma NothingCalled()
    ensures Run(NEW, []) == NEW && Asked([]) == [] && Served([]) == 0 && !LoopShutdown([]) && !Ended([])
  {
  }

  // ----- The writes -----

  /** The step writes to the socket: `send` with nothing waiting, or a writable event with
      write interest; the bytes that the write is given. */
  function Offered(o: Out, e: Event): Offer {
    match e
    case Send(m, r) => if o.state.Connected? && !o.writing && o.output == [] then Write(m, r) else NoWrite
    case RunFunctor(r) =>
      if o.queue != [] && o.queue[0].SendLater? && !o.writing && o.output == [] then Write(o.queue[0].message, r)
      else NoWrite
    case SocketWritable(r) => if o.writing then Write(o.output, r) else NoWrite
    case _ => NoWrite
  }

  datatype Offer = NoWrite | Write(bytes: seq<byte>, result: Written)

  /** What the kernel took of it goes onto the wire, and the rest waits.  The write-complete
      callback is told exactly when the kernel took all; except that a writable event on
      which it takes nothing, even of nothing, tells nobody. */
  predicate Follows(o: Out, e: Event, p: Out, f: Offer) {
    if f.NoWrite? || f.result.Error? then p.wire == o.wire && p.notified == o.notified
    else
      && f.result.n <= |f.bytes|
      && p.wire == o.wire + f.bytes[..f.result.n]
      && p.output == f.bytes[f.result.n..]
      && p.notified == o.notified + if f.result.n == |f.bytes| && (e.SocketWritable? ==> f.bytes != [])
                                    then [|Accepted(p)|] else []
  }

  lemma SendWrites(o: Out, m: seq<byte>, r: Written, e: Event)
    requires CanTake(o, |m|, r) && !e.SocketWritable?
    ensures Follows(o, e, AfterSend(o, m, r), if !o.writing && o.output == [] then Write(m, r) else NoWrite)
  {
    var n := Direct(o, m, r);
    assert o.wire + [] == o.wire && [] + m[n..] == m[n..];
  }

  lemma WritableWrites(o: Out, r: Written)
    requires CanTake(o, |o.output|, r)
    ensures Follows(o, SocketWritable(r), AfterWrite(o, r), if o.writing then Write(o.output, r) else NoWrite)
  {
    assert o.wire + [] == o.wire && o.output[0..] == o.output;
  }

  /** In every reachable state, every step writes exactly what it should, the output follows
      what the kernel reports, and the write-complete callback is told exactly then. */
  lemma WritesAreExact(es: seq<Event>, e: Event)
    ensures var o := Run(NEW, es);
            Possible(o, e) ==> Follows(o, e, Step(o, e), Offered(o, e))
  {
    hide AfterSend, AfterWrite, Run, Follows;
    var o := Run(NEW, es);
    if Possible(o, e) {
      match e {
        case Send(m, r) => if o.state.Connected? { SendWrites(o, m, r, e); } else { WritesNothing(o, e); }
        case SocketWritable(r) => WritableWrites(o, r);
        case RunFunctor(r) =>
          if o.queue[0].SendLater? {
            FunctorWrites(o, r);
          } else {
            WritesNothing(o, e);
          }
        case _ => WritesNothing(o, e);
      }
    }
  }

  lemma FunctorWrites(o: Out, r: Written)
    requires Possible(o, RunFunctor(r)) && o.queue[0].SendLater?
    ensures Follows(o, RunFunctor(r), Step(o, RunFunctor(r)), Offered(o, RunFunctor(r)))
  {
    hide AfterSend;
    SendWrites(Popped(o), o.queue[0].message, r, RunFunctor(r));
  }

  lemma WritesNothing(o: Out, e: Event)
    requires Possible(o, e) && !e.SocketWritable?
    requires (e.Send? ==> !o.state.Connected?) && (e.RunFunctor? ==> !o.queue[0].SendLater?)
    ensures Follows(o, e, Step(o, e), Offered(o, e))
  {
  }

  /** A close, or the destruction, switches the channel off. */
  predicate Disables(o: Out, e: Event) {
    Up(o.state) && (e.HandleClose? || e.Destroyed?
                    || (e.RunFunctor? && o.queue != [] && o.queue[0] == ForceCloseLater))
  }

  /** Write interest goes on with bytes that have to wait, and off when they have been
      written or the channel is switched off. */
  predicate InterestFollows(o: Out, e: Event, p: Out) {
    if Disables(o, e) then !p.writing
    else p.writing <==> (if e.SocketWritable? then o.writing && (p.output != [] || o.output == [])
                         else o.writing || |p.output| > |o.output|)
  }

  lemma SendInterest(o: Out, m: seq<byte>, r: Written)
    requires CanTake(o, |m|, r)
    ensures var p := AfterSend(o, m, r); p.writing <==> o.writing || |p.output| > |o.output|
  {
    hide AfterDirect, Direct;
    DirectKeeps(o, m, r);
    assert |m[Direct(o, m, r)..]| == |m| - Direct(o, m, r);
  }

  lemma DirectKeeps(o: Out, m: seq<byte>, r: Written)
    requires CanTake(o, |m|, r)
    ensures AfterDirect(o, m, r).output == o.output && AfterDirect(o, m, r).writing == o.writing
  {
    hide Direct, Accepted;
  }

  lemma OtherInterest(o: Out, e: Event)
    requires Possible(o, e) && (e.Send? ==> !o.state.Connected?) && (e.RunFunctor? ==> !o.queue[0].SendLater?)
    ensures InterestFollows(o, e, Step(o, e))
  {
  }

  /** In every reachable state, also after a close: write interest changes exactly so. */
  lemma InterestExactlyWhen(es: seq<Event>, e: Event)
    ensures var o := Run(NEW, es); Possible(o, e) ==> InterestFollows(o, e, Step(o, e))
  {
    hide AfterSend, AfterWrite, Run;
    var o := Run(NEW, es);
    if Possible(o, e) {
      if e.Send? && o.state.Connected? {
        SendInterest(o, e.message, e.result);
      } else if e.RunFunctor? && o.queue[0].SendLater? {
        SendInterest(Popped(o), o.queue[0].message, e.result);
      } else {
        OtherInterest(o, e);
      }
    }
  }

  // ----- From one end to the other -----

  lemma {:induction false} UnmergeFrames(c: seq<seq<byte>>, a: seq<Codec.Message>, b: seq<Codec.Message>)
    returns (ms: seq<Codec.Message>)
    requires Interleaving(c, Frames(a), Frames(b))
    ensures c == Frames(ms) && Interleaving(ms, a, b)
  {
    hide Frames;
    SameLength(a);
    SameLength(b);
    if c == [] {
      ms := [];
      NoFrames();
    } else {
      var front, last := c[..|c| - 1], c[|c| - 1];
      assert c == front + [last];
      if a != [] && Frames(a)[|a| - 1] == last && Interleaving(front, Frames(a)[..|a| - 1], Frames(b)) {
        FramesFront(a);
        var rest := UnmergeFrames(front, a[..|a| - 1], b);
        ms := FramesMore(rest, a[..|a| - 1], b, a[|a| - 1]);
        assert a == a[..|a| - 1] + [a[|a| - 1]];
      } else {
        FramesFront(b);
        var rest := UnmergeFrames(front, a, b[..|b| - 1]);
        ms := FramesMore(rest, a, b[..|b| - 1], b[|b| - 1]);
        assert b == b[..|b| - 1] + [b[|b| - 1]];
      }
    }
  }

  lemma NoFrames()
    ensures Frames([]) == []
  {
  }

  lemma SameLength(ms: seq<Codec.Message>)
    ensures |Frames(ms)| == |ms|
  {
  }

  lemma FramesFront(a: seq<Codec.Message>)
    requires a != []
    ensures |Frames(a)| == |a| && Frames(a)[..|a| - 1] == Frames(a[..|a| - 1])
    ensures Frames(a)[|a| - 1] == Codec.Encode(a[|a| - 1])
  {
  }

  lemma FramesMore(ms: seq<Codec.Message>, a: seq<Codec.Message>, b: seq<Codec.Message>, m: Codec.Message)
    returns (more: seq<Codec.Message>)
    requires Interleaving(ms, a, b)
    ensures Frames(more) == Frames(ms) + [Codec.Encode(m)]
    ensures Interleaving(more, a + [m], b) && Interleaving(more, a, b + [m])
  {
    more := ms + [m];
    InterleavingMore(ms, a, b, [m]);
    assert Frames(more) == Frames(ms) + [Codec.Encode(m)];
  }

  lemma {:induction false} MergedFit(ms: seq<Codec.Message>, a: seq<Codec.Message>, b: seq<Codec.Message>)
    requires Interleaving(ms, a, b) && Codec.AllFit(a) && Codec.AllFit(b)
    ensures Codec.AllFit(ms)
  {
    if ms != [] {
      var front, last := ms[..|ms| - 1], ms[|ms| - 1];
      if a != [] && a[|a| - 1] == last && Interleaving(front, a[..|a| - 1], b) {
        MergedFit(front, a[..|a| - 1], b);
      } else {
        MergedFit(front, a, b[..|b| - 1]);
      }
    }
  }

  lemma PrefixOfFrames(b: seq<Codec.Message>, n: nat)
    requires n <= |b|
    ensures Frames(b)[..n] == Frames(b[..n])
  {
  }

  /** How many of the messages of other threads the loop has reached. */
  function Reached(es: seq<Event>): nat {
    |Messages(Asked(es)[..Min(Served(es), |Asked(es)|)])|
  }

  /** What was accepted of messages that were all encoded. */
  lemma AcceptedFrames(es: seq<Event>, loop: seq<Codec.Message>, thread: seq<Codec.Message>)
    returns (ms: seq<Codec.Message>)
    requires LoopSends(es) == Frames(loop) && ThreadSends(es) == Frames(thread)
    ensures Reached(es) <= |thread| && (Run(NEW, es).queue == [] ==> Reached(es) == |thread|)
    ensures Interleaving(ms, loop, thread[..Reached(es)]) && Run(NEW, es).sent == Frames(ms)
  {
    SendsAreAccepted(es);
    var taken := Messages(Asked(es)[..Served(es)]);
    assert |thread| == |ThreadSends(es)|;
    assert taken == ThreadSends(es)[..Reached(es)];
    PrefixOfFrames(thread, Reached(es));
    hide Run, Asked, Served, LoopSends, ThreadSends, Interleaving;
    ms := UnmergeFrames(Run(NEW, es).sent, loop, thread[..Reached(es)]);
    assert Run(NEW, es).queue == [] ==> Messages(Run(NEW, es).queue) == [];
  }

  /** Codec, output stream, functor queue and framing together.  Whatever messages the loop
      thread (`loop`) and other threads (`thread`) encode and send while the connection is
      connected, whatever the kernel does and however the peer reads the wire: the peer has
      been delivered a prefix of a merge of `loop` with the calls of other threads that the
      loop has reached; and a merge of them all, once the loop has run its queue, the output
      buffer is empty and the wire is read. */
  lemma RequestedEndToEnd(es: seq<Event>, loop: seq<Codec.Message>, thread: seq<Codec.Message>,
                          chunks: seq<seq<byte>>)
    requires Codec.AllFit(loop) && Codec.AllFit(thread)
    requires LoopSends(es) == Frames(loop) && ThreadSends(es) == Frames(thread)
    requires Codec.Flatten(chunks) <= Run(NEW, es).wire
    ensures var o := Run(NEW, es);
            var r := Codec.FeedAll(Codec.NOTHING_RECEIVED, chunks);
            && Reached(es) <= |thread| && (o.queue == [] ==> Reached(es) == |thread|)
            && exists ms ::
              && Interleaving(ms, loop, thread[..Reached(es)]) && !r.invalid && r.delivered <= ms
              && (o.output == [] && Codec.Flatten(chunks) == o.wire ==> r.delivered == ms && r.residue == [])
  {
    hide Run, LoopSends, ThreadSends, Interleaving, Reached, Codec.FeedAll, Codec.AllFit;
    var ms := AcceptedFrames(es, loop, thread);
    FitPrefix(thread, Reached(es));
    MergedFit(ms, loop, thread[..Reached(es)]);
    EndToEnd(es, ms, chunks);
  }

  lemma FitPrefix(ms: seq<Codec.Message>, n: nat)
    requires Codec.AllFit(ms) && n <= |ms|
    ensures Codec.AllFit(ms[..n])
  {
  }
}
