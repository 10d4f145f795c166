/** The sending side of a connection (TcpConnection.cpp): the output buffer, the write
    interest, half-close and forced close; what other threads ask for reaches it through
    its loop's functor queue. */
module TcpConnections {
  import opened Buffers
  import opened ConnStates
  import opened Numbers
  import Codec

  /** Result of `write` on the socket: an error, or how many bytes the kernel took. */
  datatype Written = Error | Took(n: nat)

  /** The connection's functors in its loop's queue. */
  datatype Functor = SendLater(message: seq<byte>) | ShutdownLater | ForceCloseLater

  /** What the connection has to do with its surroundings: whether its channel reads and is
      registered with the poller, the states reported to the connection callback, and how
      often the close callback was called. */
  datatype Links = Links(reading: bool, registered: bool, reports: seq<ConnState>, closeCalls: nat)

  /** The connection as seen from outside its buffer; `queue` is what its loop still has to
      run of it.  `sent` and `wire` are history: the messages `sendInLoop` accepted, and the
      bytes the kernel took.  `promised` says that `shutdownInLoop` has been called for a
      `shutdown`, `closed` that a close or the destruction has disabled the channel;
      `notified` records `|accepted|` at each write-complete notification. */
  datatype Out = Out(
    state: ConnState,
    writing: bool,
    output: seq<byte>,
    queue: seq<Functor>,
    sent: seq<seq<byte>>,
    wire: seq<byte>,
    writeShut: bool,
    promised: bool,
    closed: bool,
    notified: seq<nat>,
    links: Links)

  const NO_LINKS: Links := Links(false, false, [], 0)

  const NEW: Out := Out(Connecting, false, [], [], [], [], false, false, false, [], NO_LINKS)

  function Concat(ms: seq<seq<byte>>): seq<byte> {
    if ms == [] then [] else Concat(ms[..|ms| - 1]) + ms[|ms| - 1]
  }

  function Accepted(o: Out): seq<byte> { Concat(o.sent) }

  /** `Send` and `Shutdown` are the calls on the loop thread.  A call from another thread
      tests the state at once and queues the rest, which `RunFunctor` runs without testing it
      again; `result` is what a `write` in it reports. */
  datatype Event =
    | Established
    | Send(message: seq<byte>, result: Written)
    | SendFromThread(message: seq<byte>)
    | SocketWritable(result: Written)
    | Shutdown
    | ShutdownFromThread
    | ForceClose
    | RunFunctor(result: Written)
    | HandleClose
    | Destroyed

  /** The documented range of `write` of `len` bytes; after `shutdown(SHUT_WR)` it fails. */
  predicate CanTake(o: Out, len: nat, r: Written) { r.Took? ==> r.n <= len && (o.writeShut ==> r.n == 0) }

  /** What can happen: results in their range, and the state assertions of the source. */
  predicate Possible(o: Out, e: Event) {
    match e
    case Established => o.state.Connecting?
    case Send(m, r) => CanTake(o, |m|, r)
    case SocketWritable(r) => CanTake(o, |o.output|, r)
    case RunFunctor(r) => o.queue != [] && (o.queue[0].SendLater? ==> CanTake(o, |o.queue[0].message|, r))
    case HandleClose => Up(o.state)
    case Destroyed => Up(o.state)
    case _ => true
  }

  function Notify(o: Out): Out { o.(notified := o.notified + [|Accepted(o)|]) }

  /** `update`: the poller files the channel again if it does not have it. */
  function Updated(l: Links): Links { l.(registered := true) }

  /** How much of a message `sendInLoop` gets rid of by writing directly. */
  function Direct(o: Out, m: seq<byte>, r: Written): (n: nat)
    requires CanTake(o, |m|, r)
    ensures n <= |m|
  {
    if !o.writing && o.output == [] && r.Took? then r.n else 0
  }

  function AfterDirect(o: Out, m: seq<byte>, r: Written): Out
    requires CanTake(o, |m|, r)
  {
    var n := Direct(o, m, r);
    var taken := o.(sent := o.sent + [m], wire := o.wire + m[..n]);
    if !o.writing && o.output == [] && r.Took? && n == |m| then Notify(taken) else taken
  }

  /** `sendInLoop`, which tests no state. */
  function AfterSend(o: Out, m: seq<byte>, r: Written): Out
    requires CanTake(o, |m|, r)
  {
    var n := Direct(o, m, r);
    var told := AfterDirect(o, m, r);
    if n < |m| then
      told.(output := o.output + m[n..], writing := true, links := if o.writing then o.links else Updated(o.links))
    else told
  }

  function AfterShutdown(o: Out): Out {
    if !o.writing then o.(writeShut := true) else o
  }

  function AfterWrite(o: Out, r: Written): Out
    requires CanTake(o, |o.output|, r)
  {
    if !o.writing || r.Error? || r.n == 0 then o
    else
      var moved := o.(wire := o.wire + o.output[..r.n], output := o.output[r.n..]);
      if moved.output != [] then moved
      else
        var told := Notify(moved.(writing := false, links := Updated(o.links)));
        if o.state.Disconnecting? then AfterShutdown(told) else told
  }

  function AfterEstablished(o: Out): Out {
    o.(state := Connected, links := Updated(o.links).(reading := true, reports := o.links.reports + [Connected]))
  }

  /** `handleClose`: the state stays as it is. */
  function AfterClose(o: Out): Out {
    o.(writing := false, closed := true,
       links := Updated(o.links).(reading := false, closeCalls := o.links.closeCalls + 1))
  }

  function AfterDestroyed(o: Out): Out {
    o.(state := Disconnected, writing := false, closed := true,
       links := o.links.(reading := false, registered := false, reports := o.links.reports + [Disconnected]))
  }

  function Popped(o: Out): Out
    requires o.queue != []
  {
    o.(queue := o.queue[1..])
  }

  function Queued(o: Out, f: Functor): Out { o.(queue := o.queue + [f]) }

  function AfterFunctor(o: Out, r: Written): Out
    requires Possible(o, RunFunctor(r))
  {
    match o.queue[0]
    case SendLater(m) => AfterSend(Popped(o), m, r)
    case ShutdownLater => AfterShutdown(Popped(o).(promised := true))
    case ForceCloseLater => if Up(o.state) then AfterClose(Popped(o)) else Popped(o)
  }

  /** An event that is not possible leaves the connection alone. */
  function Step(o: Out, e: Event): Out {
    if !Possible(o, e) then o
    else
      match e
      case Established => AfterEstablished(o)
      case Send(m, r) => if o.state.Connected? then AfterSend(o, m, r) else o
      case SendFromThread(m) => if o.state.Connected? then Queued(o, SendLater(m)) else o
      case SocketWritable(r) => AfterWrite(o, r)
      case Shutdown =>
        if o.state.Connected? then AfterShutdown(o.(state := Disconnecting, promised := true)) else o
      case ShutdownFromThread =>
        if o.state.Connected? then Queued(o.(state := Disconnecting), ShutdownLater) else o
      case ForceClose =>
        if Up(o.state) then Queued(o.(state := Disconnecting), ForceCloseLater) else o
      case RunFunctor(r) => AfterFunctor(o, r)
      case HandleClose => AfterClose(o)
      case Destroyed => AfterDestroyed(o)
  }

  function Run(o: Out, es: seq<Event>): Out {
    if es == [] then o else Step(Run(o, es[..|es| - 1]), es[|es| - 1])
  }

  lemma ConcatSnoc(ms: seq<seq<byte>>, m: seq<byte>)
    ensures Concat(ms + [m]) == Concat(ms) + m
  {
    assert (ms + [m])[..|ms|] == ms;
  }

  lemma RunOn(o: Out, es: seq<Event>, e: Event)
    ensures Run(o, []) == o && Run(o, es + [e]) == Step(Run(o, es), e)
  {
    assert (es + [e])[..|es|] == es;
  }

  lemma {:induction false} RunConcat(o: Out, a: seq<Event>, b: seq<Event>)
    ensures Run(o, a + b) == Run(Run(o, a), b)
  {
    hide Step;
    if b == [] {
      assert a + b == a;
    } else {
      RunConcat(o, a, b[..|b| - 1]);
      assert (a + b)[..|a + b| - 1] == a + b[..|b| - 1];
    }
  }

  // ----- What every step keeps -----

  /** Every accepted byte is on the wire or in the buffer, once and in order. */
  ghost predicate Conserved(o: Out) { o.wire + o.output == Accepted(o) }

  /** Until the channel is disabled, write interest is on exactly while bytes wait. */
  predicate InterestExact(o: Out) { !o.closed ==> (o.writing <==> o.output != []) }

  /** Sends are queued only while connected, so no functor of another kind is before one. */
  ghost predicate SendsLead(queue: seq<Functor>) {
    forall i, j :: 0 <= i < j < |queue| && queue[j].SendLater? ==> queue[i].SendLater?
  }

  ghost predicate OnlySends(queue: seq<Functor>) { forall f :: f in queue ==> f.SendLater? }

  /** Half-close belongs to a state past Connected, and is never forgotten after a drain. */
  ghost predicate HalfCloseOrdered(o: Out) {
    && (o.writeShut || o.promised ==> !o.state.Connecting? && !o.state.Connected?)
    && (!o.closed && o.promised && o.output == [] ==> o.writeShut)
    && (o.state.Disconnected? ==> o.closed)
    && (o.state.Connecting? ==> o.sent == [] && o.output == [] && o.queue == [] && !o.closed)
    && SendsLead(o.queue)
    && (o.state.Connected? ==> OnlySends(o.queue))
  }

  ghost predicate NotifiedTruly(o: Out) {
    forall i :: 0 <= i < |o.notified| ==> o.notified[i] <= |o.wire|
  }

  /** The connection callback has been told of every state exactly once; the channel reads
      from the establishment to the first close, and is registered while the connection is
      up and whenever it waits to write. */
  predicate LinksTrue(l: Links, state: ConnState, closed: bool, writing: bool) {
    && l.reports == (match state
                     case Connecting => []
                     case Disconnected => [Connected, Disconnected]
                     case _ => [Connected])
    && (l.reading <==> !closed && !state.Connecting?)
    && (closed <==> l.closeCalls > 0 || state.Disconnected?)
    && (Up(state) || writing ==> l.registered)
    && (state.Connecting? ==> !l.registered)
  }

  ghost predicate Inv(o: Out) {
    && Conserved(o) && InterestExact(o) && HalfCloseOrdered(o) && NotifiedTruly(o)
    && LinksTrue(o.links, o.state, o.closed, o.writing)
  }

  /** Splitting a message at `n` keeps the stream, if nothing waits in between. */
  lemma Rejoin(wire: seq<byte>, output: seq<byte>, m: seq<byte>, n: nat)
    requires n <= |m| && (n == 0 || output == [])
    ensures (wire + m[..n]) + (output + m[n..]) == (wire + output) + m
  {
  }

  lemma SendConserves(o: Out, m: seq<byte>, r: Written)
    requires Conserved(o) && CanTake(o, |m|, r)
    ensures Conserved(AfterSend(o, m, r))
  {
    var n := Direct(o, m, r);
    ConcatSnoc(o.sent, m);
    Rejoin(o.wire, o.output, m, n);
    if n == |m| {
      assert o.output + m[n..] == o.output;
    }
  }

  lemma SendKeepsOrder(o: Out, m: seq<byte>, r: Written)
    requires InterestExact(o) && HalfCloseOrdered(o) && CanTake(o, |m|, r) && !o.state.Connecting?
    requires LinksTrue(o.links, o.state, o.closed, o.writing)
    ensures var s := AfterSend(o, m, r);
            InterestExact(s) && HalfCloseOrdered(s) && LinksTrue(s.links, s.state, s.closed, s.writing)
  {
  }

  lemma SendNotifies(o: Out, m: seq<byte>, r: Written)
    requires Conserved(o) && NotifiedTruly(o) && CanTake(o, |m|, r)
    ensures NotifiedTruly(AfterSend(o, m, r))
  {
    ConcatSnoc(o.sent, m);
    assert |o.wire| + |o.output| == |Accepted(o)|;
  }

  lemma SendKeepsInv(o: Out, m: seq<byte>, r: Written)
    requires Inv(o) && CanTake(o, |m|, r) && !o.state.Connecting?
    ensures Inv(AfterSend(o, m, r))
  {
    SendConserves(o, m, r);
    SendKeepsOrder(o, m, r);
    SendNotifies(o, m, r);
    hide AfterSend, Conserved, InterestExact, HalfCloseOrdered, NotifiedTruly, LinksTrue;
  }

  lemma WriteKeepsInv(o: Out, r: Written)
    requires Inv(o) && CanTake(o, |o.output|, r)
    ensures Inv(AfterWrite(o, r))
  {
    if o.writing && r.Took? && r.n > 0 {
      assert o.output == o.output[..r.n] + o.output[r.n..];
      assert (o.wire + o.output[..r.n]) + o.output[r.n..] == o.wire + o.output;
    }
  }

  lemma PoppedKeepsInv(o: Out)
    requires Inv(o) && o.queue != []
    ensures Inv(Popped(o)) && !o.state.Connecting? && (o.state.Connected? ==> o.queue[0].SendLater?)
  {
    assert o.queue[0] in o.queue;
    assert forall f :: f in o.queue[1..] ==> f in o.queue;
  }

  lemma FunctorKeepsInv(o: Out, r: Written)
    requires Inv(o) && Possible(o, RunFunctor(r))
    ensures Inv(AfterFunctor(o, r))
  {
    PoppedKeepsInv(o);
    match o.queue[0] {
      case SendLater(m) =>
        hide Inv;
        SendKeepsInv(Popped(o), m, r);
      case ShutdownLater =>
      case ForceCloseLater =>
    }
  }

  lemma QueuedLeads(queue: seq<Functor>, f: Functor)
    requires SendsLead(queue) && (f.SendLater? ==> OnlySends(queue))
    ensures SendsLead(queue + [f]) && (f.SendLater? ==> OnlySends(queue + [f]))
  {
  }

  lemma OthersKeepInv(o: Out, e: Event)
    requires Inv(o) && !e.Send? && !e.SocketWritable? && !e.RunFunctor?
    ensures Inv(Step(o, e))
  {
    match e {
      case SendFromThread(m) => if o.state.Connected? { QueuedLeads(o.queue, SendLater(m)); }
      case ShutdownFromThread => QueuedLeads(o.queue, ShutdownLater);
      case ForceClose => QueuedLeads(o.queue, ForceCloseLater);
      case _ =>
    }
  }

  lemma StepKeepsInv(o: Out, e: Event)
    requires Inv(o)
    ensures Inv(Step(o, e))
  {
    hide Inv;
    if Possible(o, e) {
      match e {
        case Send(m, r) => if o.state.Connected? { SendKeepsInv(o, m, r); }
        case SocketWritable(r) => WriteKeepsInv(o, r);
        case RunFunctor(r) => FunctorKeepsInv(o, r);
        case _ => OthersKeepInv(o, e);
      }
    }
  }

  lemma {:induction false} InvFrom(o: Out, es: seq<Event>)
    requires Inv(o)
    ensures Inv(Run(o, es))
  {
    if es != [] {
      hide Inv, Step;
      InvFrom(o, es[..|es| - 1]);
      StepKeepsInv(Run(o, es[..|es| - 1]), es[|es| - 1]);
    }
  }

  /** Output stream conservation, the interest rule and the rest, over every run: any mix of
      sends from any thread and writable events, any short writes and errors, any shutdowns
      and closes, and functors that run when the connection is no longer connected. */
  lemma RunKeepsInv(es: seq<Event>)
    ensures Inv(Run(NEW, es))
  {
    InvFrom(NEW, es);
  }

  // ----- After the connection has left Connected -----

  predicate PastConnected(o: Out) { !o.state.Connected? && !o.state.Connecting? }

  /** The messages of the queued sends. */
  function Messages(queue: seq<Functor>): seq<seq<byte>> {
    if queue == [] then []
    else (if queue[0].SendLater? then [queue[0].message] else []) + Messages(queue[1..])
  }

  lemma {:induction false} MessagesSnoc(queue: seq<Functor>, f: Functor)
    requires !f.SendLater?
    ensures Messages(queue + [f]) == Messages(queue)
  {
    if queue == [] {
      assert queue + [f] == [f] && [f][1..] == [];
    } else {
      MessagesSnoc(queue[1..], f);
      assert (queue + [f])[1..] == queue[1..] + [f];
    }
  }

  /** What a send leaves alone, and how the histories grow. */
  lemma SendMoves(o: Out, m: seq<byte>, r: Written)
    requires CanTake(o, |m|, r)
    ensures var p := AfterSend(o, m, r);
            && p.sent == o.sent + [m] && o.wire <= p.wire
            && p.queue == o.queue && p.state == o.state && p.closed == o.closed && p.promised == o.promised
            && p.writeShut == o.writeShut && (o.writeShut ==> p.wire == o.wire)
  {
    hide Concat;
    Longer(o.wire, m[..Direct(o, m, r)]);
  }

  lemma Longer(a: seq<byte>, b: seq<byte>)
    ensures a <= a + b && (b == [] ==> a + b == a)
  {
  }

  lemma WriteMoves(o: Out, r: Written)
    requires CanTake(o, |o.output|, r)
    ensures var p := AfterWrite(o, r);
            && p.sent == o.sent && o.wire <= p.wire
            && p.queue == o.queue && p.state == o.state && p.closed == o.closed && p.promised == o.promised
            && (o.writeShut ==> p.writeShut && p.wire == o.wire)
  {
  }

  lemma MessagesFront(sent: seq<seq<byte>>, queue: seq<Functor>)
    requires queue != []
    ensures var more := if queue[0].SendLater? then sent + [queue[0].message] else sent;
            more + Messages(queue[1..]) == sent + Messages(queue)
  {
  }

  lemma PastFunctor(o: Out, r: Written)
    requires PastConnected(o) && Possible(o, RunFunctor(r))
    ensures var p := AfterFunctor(o, r);
            && PastConnected(p) && p.sent + Messages(p.queue) == o.sent + Messages(o.queue)
            && (o.closed ==> p.closed) && (o.promised ==> p.promised)
  {
    hide AfterSend, Messages;
    MessagesFront(o.sent, o.queue);
    if o.queue[0].SendLater? {
      SendMoves(Popped(o), o.queue[0].message, r);
    }
  }

  lemma PastStep(o: Out, e: Event)
    requires PastConnected(o)
    ensures var p := Step(o, e);
            && PastConnected(p) && p.sent + Messages(p.queue) == o.sent + Messages(o.queue)
            && (o.closed ==> p.closed) && (o.promised ==> p.promised)
  {
    hide AfterWrite, AfterFunctor, Messages;
    if Possible(o, e) {
      match e {
        case ForceClose => MessagesSnoc(o.queue, ForceCloseLater);
        case SocketWritable(r) => WriteMoves(o, r);
        case RunFunctor(r) => PastFunctor(o, r);
        case _ =>
      }
    }
  }

  /** Nothing is accepted after `shutdown` but what other threads had queued before it, and
      that in order: in every continuation, accepted and still queued messages together are
      what they were. */
  lemma {:induction false} OnlyQueuedIsAccepted(o: Out, es: seq<Event>)
    requires PastConnected(o)
    ensures var p := Run(o, es);
            && PastConnected(p) && p.sent + Messages(p.queue) == o.sent + Messages(o.queue)
            && (o.closed ==> p.closed) && (o.promised ==> p.promised)
  {
    if es != [] {
      hide Step, PastConnected, Messages;
      OnlyQueuedIsAccepted(o, es[..|es| - 1]);
      PastStep(Run(o, es[..|es| - 1]), es[|es| - 1]);
    }
  }

  /** Hence nothing at all, exactly if no send was queued, as far as the queue gets run. */
  lemma NothingAcceptedAfterShutdown(o: Out, es: seq<Event>)
    requires PastConnected(o)
    ensures Messages(o.queue) == [] ==> Run(o, es).sent == o.sent
    ensures Messages(Run(o, es).queue) == [] && Run(o, es).sent == o.sent ==> Messages(o.queue) == []
  {
    OnlyQueuedIsAccepted(o, es);
    var p := Run(o, es);
    if Messages(o.queue) == [] {
      assert o.sent + [] == o.sent;
      assert |p.sent| + |Messages(p.queue)| == |o.sent|;
      NoneIsAccepted(o, es);
    }
    if Messages(p.queue) == [] && p.sent == o.sent {
      assert |p.sent| + 0 == |o.sent| + |Messages(o.queue)|;
    }
  }

  lemma {:induction false} NoneIsAccepted(o: Out, es: seq<Event>)
    requires PastConnected(o) && Messages(o.queue) == []
    ensures Run(o, es).sent == o.sent && Messages(Run(o, es).queue) == [] && PastConnected(Run(o, es))
  {
    if es != [] {
      var m, e := Run(o, es[..|es| - 1]), es[|es| - 1];
      NoneIsAccepted(o, es[..|es| - 1]);
      PastStep(m, e);
      HistoryGrows(m, e);
      hide Step, PastConnected, Messages;
      assert o.sent + [] == o.sent;
    }
  }

  lemma HistoryGrows(o: Out, e: Event)
    ensures var p := Step(o, e);
            o.sent <= p.sent && o.wire <= p.wire && (o.writeShut ==> p.writeShut && p.wire == o.wire)
  {
    hide AfterSend, AfterWrite;
    if Possible(o, e) {
      match e {
        case Send(m, r) => SendMoves(o, m, r);
        case SocketWritable(r) => WriteMoves(o, r);
        case RunFunctor(r) =>
          if o.queue[0].SendLater? { SendMoves(Popped(o), o.queue[0].message, r); }
        case _ =>
      }
    }
  }

  // ----- Half-close -----

  /** No half-close loses a byte accepted before it: whichever step shuts the write side of a
      connection that has not been closed, every byte accepted by then is on the wire. */
  lemma HalfCloseAfterDrain(es: seq<Event>, e: Event)
    ensures var o, p := Run(NEW, es), Step(Run(NEW, es), e);
            !o.closed && !o.writeShut && p.writeShut ==> p.wire == Accepted(p) && p.output == []
  {
    RunKeepsInv(es);
    StepKeepsInv(Run(NEW, es), e);
    var o, p := Run(NEW, es), Step(Run(NEW, es), e);
    if !o.closed && !o.writeShut && p.writeShut {
      assert p.output == [];
      assert p.wire + [] == p.wire;
    }
  }

  /** After it nothing more is ever written. */
  lemma {:induction false} ShutIsTheEnd(o: Out, es: seq<Event>)
    requires o.writeShut
    ensures Run(o, es).writeShut && Run(o, es).wire == o.wire
  {
    if es != [] {
      ShutIsTheEnd(o, es[..|es| - 1]);
      HistoryGrows(Run(o, es[..|es| - 1]), es[|es| - 1]);
      hide Step;
    }
  }

  /** The write side was shut only after the bytes `before` were on the wire. */
  predicate ShutAfter(o: Out, before: seq<byte>) { !o.closed && o.writeShut ==> before <= o.wire }

  lemma ShutsWhenIdle(o: Out, e: Event)
    requires InterestExact(o)
    ensures var p := Step(o, e); !o.closed && !o.writeShut && p.writeShut ==> p.output == []
  {
  }

  lemma ShutAfterStep(o: Out, e: Event, before: seq<byte>)
    requires Inv(o) && PastConnected(o) && ShutAfter(o, before) && before <= Accepted(o)
    ensures ShutAfter(Step(o, e), before)
  {
    hide Step;
    HistoryGrows(o, e);
    PastStep(o, e);
    StepKeepsInv(o, e);
    ShutsWhenIdle(o, e);
    var p := Step(o, e);
    if !p.closed && p.writeShut && !o.writeShut {
      assert p.output == [] && p.wire + [] == p.wire;
      AcceptedGrows(o.sent, p.sent);
    }
  }

  lemma {:induction false} AcceptedGrows(a: seq<seq<byte>>, b: seq<seq<byte>>)
    requires a <= b
    ensures Concat(a) <= Concat(b)
  {
    if |a| < |b| {
      AcceptedGrows(a, b[..|b| - 1]);
    } else {
      assert a == b;
    }
  }

  lemma {:induction false} ShutAfterRun(o: Out, es: seq<Event>, before: seq<byte>)
    requires Inv(o) && PastConnected(o) && ShutAfter(o, before) && before <= Accepted(o)
    ensures ShutAfter(Run(o, es), before) && before <= Accepted(Run(o, es))
  {
    if es != [] {
      var m := Run(o, es[..|es| - 1]);
      ShutAfterRun(o, es[..|es| - 1], before);
      InvFrom(o, es[..|es| - 1]);
      OnlyQueuedIsAccepted(o, es[..|es| - 1]);
      hide Inv, Step, PastConnected, ShutAfter, Concat;
      ShutAfterStep(m, es[|es| - 1], before);
      HistoryGrows(m, es[|es| - 1]);
      AcceptedGrows(m.sent, Run(o, es).sent);
    }
  }

  /** Half-close drains first, over every run.  From the moment `shutdown` is called on the
      loop thread, and as long as no close has happened: the write side is not shut before
      every byte accepted before the call has been written, and it is shut whenever nothing
      waits.  If no send from another thread was queued at the call, it is shut exactly when
      every byte accepted before the call has been written. */
  lemma ShutdownDrainsFirst(before: seq<Event>, after: seq<Event>)
    requires Run(NEW, before).state.Connected?
    ensures var o := Run(NEW, before);
            var p := Run(Step(o, Shutdown), after);
            !p.closed ==>
              && (p.writeShut ==> Accepted(o) <= p.wire)
              && (p.output == [] ==> p.writeShut)
              && (o.queue == [] ==> (p.writeShut <==> p.wire == Accepted(o)))
  {
    hide Run, Step, Inv, Accepted, ShutAfter, PastConnected;
    var o := Run(NEW, before);
    var s := Step(o, Shutdown);
    var p := Run(s, after);
    RunKeepsInv(before);
    ShutStart(o);
    StepKeepsInv(o, Shutdown);
    InvFrom(s, after);
    OnlyQueuedIsAccepted(s, after);
    if !p.closed {
      OpenThroughout(s, after);
      ShutAfterRun(s, after, Accepted(o));
      ShutReaches(p, Accepted(o));
      ShutIsWhole(p);
      if o.queue == [] {
        NoneIsAccepted(s, after);
        SameAccepted(o, p);
      }
    }
  }

  lemma ShutStart(o: Out)
    requires Inv(o) && o.state.Connected?
    ensures var s := Step(o, Shutdown);
            && PastConnected(s) && s.promised && s.sent == o.sent && s.queue == o.queue
            && Accepted(o) <= Accepted(s) && ShutAfter(s, Accepted(o))
            && (o.queue == [] ==> Messages(s.queue) == [])
  {
    assert o.wire + [] == o.wire;
  }

  lemma ShutReaches(p: Out, before: seq<byte>)
    requires ShutAfter(p, before) && !p.closed
    ensures p.writeShut ==> before <= p.wire
  {
  }

  lemma SameAccepted(o: Out, p: Out)
    requires p.sent == o.sent
    ensures Accepted(p) == Accepted(o)
  {
  }

  lemma ShutIsWhole(p: Out)
    requires Inv(p) && !p.closed && p.promised
    ensures p.output == [] || p.wire == Accepted(p) ==> p.writeShut
    ensures p.writeShut && Accepted(p) <= p.wire ==> p.wire == Accepted(p)
  {
    assert |p.wire| + |p.output| == |Accepted(p)|;
  }

  lemma OpenThroughout(o: Out, es: seq<Event>)
    requires PastConnected(o) && !Run(o, es).closed
    ensures !o.closed
  {
    OnlyQueuedIsAccepted(o, es);
  }

  // ----- Exactly when a queued send is stranded -----

  /** Everything accepted so far gets onto the wire in some continuation. */
  ghost predicate Reaches(o: Out) { exists es :: Accepted(o) <= Run(o, es).wire }

  /** A queued send accepts its message, and what it cannot write waits. */
  lemma QueuedSendRuns(o: Out, r: Written)
    requires Inv(o) && Possible(o, RunFunctor(r)) && o.queue[0].SendLater? && o.queue[0].message != []
    ensures var s := Step(o, RunFunctor(r));
            && Inv(s) && s.sent == o.sent + [o.queue[0].message] && s.writeShut == o.writeShut
            && (o.writeShut ==> s.output != []) && (s.writing || s.output == [])
  {
    StepKeepsInv(o, RunFunctor(r));
    SendMoves(Popped(o), o.queue[0].message, r);
    SendLeaves(Popped(o), o.queue[0].message, r);
    hide AfterSend;
  }

  lemma SendLeaves(o: Out, m: seq<byte>, r: Written)
    requires CanTake(o, |m|, r) && m != []
    ensures var p := AfterSend(o, m, r);
            && (o.writeShut ==> p.output != [])
            && (p.writing || p.output == [])
  {
  }

  /** A queued send accepts its message whatever has become of the connection.  Its bytes can
      still reach the wire, in some continuation, exactly if the write side has not been shut
      by the time it runs. */
  lemma QueuedSendIsStrandedExactlyWhen(es: seq<Event>, r: Written)
    requires Possible(Run(NEW, es), RunFunctor(r))
    requires var f := Run(NEW, es).queue[0]; f.SendLater? && f.message != []
    ensures var o := Run(NEW, es);
            var s := Step(o, RunFunctor(r));
            s.sent == o.sent + [o.queue[0].message] && (Reaches(s) <==> !o.writeShut)
  {
    hide Run, Step, Inv;
    var o := Run(NEW, es);
    RunKeepsInv(es);
    QueuedSendRuns(o, r);
    if o.writeShut {
      NeverReaches(Step(o, RunFunctor(r)));
    } else {
      CanReach(Step(o, RunFunctor(r)));
    }
  }

  lemma NeverReaches(o: Out)
    requires Inv(o) && o.writeShut && o.output != []
    ensures !Reaches(o)
  {
    assert |o.wire| + |o.output| == |Accepted(o)|;
    forall es ensures !(Accepted(o) <= Run(o, es).wire) {
      ShutIsTheEnd(o, es);
    }
  }

  /** One write that takes everything. */
  lemma Drained(o: Out)
    requires Inv(o) && !o.writeShut && o.writing && o.output != []
    ensures Possible(o, SocketWritable(Took(|o.output|)))
    ensures var p := Step(o, SocketWritable(Took(|o.output|)));
            && p.output == [] && p.wire == Accepted(o) && p.sent == o.sent && p.queue == o.queue
            && p.closed == o.closed && p.state == o.state && (o.state.Disconnecting? ==> p.writeShut)
  {
    assert o.output[..|o.output|] == o.output && o.output[|o.output|..] == [];
  }

  lemma CanReach(o: Out)
    requires Inv(o) && !o.writeShut && (o.writing || o.output == [])
    ensures Reaches(o)
  {
    RunOn(o, [], SocketWritable(Took(|o.output|)));
    if o.output == [] {
      assert o.wire + [] == o.wire;
      assert Accepted(o) <= Run(o, []).wire;
    } else {
      Drained(o);
      assert Accepted(o) <= Run(o, [] + [SocketWritable(Took(|o.output|))]).wire;
    }
  }

  // ----- Exactly which shutdown strands queued sends -----

  /** How many queued sends have something to send. */
  function Sends(queue: seq<Functor>): nat {
    if queue == [] then 0
    else One(queue[0].SendLater? && queue[0].message != []) + Sends(queue[1..])
  }

  lemma {:induction false} SendsSnoc(queue: seq<Functor>, f: Functor)
    requires !f.SendLater?
    ensures Sends(queue + [f]) == Sends(queue)
  {
    if queue == [] {
      assert queue + [f] == [f] && [f][1..] == [];
    } else {
      SendsSnoc(queue[1..], f);
      assert (queue + [f])[1..] == queue[1..] + [f];
    }
  }

  lemma {:induction false} SendAmong(queue: seq<Functor>)
    requires Sends(queue) > 0 && SendsLead(queue)
    ensures queue[0].SendLater? && SendsLead(queue[1..])
  {
    SomeSend(queue);
  }

  lemma {:induction false} SomeSend(queue: seq<Functor>)
    requires Sends(queue) > 0
    ensures exists i :: 0 <= i < |queue| && queue[i].SendLater?
  {
    if !queue[0].SendLater? {
      SomeSend(queue[1..]);
      var i :| 0 <= i < |queue[1..]| && queue[1..][i].SendLater?;
      assert queue[i + 1].SendLater?;
    }
  }

  /** The write side of a connection that was never closed is shut over accepted bytes. */
  predicate Stranded(o: Out) { !o.closed && o.writeShut && o.wire != Accepted(o) }

  ghost predicate Strands(o: Out) { exists es :: Stranded(Run(o, es)) }

  lemma StrandsBack(o: Out, e: Event)
    requires Strands(Step(o, e))
    ensures Strands(o)
  {
    var es :| Stranded(Run(Step(o, e), es));
    RunOn(o, [], e);
    RunConcat(o, [] + [e], es);
    assert Stranded(Run(o, [] + [e] + es));
  }

  /** After a half-close, a queued send has nowhere to go. */
  lemma {:induction false} ShutStrands(o: Out)
    requires Inv(o) && !o.closed && o.writeShut && Sends(o.queue) > 0
    ensures Strands(o)
    decreases |o.queue|
  {
    SendAmong(o.queue);
    StepKeepsInv(o, RunFunctor(Error));
    FailedSend(o);
    var p := Step(o, RunFunctor(Error));
    hide Step, Inv, SendsLead;
    if p.output != [] {
      OutputStrands(p);
    } else {
      ShutStrands(p);
    }
    StrandsBack(o, RunFunctor(Error));
  }

  lemma OutputStrands(o: Out)
    requires Conserved(o) && !o.closed && o.writeShut && o.output != []
    ensures Strands(o)
  {
    assert |o.wire| + |o.output| == |Accepted(o)|;
    assert Stranded(Run(o, []));
  }

  /** A queued send at the front whose write fails leaves its bytes in the buffer. */
  lemma FailedSend(o: Out)
    requires o.queue != [] && o.queue[0].SendLater?
    ensures Possible(o, RunFunctor(Error))
    ensures var m, p := o.queue[0].message, Step(o, RunFunctor(Error));
            && p.queue == o.queue[1..] && p.closed == o.closed && p.writeShut == o.writeShut && p.state == o.state
            && p.output == o.output + m && p.writing == (o.writing || m != [])
            && Sends(o.queue) == One(m != []) + Sends(p.queue)
  {
    var m := o.queue[0].message;
    assert m[0..] == m && o.output + [] == o.output;
  }

  /** A loop that drains its buffer in state Disconnecting shuts the write side, though sends
      may still be queued. */
  lemma DrainStrands(o: Out)
    requires Inv(o) && !o.closed && o.state.Disconnecting? && !o.writeShut && o.writing && Sends(o.queue) > 0
    ensures Strands(o)
  {
    var e := SocketWritable(Took(|o.output|));
    assert o.output != [];
    Drained(o);
    StepKeepsInv(o, e);
    hide Step, Inv;
    ShutStrands(Step(o, e));
    StrandsBack(o, e);
  }

  /** Of two queued sends, the first can start the draining that strands the second. */
  lemma {:induction false} SecondStrands(o: Out)
    requires Inv(o) && !o.closed && o.state.Disconnecting? && !o.writeShut && !o.writing && Sends(o.queue) > 1
    ensures Strands(o)
    decreases |o.queue|
  {
    SendAmong(o.queue);
    StepKeepsInv(o, RunFunctor(Error));
    FailedSend(o);
    var p := Step(o, RunFunctor(Error));
    hide Step, Inv, SendsLead;
    if p.writing {
      DrainStrands(p);
    } else {
      SecondStrands(p);
    }
    StrandsBack(o, RunFunctor(Error));
  }

  /** Nothing with bytes is queued any more, and the write side is shut over none. */
  predicate Clear(o: Out) {
    PastConnected(o) && (o.closed || (Sends(o.queue) == 0 && (o.writeShut ==> o.output == [])))
  }

  /** The last queued send has bytes, and nothing can shut the write side before it runs. */
  predicate Waits(o: Out) {
    && o.state.Disconnecting? && !o.closed && !o.writing && o.output == [] && !o.writeShut
    && Sends(o.queue) == 1
  }

  lemma ClearStep(o: Out, e: Event)
    requires Inv(o) && Clear(o)
    ensures Clear(Step(o, e))
  {
    PastStep(o, e);
    if !o.closed && Possible(o, e) {
      match e {
        case ForceClose => SendsSnoc(o.queue, ForceCloseLater);
        case _ =>
      }
    }
  }

  lemma WaitsStep(o: Out, e: Event)
    requires Inv(o) && Waits(o)
    ensures Clear(Step(o, e)) || Waits(Step(o, e))
  {
    SendAmong(o.queue);
    if Possible(o, e) {
      match e {
        case ForceClose => SendsSnoc(o.queue, ForceCloseLater);
        case _ =>
      }
    }
  }

  lemma {:induction false} StaysSafe(o: Out, es: seq<Event>)
    requires Inv(o) && (Clear(o) || Waits(o))
    ensures Inv(Run(o, es)) && (Clear(Run(o, es)) || Waits(Run(o, es)))
  {
    if es != [] {
      hide Inv, Step, Clear, Waits;
      var m, e := Run(o, es[..|es| - 1]), es[|es| - 1];
      StaysSafe(o, es[..|es| - 1]);
      StepKeepsInv(m, e);
      if Clear(m) { ClearStep(m, e); } else { WaitsStep(m, e); }
    }
  }

  lemma SafeIsNotStranded(o: Out)
    requires Inv(o) && (Clear(o) || Waits(o))
    ensures !Stranded(o)
  {
    assert o.wire + [] == o.wire;
  }

  lemma SafeNeverStrands(o: Out)
    requires Inv(o) && (Clear(o) || Waits(o))
    ensures !Strands(o)
  {
    hide Inv, Step, Clear, Waits, Stranded;
    forall es ensures !Stranded(Run(o, es)) {
      StaysSafe(o, es);
      SafeIsNotStranded(Run(o, es));
    }
  }

  /** The state right after the call. */
  lemma CalledShutdown(o: Out, onLoop: bool)
    requires Inv(o) && o.state.Connected? && !o.closed
    ensures var s := Step(o, if onLoop then Shutdown else ShutdownFromThread);
            && Inv(s) && s.state.Disconnecting? && !s.closed && s.writing == o.writing && s.output == o.output
            && Sends(s.queue) == Sends(o.queue) && s.writeShut == (onLoop && !o.writing)
            && (o.writing <==> o.output != [])
  {
    StepKeepsInv(o, if onLoop then Shutdown else ShutdownFromThread);
    SendsSnoc(o.queue, ShutdownLater);
  }

  /** Exactly which `shutdown` of a connection that has not been closed can strand bytes that
      `send` took from other threads: on the loop thread, one made while such a send is
      queued; on another thread, one made while a send is queued behind bytes that wait, or
      while two are.  In particular a thread that sends and then shuts down may lose what it
      sent, because the loop shuts the write side as soon as it has drained its buffer. */
  lemma ShutdownStrandsExactlyWhen(es: seq<Event>, onLoop: bool)
    requires Run(NEW, es).state.Connected? && !Run(NEW, es).closed
    ensures var o := Run(NEW, es);
            Strands(Step(o, if onLoop then Shutdown else ShutdownFromThread))
            <==> Sends(o.queue) >= (if onLoop || o.writing then 1 else 2)
  {
    var o := Run(NEW, es);
    var s := Step(o, if onLoop then Shutdown else ShutdownFromThread);
    RunKeepsInv(es);
    CalledShutdown(o, onLoop);
    hide Run, Step, Inv, Strands, Sends;
    if Sends(o.queue) >= (if onLoop || o.writing then 1 else 2) {
      if s.writeShut {
        ShutStrands(s);
      } else if s.writing {
        DrainStrands(s);
      } else {
        SecondStrands(s);
      }
    } else {
      SafeNeverStrands(s);
    }
  }

  // ----- Exactly when a removed channel is registered again -----

  /** After the destruction the channel is out of the poller, and comes back exactly if a
      queued send with something to send is still to run: its `enableWriting` files it again. */
  lemma ComesBackExactlyWhen(es: seq<Event>)
    requires Run(NEW, es).state.Disconnected? && !Run(NEW, es).links.registered
    ensures var o := Run(NEW, es);
            (exists fs :: Run(o, fs).links.registered) <==> Sends(o.queue) > 0
  {
    var o := Run(NEW, es);
    RunKeepsInv(es);
    if Sends(o.queue) > 0 {
      SendBringsBack(o);
    } else {
      forall fs ensures !Run(o, fs).links.registered {
        StaysAway(o, fs);
      }
    }
  }

  lemma {:induction false} SendBringsBack(o: Out)
    requires Inv(o) && o.state.Disconnected? && !o.links.registered && Sends(o.queue) > 0
    ensures exists fs :: Run(o, fs).links.registered
    decreases |o.queue|
  {
    SendAmong(o.queue);
    StepKeepsInv(o, RunFunctor(Error));
    FailedSend(o);
    var p := Step(o, RunFunctor(Error));
    RunOn(o, [], RunFunctor(Error));
    if p.links.registered {
      assert Run(o, [] + [RunFunctor(Error)]).links.registered;
    } else {
      assert !p.writing;
      hide Step, Inv;
      SendBringsBack(p);
      var fs :| Run(p, fs).links.registered;
      RunConcat(o, [] + [RunFunctor(Error)], fs);
      assert Run(o, [] + [RunFunctor(Error)] + fs).links.registered;
    }
  }

  predicate Away(o: Out) { o.state.Disconnected? && !o.links.registered && !o.writing && Sends(o.queue) == 0 }

  lemma AwayStep(o: Out, e: Event)
    requires Away(o)
    ensures Away(Step(o, e))
  {
  }

  lemma {:induction false} StaysAway(o: Out, fs: seq<Event>)
    requires Inv(o) && o.state.Disconnected? && !o.links.registered && Sends(o.queue) == 0
    ensures Away(Run(o, fs)) && !Run(o, fs).links.registered
  {
    if fs != [] {
      StaysAway(o, fs[..|fs| - 1]);
      hide Step, Inv;
      AwayStep(Run(o, fs[..|fs| - 1]), fs[|fs| - 1]);
    }
  }

  // ----- Close and half-close -----

  /** The restriction to runs without a close is needed: `handleClose` leaves the state
      `Connected`, so a later `shutdown` shuts the write side over unwritten bytes. */
  lemma ShutdownAfterCloseDropsBytes()
    ensures var o := Run(NEW, [] + [Established] + [Send([7], Error)] + [HandleClose] + [Shutdown]);
            o.writeShut && o.wire == [] && Accepted(o) == [7]
  {
    var e1: seq<Event> := [] + [Established];
    var e2 := e1 + [Send([7], Error)];
    RunOn(NEW, [], Established);
    RunOn(NEW, e1, Send([7], Error));
    RunOn(NEW, e2, HandleClose);
    RunOn(NEW, e2 + [HandleClose], Shutdown);
    hide Run, Concat;
    ConcatSnoc([], [7]);
    ConcatEmpty();
    assert [] + [[7]] == [[7]] && [] + [7] == [7];
  }

  lemma ConcatEmpty()
    ensures Concat([]) == []
  {
  }

  /** Exactly which `shutdown` on the loop thread loses bytes at once: the one on a connection
      whose channel a close already disabled while bytes were waiting. */
  lemma ShutdownLosesExactlyWhen(es: seq<Event>)
    requires Run(NEW, es).state.Connected?
    ensures var o := Run(NEW, es);
            var p := Step(o, Shutdown);
            p.writeShut && p.wire != Accepted(p) <==> o.closed && !o.writing && o.output != []
  {
    RunKeepsInv(es);
    var o := Run(NEW, es);
    if o.output == [] {
      assert o.wire + [] == o.wire;
    } else {
      assert |o.wire| + |o.output| == |Accepted(o)|;
    }
  }

  // ----- From one end to the other -----

  function Frames(ms: seq<Codec.Message>): seq<seq<byte>> {
    seq(|ms|, i requires 0 <= i < |ms| => Codec.Encode(ms[i]))
  }

  lemma {:induction false} ConcatOfFrames(ms: seq<Codec.Message>)
    ensures Concat(Frames(ms)) == Codec.EncodeAll(ms)
  {
    if ms != [] {
      var front, last := ms[..|ms| - 1], ms[|ms| - 1];
      ConcatOfFrames(front);
      assert Frames(ms)[..|ms| - 1] == Frames(front);
      EncodeAllSnoc(front, last);
      assert front + [last] == ms;
    }
  }

  lemma {:induction false} EncodeAllSnoc(ms: seq<Codec.Message>, m: Codec.Message)
    ensures Codec.EncodeAll(ms + [m]) == Codec.EncodeAll(ms) + Codec.Encode(m)
  {
    if ms == [] {
      assert ms + [m] == [m] && [m][1..] == [];
    } else {
      EncodeAllSnoc(ms[1..], m);
      assert (ms + [m])[1..] == ms[1..] + [m];
      Codec.Assoc(Codec.Encode(ms[0]), Codec.EncodeAll(ms[1..]), Codec.Encode(m));
    }
  }

  /** Codec, output stream and framing together: if a connection only sends encoded
      messages, then whatever the kernel does on the way and however the peer reads the
      wire, the peer has been delivered a prefix of the messages; and all of them once
      the output buffer is empty and the wire is read. */
  lemma EndToEnd(es: seq<Event>, ms: seq<Codec.Message>, chunks: seq<seq<byte>>)
    requires Codec.AllFit(ms) && Run(NEW, es).sent == Frames(ms)
    requires Codec.Flatten(chunks) <= Run(NEW, es).wire
    ensures var o := Run(NEW, es);
            var r := Codec.FeedAll(Codec.NOTHING_RECEIVED, chunks);
            && !r.invalid && r.delivered <= ms
            && (o.output == [] && Codec.Flatten(chunks) == o.wire ==> r.delivered == ms && r.residue == [])
  {
    var o := Run(NEW, es);
    RunKeepsInv(es);
    ConcatOfFrames(ms);
    assert o.wire <= Codec.EncodeAll(ms);
    Codec.PrefixDelivered(ms, chunks);
    if o.output == [] && Codec.Flatten(chunks) == o.wire {
      assert o.wire + [] == o.wire;
      Codec.RoundTripExactly(ms, chunks);
    }
  }

  // ----- The class -----

  /** What `sendInLoop` needs of the output buffer. */
  predicate RoomFor(o: Out, l: Layout, growth: Growth, m: seq<byte>, r: Written)
    requires l.Ok() && CanTake(o, |m|, r)
  {
    var n := Direct(o, m, r);
    n < |m| ==> l.CanAppend(growth, |m| - n)
  }

  class TcpConnection {
    var state: ConnState
    var writing: bool
    const outputBuffer: Buffer
    var pending: seq<Functor>
    var writeShut: bool
    var reading: bool
    var registered: bool
    ghost var sent: seq<seq<byte>>
    ghost var wire: seq<byte>
    ghost var promised: bool
    ghost var closed: bool
    ghost var notified: seq<nat>
    ghost var reports: seq<ConnState>
    ghost var closeCalls: nat

    ghost predicate Valid()
      reads this, outputBuffer
    {
      outputBuffer.Valid()
    }

    ghost function View(): Out
      reads this, outputBuffer, outputBuffer.data
      requires Valid()
    {
      Out(state, writing, outputBuffer.Contents(), pending, sent, wire, writeShut, promised, closed, notified,
          Links(reading, registered, reports, closeCalls))
    }

    constructor (growth: Growth)
      ensures Valid() && View() == NEW
      ensures fresh(outputBuffer) && fresh(outputBuffer.data) && outputBuffer.growth == growth
    {
      state, writing := Connecting, false;
      outputBuffer := new Buffer(growth);
      pending, writeShut, reading, registered := [], false, false, false;
      sent, wire, promised, closed, notified := [], [], false, false, [];
      reports, closeCalls := [], 0;
    }

    /** The queued write-complete callback. */
    ghost method NotifyWriteComplete()
      requires Valid()
      modifies this`notified
      ensures View() == Notify(old(View()))
    {
      notified := notified + [|Concat(sent)|];
    }

    method ConnEstablished()
      requires Valid() && state.Connecting?
      modifies this`state, this`reading, this`registered, this`reports
      ensures Valid() && View() == Step(old(View()), Established)
    {
      state := Connected;
      reading, registered := true, true;
      reports := reports + [state];
    }

    /** `send` on the loop thread. */
    method SendMessage(message: seq<byte>, r: Written) returns (ok: bool)
      requires Valid() && CanTake(View(), |message|, r)
      modifies this, outputBuffer, outputBuffer.data
      ensures outputBuffer.data == old(outputBuffer.data) || fresh(outputBuffer.data)
      ensures ok <==> (old(state).Connected? ==>
                         RoomFor(old(View()), old(outputBuffer.Shape()), outputBuffer.growth, message, r))
      ensures ok ==> Valid() && View() == Step(old(View()), Send(message, r))
    {
      ok := true;
      if state.Connected? {
        ok := SendInLoop(message, r);
      }
    }

    /** `send` on another thread, where `runInLoop` queues. */
    method SendFromOther(message: seq<byte>)
      requires Valid()
      modifies this`pending
      ensures Valid() && View() == Step(old(View()), SendFromThread(message))
      ensures pending == old(pending) + if state.Connected? then [SendLater(message)] else []
    {
      if state.Connected? {
        pending := pending + [SendLater(message)];
      }
    }

    method SendInLoop(message: seq<byte>, r: Written) returns (ok: bool)
      requires Valid() && CanTake(View(), |message|, r)
      modifies this`writing, this`registered, this`sent, this`wire, this`notified, outputBuffer, outputBuffer.data
      ensures outputBuffer.data == old(outputBuffer.data) || fresh(outputBuffer.data)
      ensures ok <==> RoomFor(old(View()), old(outputBuffer.Shape()), outputBuffer.growth, message, r)
      ensures ok ==> Valid() && View() == AfterSend(old(View()), message, r)
    {
      hide AfterDirect, Direct;
      var n := WriteDirectly(message, r);
      ok := true;
      if n < |message| {
        ok := outputBuffer.Append(message[n..]);
        if !writing {
          writing, registered := true, true;
        }
      }
    }

    method WriteDirectly(message: seq<byte>, r: Written) returns (n: nat)
      requires Valid() && CanTake(View(), |message|, r)
      modifies this`sent, this`wire, this`notified
      ensures n == Direct(old(View()), message, r) && View() == AfterDirect(old(View()), message, r)
    {
      n := 0;
      sent := sent + [message];
      if !writing && outputBuffer.ReadableBytes() == 0 {
        match r {
          case Error =>
          case Took(k) =>
            n := k;
            wire := wire + message[..n];
            if n == |message| {
              NotifyWriteComplete();
            }
        }
      }
      assert wire == old(wire) + message[..n];
    }

    method HandleWrite(r: Written)
      requires Valid() && Possible(View(), SocketWritable(r))
      modifies this`writing, this`registered, this`wire, this`notified, this`writeShut, outputBuffer
      ensures Valid() && View() == Step(old(View()), SocketWritable(r))
    {
      if writing {
        match r {
          case Error =>
          case Took(n) =>
            if n > 0 {
              wire := wire + outputBuffer.Contents()[..n];
              outputBuffer.Retrieve(n);
              if outputBuffer.ReadableBytes() == 0 {
                writing, registered := false, true;
                NotifyWriteComplete();
                if state.Disconnecting? {
                  ShutdownInLoop();
                }
              }
            }
        }
      }
    }

    /** `shutdown`; `runInLoop` calls at once on the loop thread and queues on any other. */
    method ShutdownConnection(onLoop: bool)
      requires Valid()
      modifies this`state, this`promised, this`writeShut, this`pending
      ensures Valid() && View() == Step(old(View()), if onLoop then Shutdown else ShutdownFromThread)
    {
      if state.Connected? {
        state := Disconnecting;
        if onLoop {
          promised := true;
          ShutdownInLoop();
        } else {
          pending := pending + [ShutdownLater];
        }
      }
    }

    method ShutdownInLoop()
      requires Valid()
      modifies this`writeShut
      ensures Valid() && View() == AfterShutdown(old(View()))
    {
      if !writing {
        writeShut := true;
      }
    }

    /** `forceClose`: the state changes at once, the close itself is queued. */
    method ForceCloseNow()
      requires Valid()
      modifies this`state, this`pending
      ensures Valid() && View() == Step(old(View()), ForceClose)
    {
      if state.Connected? || state.Disconnecting? {
        state := Disconnecting;
        pending := pending + [ForceCloseLater];
      }
    }

    method ForceCloseInLoop()
      requires Valid()
      modifies this`writing, this`closed, this`reading, this`registered, this`closeCalls
      ensures Valid() && View() == if Up(old(state)) then AfterClose(old(View())) else old(View())
    {
      if state.Connected? || state.Disconnecting? {
        HandleClosed();
      }
    }

    /** The loop runs the connection's next functor. */
    method RunNext(r: Written) returns (ok: bool)
      requires Valid() && Possible(View(), RunFunctor(r))
      modifies this, outputBuffer, outputBuffer.data
      ensures outputBuffer.data == old(outputBuffer.data) || fresh(outputBuffer.data)
      ensures ok <==> (old(pending)[0].SendLater? ==>
                         RoomFor(Popped(old(View())), old(outputBuffer.Shape()), outputBuffer.growth,
                                 old(pending)[0].message, r))
      ensures ok ==> Valid() && View() == Step(old(View()), RunFunctor(r))
    {
      hide AfterSend, Direct;
      var f := pending[0];
      pending := pending[1..];
      ok := true;
      match f {
        case SendLater(m) => ok := SendInLoop(m, r);
        case ShutdownLater =>
          promised := true;
          ShutdownInLoop();
        case ForceCloseLater => ForceCloseInLoop();
      }
    }

    method HandleClosed()
      requires Valid() && Up(state)
      modifies this`writing, this`closed, this`reading, this`registered, this`closeCalls
      ensures Valid() && View() == AfterClose(old(View())) && View() == Step(old(View()), HandleClose)
    {
      reading, writing, registered, closed := false, false, true, true;
      closeCalls := closeCalls + 1;
    }

    method ConnDestroyed()
      requires Valid() && Up(state)
      modifies this`state, this`writing, this`closed, this`reading, this`registered, this`reports
      ensures Valid() && View() == Step(old(View()), Destroyed)
    {
      state := Disconnected;
      reading, writing, closed := false, false, true;
      reports := reports + [state];
      registered := false;
    }
  }
}
