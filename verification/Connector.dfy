/** The client's connector (Connector.cpp): attempts, back-off, and what becomes of each
    socket it creates. */
module Connectors {
  import opened Numbers

  const INIT_RETRY_DELAY_MS: nat := 500
  const MAX_RETRY_DELAY_MS: nat := 30000

  type Sock = nat

  datatype Option<T> = None | Some(value: T)

  datatype ConnState = Disconnected | Connecting | Connected

  /** What `::connect` reported, sorted as the switch in `connect` sorts it. */
  datatype Attempt = InProgress | Retryable | Fatal

  /** What `getsockopt(SO_ERROR)` and the self-connection test say in `handleWrite`. */
  datatype Outcome = SoError | SelfConnected | Good

  type TimerNo = nat

  /** The retry timers, numbered as they are created.  `id` is `timerId_`, `queued` the timers
      in the timer queue, `inFlight` those taken out into the batch that is being called, and
      `cancels` the cancellations that other threads have queued. */
  datatype Timers = Timers(
    id: Option<TimerNo>, queued: set<TimerNo>, inFlight: set<TimerNo>, cancels: seq<TimerNo>, next: TimerNo) {
    /** What may still run `connect`. */
    function Pending(): set<TimerNo> { queued + inFlight }
  }

  /** `starting` counts the `startInLoop` functors still queued, `resets` the `resetChannel`
      ones.  `channel` is the socket of the Channel object, which lives on until
      `resetChannel` runs; `watched` says the poller still has it.  The rest is history: the
      number of sockets created, those closed, given to the new-connection callback, or let
      go of without either, and the retry delays since the last reset.  `failed` is set, and
      the connector stops, when an assertion of the source fails. */
  datatype State = State(
    connect: bool,
    state: ConnState,
    retryDelayMs: nat,
    channel: Option<Sock>,
    watched: bool,
    starting: nat,
    resets: nat,
    retry: Timers,
    created: Sock,
    closed: multiset<Sock>,
    handedOver: multiset<Sock>,
    dropped: multiset<Sock>,
    waits: seq<nat>,
    failed: bool)

  const NO_TIMERS: Timers := Timers(None, {}, {}, [], 0)

  const INIT: State :=
    State(false, Disconnected, INIT_RETRY_DELAY_MS, None, false, 0, 0, NO_TIMERS, 0,
          multiset{}, multiset{}, multiset{}, [], false)

  /** `start` and `stop` on the loop thread and from another one; `StartInLoop` and
      `RunCancel` are the functors that the latter queue.  `TakeBatch` is the timer queue
      taking due retry timers out, and `RunTimer` the callback of one of them; the batch may
      hold other timers, whose callbacks may call the connector meanwhile.  `Dispatch` is one
      `handleEvent` of the channel: the error callback if `error`, then the write callback if
      `write` holds an outcome. */
  datatype Event =
    | StartOnLoop(result: Attempt)
    | StartFromThread
    | StartInLoop(result: Attempt)
    | Restart(result: Attempt)
    | StopOnLoop
    | StopFromThread
    | RunCancel
    | TakeBatch(due: set<TimerNo>)
    | RunTimer(timer: TimerNo, result: Attempt)
    | Dispatch(error: bool, write: Option<Outcome>)
    | ResetChannel

  /** While a batch of timers is being called the loop dispatches nothing else and runs no
      functors. */
  predicate InBatch(s: State) { s.retry.inFlight != {} }

  predicate Enabled(s: State, e: Event) {
    match e
    case StartInLoop(_) => s.starting > 0 && !InBatch(s)
    case RunCancel => s.retry.cancels != [] && !InBatch(s)
    case TakeBatch(due) => due != {} && due <= s.retry.queued && !InBatch(s)
    case RunTimer(i, _) => i in s.retry.inFlight
    case Dispatch(_, _) => s.watched && s.channel.Some? && !InBatch(s)
    case ResetChannel => s.resets > 0 && !InBatch(s)
    case _ => true
  }

  /** `runAfter`: a new timer, which `timerId_` names from now on. */
  function Scheduled(s: State): State {
    var t := s.retry;
    s.(retry := t.(id := Some(t.next), queued := t.queued + {t.next}, next := t.next + 1),
       waits := s.waits + [s.retryDelayMs],
       retryDelayMs := Min(s.retryDelayMs * 2, MAX_RETRY_DELAY_MS))
  }

  /** `retry`: close the socket, and try again later if a connection is still wanted. */
  function Retry(s: State, sock: Sock): State {
    var n := s.(closed := s.closed + multiset{sock}, state := Disconnected);
    if n.connect then Scheduled(n) else n
  }

  /** `connecting` asserts that the old channel object is gone. */
  function BeginConnecting(s: State, sock: Sock): State {
    if s.channel.Some? then s.(failed := true)
    else s.(state := Connecting, channel := Some(sock), watched := true)
  }

  function Connect(s: State, result: Attempt): State {
    var sock := s.created;
    var n := s.(created := sock + 1);
    match result
    case InProgress => BeginConnecting(n, sock)
    case Retryable => Retry(n, sock)
    case Fatal => n.(closed := n.closed + multiset{sock})
  }

  function RunStart(s: State, result: Attempt): State {
    if !s.state.Disconnected? then s.(failed := true)
    else if s.connect then Connect(s, result) else s
  }

  function RemoveAndResetChannel(s: State): State { s.(watched := false, resets := s.resets + 1) }

  function HandleError(s: State): State
    requires s.channel.Some?
  {
    if s.state.Connecting? then Retry(RemoveAndResetChannel(s), s.channel.value) else s
  }

  /** Hand the connected socket over, or close it if the connection is no longer wanted. */
  function Succeeded(s: State, sock: Sock): State {
    if s.connect then s.(state := Connected, handedOver := s.handedOver + multiset{sock})
    else s.(state := Connected, closed := s.closed + multiset{sock})
  }

  function HandleWrite(s: State, o: Outcome): State
    requires s.channel.Some?
  {
    var sock := s.channel.value;
    if s.state.Connecting? then
      var n := RemoveAndResetChannel(s);
      match o
      case SoError => n.(dropped := n.dropped + multiset{sock})
      case SelfConnected => Retry(n, sock)
      case Good => Succeeded(n, sock)
    else if s.state.Disconnected? then s
    else s.(failed := true)
  }

  function Dispatched(s: State, error: bool, write: Option<Outcome>): State
    requires s.channel.Some?
  {
    var n := if error then HandleError(s) else s;
    if write.Some? then HandleWrite(n, write.value) else n
  }

  function Restarted(s: State): State {
    s.(state := Disconnected, retryDelayMs := INIT_RETRY_DELAY_MS, waits := [], connect := true)
  }

  /** `loop_->cancel(timerId_)` on the loop thread: a timer in flight is not stopped. */
  function CancelLatest(t: Timers): Timers {
    if t.id.Some? then t.(queued := t.queued - {t.id.value}) else t
  }

  /** ... and from another thread, which only queues the cancellation. */
  function QueueCancel(t: Timers): Timers {
    if t.id.Some? then t.(cancels := t.cancels + [t.id.value]) else t
  }

  function CancelNext(t: Timers): Timers
    requires t.cancels != []
  {
    t.(queued := t.queued - {t.cancels[0]}, cancels := t.cancels[1..])
  }

  function Taken(t: Timers, due: set<TimerNo>): Timers { t.(queued := t.queued - due, inFlight := t.inFlight + due) }

  function Ran(t: Timers, i: TimerNo): Timers { t.(inFlight := t.inFlight - {i}) }

  function Step(s: State, e: Event): State {
    if s.failed || !Enabled(s, e) then s
    else
      match e
      case StartOnLoop(r) => RunStart(s.(connect := true), r)
      case StartFromThread => s.(connect := true, starting := s.starting + 1)
      case StartInLoop(r) => RunStart(s.(starting := s.starting - 1), r)
      case Restart(r) => RunStart(Restarted(s), r)
      case StopOnLoop => s.(connect := false, retry := CancelLatest(s.retry))
      case StopFromThread => s.(connect := false, retry := QueueCancel(s.retry))
      case RunCancel => s.(retry := CancelNext(s.retry))
      case TakeBatch(due) => s.(retry := Taken(s.retry, due))
      case RunTimer(i, r) => Connect(s.(retry := Ran(s.retry, i)), r)
      case Dispatch(error, write) => Dispatched(s, error, write)
      case ResetChannel => s.(resets := s.resets - 1, channel := None)
  }

  function RunFrom(s: State, es: seq<Event>): State {
    if es == [] then s else Step(RunFrom(s, es[..|es| - 1]), es[|es| - 1])
  }

  function Run(es: seq<Event>): State { RunFrom(INIT, es) }

  // ----- The fate of every socket -----

  /** How many of the four fates socket `x` has. */
  function Fates(s: State, x: Sock): nat {
    One(s.watched && s.channel == Some(x)) + s.closed[x] + s.handedOver[x] + s.dropped[x]
  }

  ghost predicate OneFateEach(s: State) { forall x: Sock :: Fates(s, x) == One(x < s.created) }

  /** The channel object waits for its reset exactly while the poller has given it up. */
  predicate ChannelInv(s: State) {
    && (s.watched ==> s.channel.Some?)
    && s.resets == One(s.channel.Some? && !s.watched)
    && (s.state.Connected? ==> !s.watched)
  }

  /** The delay of the `k`th retry after a reset. */
  function Backoff(k: nat): nat { Min(INIT_RETRY_DELAY_MS * Pow2(k), MAX_RETRY_DELAY_MS) }

  function Pow2(k: nat): (p: nat)
    ensures p >= 1
  {
    if k == 0 then 1 else 2 * Pow2(k - 1)
  }

  ghost predicate BackedOff(waits: seq<nat>, delay: nat) {
    && delay == Backoff(|waits|)
    && forall i :: 0 <= i < |waits| ==> waits[i] == Backoff(i)
  }

  ghost predicate Inv(s: State) {
    s.failed || (OneFateEach(s) && ChannelInv(s) && BackedOff(s.waits, s.retryDelayMs))
  }

  lemma BackoffDoubles(waits: seq<nat>, delay: nat)
    requires BackedOff(waits, delay)
    ensures BackedOff(waits + [delay], Min(delay * 2, MAX_RETRY_DELAY_MS))
  {
    assert Pow2(|waits| + 1) == 2 * Pow2(|waits|);
  }

  /** One socket, so far without a fate, is to be closed. */
  ghost predicate Owed(s: State, sock: Sock) {
    forall x: Sock :: Fates(s, x) + One(x == sock) == One(x < s.created)
  }

  lemma RetryKeeps(s: State, sock: Sock)
    requires !s.failed && ChannelInv(s) && BackedOff(s.waits, s.retryDelayMs) && Owed(s, sock)
    ensures Inv(Retry(s, sock))
  {
    BackoffDoubles(s.waits, s.retryDelayMs);
    assert forall x: Sock :: Fates(Retry(s, sock), x) == Fates(s, x) + One(x == sock);
  }

  lemma WatchKeeps(s: State, sock: Sock)
    requires !s.failed && ChannelInv(s) && BackedOff(s.waits, s.retryDelayMs) && Owed(s, sock)
    ensures Inv(BeginConnecting(s, sock))
  {
    if s.channel.None? {
      assert forall x: Sock :: Fates(BeginConnecting(s, sock), x) == Fates(s, x) + One(x == sock);
    }
  }

  lemma CloseKeeps(s: State, sock: Sock)
    requires !s.failed && ChannelInv(s) && BackedOff(s.waits, s.retryDelayMs) && Owed(s, sock)
    ensures Inv(s.(closed := s.closed + multiset{sock}))
  {
    assert forall x: Sock :: Fates(s.(closed := s.closed + multiset{sock}), x) == Fates(s, x) + One(x == sock);
  }

  /** A new socket is owed a fate. */
  lemma CreationOwes(s: State)
    requires !s.failed && Inv(s)
    ensures var n := s.(created := s.created + 1); ChannelInv(n) && Owed(n, s.created)
  {
    var n := s.(created := s.created + 1);
    forall x: Sock ensures Fates(n, x) + One(x == s.created) == One(x < n.created) {
      assert Fates(n, x) == Fates(s, x);
    }
  }

  lemma ConnectKeeps(s: State, r: Attempt)
    requires !s.failed && Inv(s)
    ensures Inv(Connect(s, r))
  {
    var n := s.(created := s.created + 1);
    CreationOwes(s);
    hide Retry, BeginConnecting, Inv, Owed, ChannelInv, BackedOff;
    match r {
      case InProgress => WatchKeeps(n, s.created);
      case Retryable => RetryKeeps(n, s.created);
      case Fatal => CloseKeeps(n, s.created);
    }
  }

  /** What the poller gives up is owed a fate. */
  lemma RemovalOwes(s: State)
    requires !s.failed && Inv(s) && s.watched
    ensures var n := RemoveAndResetChannel(s);
            n.channel.Some? && ChannelInv(n) && Owed(n, n.channel.value)
  {
    var n := RemoveAndResetChannel(s);
    assert forall x: Sock :: Fates(n, x) + One(x == n.channel.value) == Fates(s, x);
  }

  lemma HandleWriteKeeps(s: State, o: Outcome)
    requires !s.failed && Inv(s) && s.channel.Some? && (s.state.Connecting? ==> s.watched) && !s.state.Connected?
    ensures Inv(HandleWrite(s, o)) && !HandleWrite(s, o).failed
  {
    if s.state.Connecting? {
      RemovalOwes(s);
      var n, sock := RemoveAndResetChannel(s), s.channel.value;
      if o.SelfConnected? {
        RetryKeeps(n, sock);
      } else {
        assert forall x: Sock :: Fates(HandleWrite(s, o), x) == Fates(n, x) + One(x == sock);
      }
    }
  }

  lemma DispatchKeeps(s: State, error: bool, write: Option<Outcome>)
    requires !s.failed && Inv(s) && s.watched
    ensures s.channel.Some? && Inv(Dispatched(s, error, write)) && !Dispatched(s, error, write).failed
  {
    var n := if error then HandleError(s) else s;
    if error && s.state.Connecting? {
      RemovalOwes(s);
      RetryKeeps(RemoveAndResetChannel(s), s.channel.value);
    }
    if write.Some? {
      HandleWriteKeeps(n, write.value);
    }
  }

  lemma StepKeepsInv(s: State, e: Event)
    requires Inv(s)
    ensures Inv(Step(s, e))
  {
    if !s.failed && Enabled(s, e) {
      match e {
        case StartOnLoop(r) => StartKeeps(s, s.(connect := true), r);
        case StartInLoop(r) => StartKeeps(s, s.(starting := s.starting - 1), r);
        case Restart(r) => StartKeeps(s, Restarted(s), r);
        case RunTimer(i, r) => TimerKeeps(s, i, r);
        case Dispatch(error, write) => DispatchKeeps(s, error, write);
        case _ => SameLedger(s, Step(s, e));
      }
    }
  }

  /** Nothing happened to any socket. */
  lemma SameLedger(s: State, n: State)
    requires !s.failed && Inv(s) && ChannelInv(n) && BackedOff(n.waits, n.retryDelayMs) && !n.failed
    requires n.created == s.created && n.watched == s.watched && (s.watched ==> n.channel == s.channel)
    requires n.closed == s.closed && n.handedOver == s.handedOver && n.dropped == s.dropped
    ensures Inv(n)
  {
    assert forall x: Sock :: Fates(n, x) == Fates(s, x);
  }

  lemma StartKeeps(s: State, n: State, r: Attempt)
    requires !s.failed && Inv(s) && ChannelInv(n) && BackedOff(n.waits, n.retryDelayMs) && !n.failed
    requires n.created == s.created && n.watched == s.watched && n.channel == s.channel
    requires n.closed == s.closed && n.handedOver == s.handedOver && n.dropped == s.dropped
    ensures Inv(RunStart(n, r))
  {
    SameLedger(s, n);
    ConnectKeeps(n, r);
  }

  lemma TimerKeeps(s: State, i: TimerNo, r: Attempt)
    requires !s.failed && Inv(s)
    ensures Inv(Connect(s.(retry := Ran(s.retry, i)), r))
  {
    SameLedger(s, s.(retry := Ran(s.retry, i)));
    ConnectKeeps(s.(retry := Ran(s.retry, i)), r);
  }

  lemma {:induction false} RunKeepsInv(es: seq<Event>)
    ensures Inv(Run(es))
  {
    if es == [] {
      assert forall x: Sock :: Fates(INIT, x) == 0;
    } else {
      var s := Run(es[..|es| - 1]);
      RunKeepsInv(es[..|es| - 1]);
      StepKeepsInv(s, es[|es| - 1]);
    }
  }

  /** In every run, whatever its starts, restarts, stops and errors: each socket created is
      watched, closed once, handed over once or dropped, and only one of these; and the `k`th
      retry since the last reset waits min(500 * 2^k, 30000) ms. */
  lemma EachSocketHasOneFate(es: seq<Event>)
    requires !Run(es).failed
    ensures var s := Run(es);
            && (forall x: Sock :: x < s.created ==> Fates(s, x) == 1)
            && (forall x: Sock :: x >= s.created ==> Fates(s, x) == 0)
            && (forall k :: 0 <= k < |s.waits| ==> s.waits[k] == Backoff(k))
            && s.retryDelayMs == Backoff(|s.waits|)
  {
    RunKeepsInv(es);
    forall x: Sock ensures Fates(Run(es), x) == One(x < Run(es).created) {}
  }

  // ----- Which assertion fails, and when -----

  /** The event makes an attempt that is in progress. */
  predicate Attempts(s: State, e: Event) {
    match e
    case StartOnLoop(r) => r.InProgress?
    case StartInLoop(r) => s.connect && r.InProgress?
    case Restart(r) => r.InProgress?
    case RunTimer(_, r) => r.InProgress?
    case _ => false
  }

  /** An assertion fails exactly when `startInLoop` runs in a state other than Disconnected,
      or an attempt is in progress while the old channel object is still there.  The
      assertion in `handleWrite` never fails. */
  lemma FailsExactlyWhen(es: seq<Event>, e: Event)
    requires !Run(es).failed && Enabled(Run(es), e)
    ensures Step(Run(es), e).failed <==>
              || ((e.StartInLoop? || e.StartOnLoop?) && !Run(es).state.Disconnected?)
              || (Attempts(Run(es), e) && Run(es).channel.Some?)
  {
    RunKeepsInv(es);
    if e.Dispatch? {
      DispatchKeeps(Run(es), e.error, e.write);
    }
  }

  /** The event drops its socket: the write callback sees SO_ERROR and the error callback
      has not dealt with it before. */
  predicate Drops(s: State, e: Event) {
    e.Dispatch? && s.watched && !InBatch(s) && s.state.Connecting? && !e.error && e.write == Some(SoError)
  }

  /** A socket is dropped by exactly these events. */
  lemma DropsExactlyWhen(es: seq<Event>, e: Event)
    requires !Run(es).failed
    ensures Run(es + [e]).dropped != Run(es).dropped <==> Drops(Run(es), e)
    ensures Drops(Run(es), e) ==>
              var x := Run(es).channel.value; Run(es + [e]).dropped == Run(es).dropped + multiset{x}
  {
    assert (es + [e])[..|es|] == es;
    RunKeepsInv(es);
    var s := Run(es);
    if Drops(s, e) {
      assert (s.dropped + multiset{s.channel.value})[s.channel.value] == s.dropped[s.channel.value] + 1;
    }
  }

  // ----- One chain of attempts -----

  /** Nothing is under way that could lead to an attempt. */
  predicate Idle(s: State) { s.starting == 0 && s.retry.Pending() == {} && !s.watched }

  /** What keeps a connector to one chain of attempts: `start` and `restart` only when
      nothing is under way, retry timers in flight or with their cancellation still queued
      included; `start` in state Disconnected; and no attempt before the old channel is
      reset. */
  predicate Orderly(s: State, e: Event) {
    match e
    case StartOnLoop(_) => Idle(s) && s.state.Disconnected? && s.resets == 0
    case StartFromThread => Idle(s) && s.state.Disconnected?
    case Restart(_) => Idle(s) && s.resets == 0
    case StartInLoop(_) => s.resets == 0
    case RunTimer(_, _) => s.resets == 0
    case _ => true
  }

  predicate OrderlyRun(es: seq<Event>) {
    es == [] || (OrderlyRun(es[..|es| - 1]) && Orderly(Run(es[..|es| - 1]), es[|es| - 1]))
  }

  /** No retry timer but the one that `timerId_` names is pending. */
  predicate NoneForgotten(t: Timers) { forall i :: i in t.Pending() ==> t.id == Some(i) }

  predicate TimersInv(t: Timers, connect: bool) {
    && NoneForgotten(t) && t.queued !! t.inFlight
    && (forall i :: i in t.Pending() ==> i < t.next) && (forall i :: i in t.cancels ==> i < t.next)
    && (t.id.Some? ==> t.id.value < t.next)
    && (connect ==> forall i :: i in t.cancels ==> i !in t.Pending())
  }

  /** At most one of: a start queued, a retry pending, a socket watched. */
  predicate OneChain(s: State) {
    && !s.failed && ChannelInv(s) && TimersInv(s.retry, s.connect)
    && s.starting + One(s.retry.Pending() != {}) + One(s.watched) <= 1
    && (s.starting > 0 || s.retry.Pending() != {} ==> s.state.Disconnected?)
    && (s.watched ==> s.state.Connecting?)
  }

  lemma ScheduleKeepsTimers(s: State)
    requires TimersInv(s.retry, s.connect) && s.retry.Pending() == {}
    ensures TimersInv(Scheduled(s).retry, s.connect) && Scheduled(s).retry.Pending() == {s.retry.next}
  {
    assert Scheduled(s).retry.Pending() == s.retry.Pending() + {s.retry.next};
  }

  lemma RetryKeepsChain(s: State, sock: Sock)
    requires OneChain(s) && Idle(s)
    ensures OneChain(Retry(s, sock)) && (s.connect ==> Retry(s, sock).retry.Pending() != {})
  {
    ScheduleKeepsTimers(s.(closed := s.closed + multiset{sock}, state := Disconnected));
  }

  lemma AttemptKeepsChain(s: State, r: Attempt)
    requires OneChain(s) && s.state.Disconnected? && Idle(s) && s.resets == 0
    ensures OneChain(Connect(s, r))
    ensures s.connect && !r.Fatal? ==> !Idle(Connect(s, r))
  {
    hide Retry, TimersInv;
    if r.Retryable? {
      RetryKeepsChain(s.(created := s.created + 1), s.created);
    }
  }

  lemma GivenUpIsIdle(s: State)
    requires OneChain(s) && s.watched
    ensures var n := RemoveAndResetChannel(s); OneChain(n) && Idle(n) && n.channel.Some?
  {
  }

  /** A dispatch of a watched socket leaves one chain, and only a drop leaves nothing. */
  lemma DispatchKeepsChain(s: State, error: bool, write: Option<Outcome>)
    requires OneChain(s) && s.watched
    ensures OneChain(Dispatched(s, error, write))
    ensures var r := Dispatched(s, error, write);
            r.connect == s.connect
            && (s.connect && (error || write != Some(SoError)) ==> r.state.Connected? || !Idle(r))
  {
    var n := RemoveAndResetChannel(s);
    GivenUpIsIdle(s);
    hide Retry, TimersInv, Idle;
    RetryKeepsChain(n, s.channel.value);
    RetryDisconnects(n, s.channel.value);
    if !error && write.None? {
      BusyIsNotIdle(s);
    }
  }

  lemma RetryDisconnects(s: State, sock: Sock)
    ensures var r := Retry(s, sock); r.state == Disconnected && r.connect == s.connect && !r.failed == !s.failed
    ensures Retry(s, sock).retry.Pending() != {} ==> !Idle(Retry(s, sock))
  {
  }

  lemma BusyIsNotIdle(s: State)
    requires s.watched
    ensures !Idle(s)
  {
  }

  lemma CancelKeepsTimers(t: Timers, connect: bool)
    requires TimersInv(t, connect)
    ensures TimersInv(CancelLatest(t), false) && TimersInv(QueueCancel(t), false)
    ensures CancelLatest(t).Pending() <= t.Pending() && QueueCancel(t).Pending() == t.Pending()
  {
  }

  lemma CancelNextKeepsTimers(t: Timers, connect: bool)
    requires TimersInv(t, connect) && t.cancels != []
    ensures TimersInv(CancelNext(t), connect) && CancelNext(t).Pending() <= t.Pending()
    ensures connect ==> CancelNext(t).Pending() == t.Pending()
  {
    var c := CancelNext(t);
    assert t.cancels == [t.cancels[0]] + c.cancels;
    assert forall i :: i in c.cancels ==> i in t.cancels;
    assert forall i :: i in c.Pending() ==> i in t.Pending();
    if connect {
      assert t.cancels[0] in t.cancels && t.cancels[0] !in t.Pending();
      assert c.queued == t.queued;
    }
  }

  lemma TakenKeepsTimers(t: Timers, connect: bool, due: set<TimerNo>)
    requires TimersInv(t, connect) && due <= t.queued
    ensures TimersInv(Taken(t, due), connect) && Taken(t, due).Pending() == t.Pending()
  {
    assert Taken(t, due).Pending() == t.Pending();
  }

  lemma RanKeepsTimers(t: Timers, connect: bool, i: TimerNo)
    requires TimersInv(t, connect) && i in t.inFlight
    ensures TimersInv(Ran(t, i), connect) && Ran(t, i).Pending() == {} && t.Pending() != {}
  {
    assert i in t.Pending();
    assert forall j :: j in Ran(t, i).Pending() ==> j in t.Pending() && t.id == Some(j);
  }

  predicate Hopeless(e: Event) {
    match e
    case StartOnLoop(r) => r.Fatal?
    case StartInLoop(r) => r.Fatal?
    case Restart(r) => r.Fatal?
    case RunTimer(_, r) => r.Fatal?
    case _ => false
  }

  predicate Starts(e: Event) { e.StartOnLoop? || e.StartFromThread? || e.Restart? }

  /** Wanted and not connected, the connector has something under way. */
  predicate Busy(s: State) { s.connect && !s.state.Connected? ==> !Idle(s) }

  lemma StepKeepsChain(s: State, e: Event)
    requires OneChain(s) && Orderly(s, e)
    ensures OneChain(Step(s, e))
    ensures Busy(s) && !Drops(s, e) && !Hopeless(e) ==> Busy(Step(s, e))
  {
    hide Connect, Dispatched, TimersInv, CancelLatest, QueueCancel, CancelNext, Taken, Ran;
    if Enabled(s, e) {
      match e {
        case StartOnLoop(r) => StartedChain(s); AttemptKeepsChain(s.(connect := true), r);
        case StartFromThread => StartedChain(s);
        case StartInLoop(r) =>
          if s.connect { AttemptKeepsChain(s.(starting := s.starting - 1), r); }
        case Restart(r) => StartedChain(s); AttemptKeepsChain(Restarted(s), r);
        case StopOnLoop => CancelKeepsTimers(s.retry, s.connect);
        case StopFromThread => CancelKeepsTimers(s.retry, s.connect);
        case RunCancel => CancelNextKeepsTimers(s.retry, s.connect);
        case TakeBatch(due) => TakenKeepsTimers(s.retry, s.connect, due);
        case RunTimer(i, r) =>
          RanKeepsTimers(s.retry, s.connect, i);
          AttemptKeepsChain(s.(retry := Ran(s.retry, i)), r);
        case Dispatch(error, write) => DispatchKeepsChain(s, error, write);
        case ResetChannel =>
      }
    }
    if !e.StopOnLoop? && !e.StopFromThread? && !Starts(e) {
      AttemptsKeepWish(s, e);
    }
  }

  lemma StartedChain(s: State)
    requires TimersInv(s.retry, s.connect) && s.retry.Pending() == {}
    ensures TimersInv(s.retry, true)
  {
  }

  /** Only `stop` withdraws the wish, and only `start` and `restart` renew it. */
  lemma AttemptsKeepWish(s: State, e: Event)
    requires !e.StopOnLoop? && !e.StopFromThread? && !Starts(e)
    ensures Step(s, e).connect == s.connect
  {
  }

  /** No assertion fails in an orderly run, no retry timer is ever forgotten, and a socket
      is watched only in state Connecting. */
  lemma {:induction false} OrderlyNeverFails(es: seq<Event>)
    requires OrderlyRun(es)
    ensures OneChain(Run(es)) && !Run(es).failed && NoneForgotten(Run(es).retry)
  {
    if es != [] {
      OrderlyNeverFails(es[..|es| - 1]);
      StepKeepsChain(Run(es[..|es| - 1]), es[|es| - 1]);
    }
  }

  /** `stop` and `start` in one batch of timers, with the retry due in the same batch: the
      start is not orderly, and the retry then fails the assertion about the channel. */
  lemma StopStartInBatchFails()
    ensures var es := [] + [StartOnLoop(Retryable)] + [TakeBatch({0})] + [StopOnLoop];
            var bad := StartOnLoop(InProgress);
            && OrderlyRun(es) && !Orderly(Run(es), bad)
            && Run(es + [bad] + [RunTimer(0, InProgress)]).failed
  {
    var es: seq<Event> := [];
    var a := Step(INIT, StartOnLoop(Retryable));
    Snoc(es, StartOnLoop(Retryable));
    assert a.retry == Timers(Some(0), {0}, {}, [], 1) && a.state.Disconnected? && a.channel.None?;
    es := es + [StartOnLoop(Retryable)];
    Snoc(es, TakeBatch({0}));
    var b := Step(a, TakeBatch({0}));
    assert b == a.(retry := Timers(Some(0), {}, {0}, [], 1));
    es := es + [TakeBatch({0})];
    Snoc(es, StopOnLoop);
    var c := Step(b, StopOnLoop);
    assert c == b.(connect := false);
    es := es + [StopOnLoop];
    assert Run(es) == c && OrderlyRun(es);
    BatchFails(c);
    Snoc(es, StartOnLoop(InProgress));
    Snoc(es + [StartOnLoop(InProgress)], RunTimer(0, InProgress));
  }

  lemma BatchFails(c: State)
    requires !c.failed && c.state.Disconnected? && c.channel.None? && c.retry.inFlight == {0}
    ensures !Orderly(c, StartOnLoop(InProgress))
    ensures Step(Step(c, StartOnLoop(InProgress)), RunTimer(0, InProgress)).failed
  {
    assert 0 in c.retry.Pending();
  }

  lemma Snoc(es: seq<Event>, e: Event)
    ensures Run(es + [e]) == Step(Run(es), e)
    ensures OrderlyRun(es + [e]) <==> OrderlyRun(es) && Orderly(Run(es), e)
  {
    assert (es + [e])[..|es|] == es;
  }

  /** No event of the run drops a socket, and no attempt is refused for good. */
  predicate Hopeful(es: seq<Event>) {
    es == [] || (Hopeful(es[..|es| - 1]) && !Drops(Run(es[..|es| - 1]), es[|es| - 1]) && !Hopeless(es[|es| - 1]))
  }

  /** Until it is connected or told to stop, the connector always has an attempt queued, a
      retry pending or a socket watched. */
  lemma {:induction false} NeverIdle(es: seq<Event>)
    requires OrderlyRun(es) && Hopeful(es)
    ensures Run(es).connect && !Run(es).state.Connected? ==> !Idle(Run(es))
  {
    if es != [] {
      NeverIdle(es[..|es| - 1]);
      OrderlyNeverFails(es[..|es| - 1]);
      StepKeepsChain(Run(es[..|es| - 1]), es[|es| - 1]);
    }
  }

  // ----- Stop -----

  /** Neither `start` nor `restart` is called. */
  predicate Quiet(es: seq<Event>) { forall e :: e in es ==> !Starts(e) }

  predicate Stopped(s: State) { !s.connect && s.retry.Pending() == {} }

  lemma StoppedStep(s: State, e: Event)
    requires Stopped(s) && !Starts(e)
    ensures var r := Step(s, e); Stopped(r) && r.created == s.created && r.handedOver == s.handedOver
  {
    if e.RunTimer? {
      assert s.retry.inFlight == {};
    }
    if e.TakeBatch? {
      assert s.retry.queued == {};
    }
  }

  lemma {:induction false} StoppedStays(s: State, fs: seq<Event>)
    requires Quiet(fs) && Stopped(s)
    ensures var r := RunFrom(s, fs);
            Stopped(r) && r.created == s.created && r.handedOver == s.handedOver
  {
    if fs != [] {
      StoppedStays(s, fs[..|fs| - 1]);
      StoppedStep(RunFrom(s, fs[..|fs| - 1]), fs[|fs| - 1]);
    }
  }

  /** Nothing is attempted or handed over until `start` or `restart` is called. */
  ghost predicate StaysQuiet(s: State) {
    forall fs :: Quiet(fs) ==> RunFrom(s, fs).created == s.created && RunFrom(s, fs).handedOver == s.handedOver
  }

  /** What a caller of `stop` can test: on the loop thread, no retry is in flight and none is
      queued but the latest; on another thread, none is pending at all. */
  predicate StopReaches(t: Timers, onLoop: bool) {
    t.inFlight == {} && forall i :: i in t.queued ==> onLoop && t.id == Some(i)
  }

  lemma ReachedExactly(t: Timers, onLoop: bool)
    ensures (if onLoop then CancelLatest(t) else QueueCancel(t)).Pending() == {} <==> StopReaches(t, onLoop)
  {
    var c := if onLoop then CancelLatest(t) else QueueCancel(t);
    if StopReaches(t, onLoop) {
      forall i ensures i !in c.Pending() {}
    } else if t.inFlight != {} {
      var i :| i in t.inFlight;
      assert i in c.Pending();
    } else {
      var i :| i in t.queued && !(onLoop && t.id == Some(i));
      assert i in c.Pending();
    }
  }

  lemma NotQuiet(s: State, fs: seq<Event>)
    requires Quiet(fs) && RunFrom(s, fs).created != s.created
    ensures !StaysQuiet(s)
  {
    hide RunFrom;
  }

  lemma InFlightAttempts(s: State, i: TimerNo)
    requires !s.failed && i in s.retry.inFlight
    ensures Step(s, RunTimer(i, Fatal)).created == s.created + 1
  {
  }

  lemma BatchTakes(s: State, i: TimerNo)
    requires !s.failed && i in s.retry.queued && s.retry.inFlight == {}
    ensures var t := Step(s, TakeBatch({i})); !t.failed && i in t.retry.inFlight && t.created == s.created
  {
  }

  lemma SayQuiet(i: TimerNo)
    ensures Quiet([] + [RunTimer(i, Fatal)]) && Quiet([] + [TakeBatch({i})] + [RunTimer(i, Fatal)])
  {
  }

  /** A timer that is still pending after `stop` makes another attempt. */
  lemma PendingAttempts(s: State, i: TimerNo)
    requires !s.failed
    requires i in s.retry.inFlight || (i in s.retry.queued && s.retry.inFlight == {})
    ensures !StaysQuiet(s)
  {
    hide *;
    SayQuiet(i);
    if i in s.retry.inFlight {
      RunsOn(s, [], RunTimer(i, Fatal));
      InFlightAttempts(s, i);
      NotQuiet(s, [] + [RunTimer(i, Fatal)]);
    } else {
      BatchTakes(s, i);
      InFlightAttempts(Step(s, TakeBatch({i})), i);
      RunsOn(s, [], TakeBatch({i}));
      RunsOn(s, [] + [TakeBatch({i})], RunTimer(i, Fatal));
      NotQuiet(s, [] + [TakeBatch({i})] + [RunTimer(i, Fatal)]);
    }
  }

  lemma RunsOn(s: State, es: seq<Event>, e: Event)
    ensures RunFrom(s, []) == s && RunFrom(s, es + [e]) == Step(RunFrom(s, es), e)
  {
    assert (es + [e])[..|es|] == es;
  }

  /** Exactly when `stop` is final. */
  lemma StopIsFinalExactlyWhen(es: seq<Event>, onLoop: bool)
    requires !Run(es).failed
    ensures StaysQuiet(Step(Run(es), if onLoop then StopOnLoop else StopFromThread))
            <==> StopReaches(Run(es).retry, onLoop)
  {
    var t := Run(es).retry;
    var s := Step(Run(es), if onLoop then StopOnLoop else StopFromThread);
    ReachedExactly(t, onLoop);
    if StopReaches(t, onLoop) {
      forall fs | Quiet(fs)
        ensures RunFrom(s, fs).created == s.created && RunFrom(s, fs).handedOver == s.handedOver
      {
        StoppedStays(s, fs);
      }
    } else if t.inFlight != {} {
      var i :| i in t.inFlight;
      PendingAttempts(s, i);
    } else {
      var i :| i in t.queued && !(onLoop && t.id == Some(i));
      PendingAttempts(s, i);
    }
  }

  // ----- A dropped socket -----

  /** Nothing is left that could make the connector go on. */
  predicate Dead(s: State) { !s.failed && s.state.Connecting? && Idle(s) }

  lemma DeadStep(s: State, e: Event)
    requires Dead(s) && !Starts(e)
    ensures Dead(Step(s, e)) && Step(s, e).created == s.created
  {
    if e.RunTimer? {
      assert s.retry.inFlight == {};
    }
    if e.TakeBatch? {
      assert s.retry.queued == {};
    }
  }

  lemma {:induction false} DeadStays(s: State, fs: seq<Event>)
    requires Quiet(fs) && Dead(s)
    ensures Dead(RunFrom(s, fs)) && RunFrom(s, fs).created == s.created
  {
    if fs != [] {
      DeadStays(s, fs[..|fs| - 1]);
      DeadStep(RunFrom(s, fs[..|fs| - 1]), fs[|fs| - 1]);
    }
  }

  /** Once SO_ERROR has dropped the socket of an orderly connector, it never tries again of
      itself; a new `start` fails the assertion of `startInLoop`, on whichever thread. */
  lemma DropIsTheEnd(es: seq<Event>, e: Event, fs: seq<Event>, r: Attempt)
    requires OrderlyRun(es) && Drops(Run(es), e) && Quiet(fs)
    ensures var d := RunFrom(Step(Run(es), e), fs);
            && Dead(d) && d.created == Run(es).created
            && Step(d, StartOnLoop(r)).failed && Step(Step(d, StartFromThread), StartInLoop(r)).failed
  {
    OrderlyNeverFails(es);
    DropKills(Run(es), e);
    DeadStays(Step(Run(es), e), fs);
    DeadFails(RunFrom(Step(Run(es), e), fs), r);
  }

  lemma DropKills(s: State, e: Event)
    requires OneChain(s) && Drops(s, e)
    ensures Dead(Step(s, e)) && Step(s, e).created == s.created
  {
  }

  lemma DeadFails(s: State, r: Attempt)
    requires Dead(s)
    ensures Step(s, StartOnLoop(r)).failed && Step(Step(s, StartFromThread), StartInLoop(r)).failed
  {
    assert s.retry.inFlight == {};
  }

  /** The branch is reachable: one attempt, and SO_ERROR when it becomes writable. */
  lemma DropHappens()
    ensures var es := [] + [StartOnLoop(InProgress)];
            OrderlyRun(es) && Drops(Run(es), Dispatch(false, Some(SoError)))
  {
    Snoc([], StartOnLoop(InProgress));
  }

  // ----- The connector as it runs -----

  /** The connector's fields.  The counters of queued functors and `retry` stand for the
      loop and its timer queue; the ghost fields are history, kept for the specification. */
  class Connector {
    var connect: bool
    var state: ConnState
    var retryDelayMs: nat
    var channel: Option<Sock>
    var watched: bool
    var starting: nat
    var resets: nat
    var retry: Timers
    var created: Sock
    var failed: bool
    ghost var closed: multiset<Sock>
    ghost var handedOver: multiset<Sock>
    ghost var dropped: multiset<Sock>
    ghost var waits: seq<nat>

    ghost function View(): State
      reads this
    {
      State(connect, state, retryDelayMs, channel, watched, starting, resets, retry, created,
            closed, handedOver, dropped, waits, failed)
    }

    constructor ()
      ensures View() == INIT
    {
      connect, state, retryDelayMs, channel, watched := false, Disconnected, INIT_RETRY_DELAY_MS, None, false;
      starting, resets, retry, created, failed := 0, 0, NO_TIMERS, 0, false;
      closed, handedOver, dropped, waits := multiset{}, multiset{}, multiset{}, [];
    }

    method Close(sock: Sock)
      modifies this`closed
      ensures closed == old(closed) + multiset{sock}
    {
      closed := closed + multiset{sock};
    }

    /** The socket is closed.  If a connection is still wanted, a new timer waits for the
        delay so far, and the delay is doubled up to the limit; no other timer is touched. */
    method RetryLater(sock: Sock)
      modifies this`closed, this`state, this`retry, this`waits, this`retryDelayMs
      ensures View() == Retry(old(View()), sock)
      ensures state.Disconnected? && closed == old(closed) + multiset{sock}
      ensures !connect ==> retry == old(retry) && waits == old(waits)
      ensures connect ==> retry.Pending() == old(retry.Pending()) + {old(retry.next)}
      ensures connect ==> retry.id == Some(old(retry.next))
      ensures connect ==> waits == old(waits) + [old(retryDelayMs)]
    {
      Close(sock);
      state := Disconnected;
      if connect { Schedule(); }
    }

    method Schedule()
      modifies this`retry, this`waits, this`retryDelayMs
      ensures View() == Scheduled(old(View()))
      ensures retry.Pending() == old(retry.Pending()) + {old(retry.next)}
    {
      retry := retry.(id := Some(retry.next), queued := retry.queued + {retry.next}, next := retry.next + 1);
      waits := waits + [retryDelayMs];
      retryDelayMs := Min(retryDelayMs * 2, MAX_RETRY_DELAY_MS);
    }

    method Succeed(sock: Sock)
      modifies this`state, this`closed, this`handedOver
      ensures View() == Succeeded(old(View()), sock)
    {
      state := Connected;
      if connect { handedOver := handedOver + multiset{sock}; } else { Close(sock); }
    }

    method Begin(sock: Sock)
      modifies this`state, this`channel, this`watched, this`failed
      ensures View() == BeginConnecting(old(View()), sock)
      ensures if old(channel).Some? then failed else channel == Some(sock) && watched && failed == old(failed)
    {
      if channel.Some? { failed := true; return; }
      state := Connecting;
      channel := Some(sock);
      watched := true;
    }

    method Attempt(result: Attempt)
      modifies this
      ensures View() == Connect(old(View()), result)
      ensures created == old(created) + 1
      ensures failed <==> old(failed) || (result.InProgress? && old(channel).Some?)
    {
      hide Retry, BeginConnecting;
      var sock := created;
      created := created + 1;
      match result {
        case InProgress => Begin(sock);
        case Retryable => RetryLater(sock);
        case Fatal => Close(sock);
      }
    }

    method StartNow(result: Attempt)
      modifies this
      ensures View() == RunStart(old(View()), result)
    {
      hide Connect;
      if !state.Disconnected? { failed := true; return; }
      if connect { Attempt(result); }
    }

    /** `start` on the loop thread, where `runInLoop` calls at once. */
    method StartHere(result: Attempt)
      requires !failed
      modifies this
      ensures View() == Step(old(View()), StartOnLoop(result))
    {
      hide RunStart;
      connect := true;
      StartNow(result);
    }

    /** `start` on another thread. */
    method RequestStart()
      requires !failed
      modifies this`connect, this`starting
      ensures View() == Step(old(View()), StartFromThread)
    {
      connect := true;
      starting := starting + 1;
    }

    method Again(result: Attempt)
      requires !failed
      modifies this
      ensures View() == Step(old(View()), Restart(result))
      ensures created == old(created) + 1
    {
      hide RunStart;
      state := Disconnected;
      retryDelayMs := INIT_RETRY_DELAY_MS;
      waits := [];
      connect := true;
      assert View() == Restarted(old(View()));
      StartAlways(result);
    }

    /** `startInLoop` when its assertion holds and a connection is wanted. */
    method StartAlways(result: Attempt)
      requires state.Disconnected? && connect
      modifies this
      ensures View() == RunStart(old(View()), result) && created == old(created) + 1
    {
      hide Connect;
      Attempt(result);
    }

    /** `stop`: no retry is left pending exactly if `StopReaches` held. */
    method StopTrying(onLoop: bool)
      requires !failed
      modifies this`connect, this`retry
      ensures View() == Step(old(View()), if onLoop then StopOnLoop else StopFromThread)
      ensures !connect && retry.inFlight == old(retry.inFlight)
      ensures retry.Pending() == {} <==> StopReaches(old(retry), onLoop)
    {
      ReachedExactly(retry, onLoop);
      hide StopReaches;
      connect := false;
      if retry.id.Some? {
        if onLoop {
          retry := retry.(queued := retry.queued - {retry.id.value});
        } else {
          retry := retry.(cancels := retry.cancels + [retry.id.value]);
        }
      }
      assert retry == if onLoop then CancelLatest(old(retry)) else QueueCancel(old(retry));
    }

    /** The loop runs a cancellation that another thread has queued. */
    method CancelQueued()
      requires !failed && Enabled(View(), Event.RunCancel)
      modifies this`retry
      ensures View() == Step(old(View()), Event.RunCancel)
    {
      retry := retry.(queued := retry.queued - {retry.cancels[0]}, cancels := retry.cancels[1..]);
    }

    /** The callback of a retry timer in flight: it does not look at `connect_`. */
    method RunRetry(i: TimerNo, result: Attempt)
      requires !failed && i in retry.inFlight
      modifies this
      ensures View() == Step(old(View()), RunTimer(i, result))
      ensures created == old(created) + 1
    {
      hide Connect;
      retry := retry.(inFlight := retry.inFlight - {i});
      Attempt(result);
    }

    method RemoveChannel() returns (sock: Sock)
      requires channel.Some?
      modifies this`watched, this`resets
      ensures View() == RemoveAndResetChannel(old(View())) && sock == old(channel.value)
    {
      sock := channel.value;
      watched := false;
      resets := resets + 1;
    }

    method OnError()
      requires channel.Some?
      modifies this
      ensures View() == HandleError(old(View()))
    {
      if state.Connecting? {
        var sock := RemoveChannel();
        RetryLater(sock);
      }
    }

    method OnWrite(o: Outcome)
      requires channel.Some?
      modifies this
      ensures View() == HandleWrite(old(View()), o)
      ensures old(state).Connecting? && o.Good? ==>
                if connect then handedOver == old(handedOver) + multiset{old(channel).value} && closed == old(closed)
                else closed == old(closed) + multiset{old(channel).value} && handedOver == old(handedOver)
    {
      if state.Connecting? {
        hide Retry, Succeeded;
        var sock := RemoveChannel();
        match o {
          case SoError => dropped := dropped + multiset{sock};
          case SelfConnected => RetryLater(sock);
          case Good => Succeed(sock);
        }
      } else if !state.Disconnected? {
        failed := true;
      }
    }

    /** One dispatch of the channel's events, the error callback before the write callback:
        no assertion fails, and every socket keeps exactly one fate. */
    method HandleEvent(error: bool, write: Option<Outcome>, ghost es: seq<Event>)
      requires View() == Run(es) && !failed && watched && !InBatch(View())
      modifies this
      ensures View() == Step(old(View()), Dispatch(error, write)) && !failed
      ensures forall x: Sock :: Fates(View(), x) == One(x < created)
    {
      RunKeepsInv(es);
      DispatchKeeps(View(), error, write);
      if error { OnError(); }
      if write.Some? { OnWrite(write.value); }
    }
  }
}
