/** Which fate each socket of the connector gets, when it tries again, and when it is wanted. */
module ConnectorOutcomes {
  import opened Connectors
  import opened Numbers

  /** The attempt that an event makes: `start` in state Disconnected, `restart`, a start from
      another thread that is still wanted, and every retry timer that runs. */
  function Tried(s: State, e: Event): Option<Attempt> {
    match e
    case StartOnLoop(r) => if s.state.Disconnected? then Some(r) else None
    case StartInLoop(r) =>
      if s.starting > 0 && !InBatch(s) && s.state.Disconnected? && s.connect then Some(r) else None
    case Restart(r) => Some(r)
    case RunTimer(i, r) => if i in s.retry.inFlight then Some(r) else None
    case _ => None
  }

  /** The event ends the wait for the watched socket. */
  predicate Answers(s: State, e: Event) {
    e.Dispatch? && s.watched && !InBatch(s) && s.state.Connecting? && (e.error || e.write.Some?)
  }

  /** The answer is that the socket is connected, and not to itself. */
  predicate IsGood(s: State, e: Event) { Answers(s, e) && !e.error && e.write == Some(Good) }

  /** The answer calls for another attempt. */
  predicate IsBad(s: State, e: Event) { Answers(s, e) && (e.error || e.write == Some(SelfConnected)) }

  /** Another attempt is due later: one was refused for the moment, or the answer was bad;
      and a connection is wanted, as `start` and `restart` have just said. */
  predicate TriesLater(s: State, e: Event) {
    || (Tried(s, e) == Some(Retryable) && (s.connect || e.StartOnLoop? || e.Restart?))
    || (IsBad(s, e) && s.connect)
  }

  function Watching(s: State): Option<Sock> {
    if s.watched then s.channel else None
  }

  lemma Grows(m: multiset<Sock>, x: Sock)
    ensures m + multiset{x} != m
  {
    assert (m + multiset{x})[x] == m[x] + 1;
  }

  /** The retry delays since the last `restart`, of which this event may be one. */
  function WaitsBefore(s: State, e: Event): seq<nat> {
    if e.Restart? then [] else s.waits
  }

  /** A retry was scheduled as it should: the timer that `timerId_` names from now on is
      queued, and it waits min(500 * 2^k, 30000) ms after `k` retries since the last
      `restart`. */
  predicate ScheduledRetry(s: State, n: State, before: seq<nat>) {
    && n.retry.next == s.retry.next + 1 && n.retry.id == Some(s.retry.next) && s.retry.next in n.retry.queued
    && n.waits == before + [Backoff(|before|)]
  }

  predicate NoRetry(s: State, n: State, before: seq<nat>) { n.retry.next == s.retry.next && n.waits == before }

  // ----- The three kinds of event -----

  lemma AnswerStep(s: State, e: Event)
    requires !s.failed && ChannelInv(s) && Answers(s, e)
    ensures s.channel.Some? && Tried(s, e).None?
    ensures var n, x := Step(s, e), s.channel.value;
            && n.created == s.created && !n.watched
            && n.handedOver == (if IsGood(s, e) && s.connect then s.handedOver + multiset{x} else s.handedOver)
            && n.closed == (if IsBad(s, e) || (IsGood(s, e) && !s.connect) then s.closed + multiset{x} else s.closed)
  {
  }

  lemma AnswerTimers(s: State, e: Event)
    requires !s.failed && ChannelInv(s) && BackedOff(s.waits, s.retryDelayMs) && Answers(s, e)
    ensures if IsBad(s, e) && s.connect then ScheduledRetry(s, Step(s, e), s.waits) else NoRetry(s, Step(s, e), s.waits)
  {
    hide Backoff;
  }

  /** Every attempt is one call of `connect`. */
  lemma TriedFrom(s: State, e: Event) returns (t: State)
    requires !s.failed && BackedOff(s.waits, s.retryDelayMs) && Tried(s, e).Some?
    ensures Step(s, e) == Connect(t, Tried(s, e).value) && !t.failed
    ensures t.created == s.created && t.handedOver == s.handedOver && t.closed == s.closed
    ensures t.watched == s.watched && t.channel == s.channel
    ensures t.retry == if e.RunTimer? then Ran(s.retry, e.timer) else s.retry
    ensures t.retry.next == s.retry.next && t.waits == WaitsBefore(s, e) && BackedOff(t.waits, t.retryDelayMs)
    ensures t.connect == (s.connect || e.StartOnLoop? || e.Restart?)
  {
    hide Connect;
    t := match e
         case StartOnLoop(r) => s.(connect := true)
         case StartInLoop(r) => s.(starting := s.starting - 1)
         case Restart(r) => Restarted(s)
         case RunTimer(i, r) => s.(retry := Ran(s.retry, i));
  }

  lemma ConnectSockets(t: State, r: Attempt)
    requires !t.failed && (t.watched ==> t.channel.Some?)
    ensures var n := Connect(t, r);
            && n.created == t.created + 1 && n.handedOver == t.handedOver
            && n.closed == (if r.InProgress? then t.closed else t.closed + multiset{t.created})
            && Watching(n) == (if r.InProgress? && t.channel.None? then Some(t.created) else Watching(t))
  {
  }

  lemma ConnectTimers(t: State, r: Attempt)
    requires BackedOff(t.waits, t.retryDelayMs)
    ensures if r.Retryable? && t.connect then ScheduledRetry(t, Connect(t, r), t.waits)
            else NoRetry(t, Connect(t, r), t.waits)
  {
    hide Backoff;
  }

  lemma OtherStep(s: State, e: Event)
    requires !s.failed && ChannelInv(s) && Tried(s, e).None? && !Answers(s, e)
    ensures var n := Step(s, e);
            && n.created == s.created && n.handedOver == s.handedOver && n.closed == s.closed
            && Watching(n) == Watching(s) && NoRetry(s, n, WaitsBefore(s, e))
  {
  }

  // ----- One step -----

  lemma SocketStep(s: State, e: Event)
    requires !s.failed && ChannelInv(s) && BackedOff(s.waits, s.retryDelayMs)
    ensures var n := Step(s, e);
            && n.created == s.created + One(Tried(s, e).Some?)
            && Watching(n) == (if Tried(s, e) == Some(InProgress) && s.channel.None? then Some(s.created)
                               else if Answers(s, e) then None
                               else Watching(s))
            && (Tried(s, e).Some? || !Answers(s, e) ==> n.handedOver == s.handedOver)
            && (Tried(s, e).None? && !Answers(s, e) ==> n.closed == s.closed)
            && (Tried(s, e).Some? ==>
                  n.closed == if Tried(s, e).value.InProgress? then s.closed else s.closed + multiset{s.created})
  {
    hide Step, Tried, Answers, Connect;
    if Tried(s, e).Some? {
      var t := TriedFrom(s, e);
      ConnectSockets(t, Tried(s, e).value);
      if Answers(s, e) {
        AnswerStep(s, e);
      }
    } else if Answers(s, e) {
      AnswerStep(s, e);
    } else {
      OtherStep(s, e);
    }
  }

  lemma TimerStep(s: State, e: Event)
    requires !s.failed && ChannelInv(s) && BackedOff(s.waits, s.retryDelayMs)
    ensures if TriesLater(s, e) then ScheduledRetry(s, Step(s, e), WaitsBefore(s, e))
            else NoRetry(s, Step(s, e), WaitsBefore(s, e))
  {
    hide Step, Tried, Answers, Connect, Backoff;
    if Tried(s, e).Some? {
      var t := TriedFrom(s, e);
      ConnectTimers(t, Tried(s, e).value);
      if Answers(s, e) {
        AnswerStep(s, e);
      }
    } else if Answers(s, e) {
      AnswerTimers(s, e);
      NotRestart(s, e);
    } else {
      OtherStep(s, e);
    }
  }

  lemma NotRestart(s: State, e: Event)
    requires Answers(s, e)
    ensures !e.Restart?
  {
  }

  // ----- Which fate, and when -----

  lemma Reached(es: seq<Event>, e: Event)
    requires !Run(es).failed
    ensures Run(es + [e]) == Step(Run(es), e)
    ensures var s := Run(es); ChannelInv(s) && BackedOff(s.waits, s.retryDelayMs)
  {
    Snoc(es, e);
    RunKeepsInv(es);
  }

  /** In every reachable state, a socket is handed over by exactly these events: a write
      callback that finds the watched socket well connected, in a dispatch without an error,
      while a connection is wanted. */
  lemma HandedOverExactlyWhen(es: seq<Event>, e: Event)
    requires !Run(es).failed
    ensures Run(es + [e]).handedOver != Run(es).handedOver <==> IsGood(Run(es), e) && Run(es).connect
    ensures var s := Run(es);
            IsGood(s, e) && s.connect ==>
              s.channel.Some? && Run(es + [e]).handedOver == s.handedOver + multiset{s.channel.value}
  {
    hide Run, Step, Answers, Tried;
    Reached(es, e);
    SocketStep(Run(es), e);
    if Answers(Run(es), e) {
      AnswerStep(Run(es), e);
      Grows(Run(es).handedOver, Run(es).channel.value);
    }
  }

  /** A socket is closed by exactly these: the new one, by an attempt that is refused, for the
      moment or for good; the watched one, by an error, a connection to itself, or a good
      connection that is no longer wanted. */
  lemma ClosedExactlyWhen(es: seq<Event>, e: Event)
    requires !Run(es).failed
    ensures var s := Run(es);
            var refused := Tried(s, e) == Some(Retryable) || Tried(s, e) == Some(Fatal);
            var given := IsBad(s, e) || (IsGood(s, e) && !s.connect);
            && (Run(es + [e]).closed != s.closed <==> refused || given)
            && (refused ==> Run(es + [e]).closed == s.closed + multiset{s.created})
            && (given ==> s.channel.Some? && Run(es + [e]).closed == s.closed + multiset{s.channel.value})
  {
    hide Run, Step, Answers, Tried;
    Reached(es, e);
    SocketStep(Run(es), e);
    Grows(Run(es).closed, Run(es).created);
    if Answers(Run(es), e) {
      AnswerStep(Run(es), e);
      Grows(Run(es).closed, Run(es).channel.value);
    }
  }

  /** A socket is created by exactly the attempts, and watched from an attempt in progress to
      its answer. */
  lemma WatchedExactlyWhen(es: seq<Event>, e: Event)
    requires !Run(es).failed
    ensures var s, n := Run(es), Run(es + [e]);
            && n.created == s.created + One(Tried(s, e).Some?)
            && Watching(n) == (if Tried(s, e) == Some(InProgress) && s.channel.None? then Some(s.created)
                               else if Answers(s, e) then None
                               else Watching(s))
  {
    hide *;
    Reached(es, e);
    SocketStep(Run(es), e);
  }

  /** Another attempt is scheduled by exactly the events that call for one, and never by an
      attempt that is refused for good. */
  lemma RetriesExactlyWhen(es: seq<Event>, e: Event)
    requires !Run(es).failed
    ensures var s, n := Run(es), Run(es + [e]);
            if TriesLater(s, e) then ScheduledRetry(s, n, WaitsBefore(s, e)) else NoRetry(s, n, WaitsBefore(s, e))
  {
    hide *;
    Reached(es, e);
    TimerStep(Run(es), e);
  }

  // ----- Which retry is pending -----

  predicate Numbered(t: Timers) { t.queued !! t.inFlight && forall i :: i in t.Pending() ==> i < t.next }

  /** The event takes retry `i` away: it runs, or the cancellation of a `stop` finds it still
      in the timer queue. */
  predicate TakesAway(s: State, e: Event, i: TimerNo) {
    match e
    case RunTimer(j, _) => j == i && i in s.retry.inFlight
    case StopOnLoop => s.retry.id == Some(i) && i in s.retry.queued
    case RunCancel => !InBatch(s) && s.retry.cancels != [] && s.retry.cancels[0] == i && i in s.retry.queued
    case _ => false
  }

  predicate PendingFollows(s: State, e: Event, t: Timers, later: bool, i: TimerNo) {
    i in t.Pending() <==> (i in s.retry.Pending() && !TakesAway(s, e, i)) || (later && i == s.retry.next)
  }

  /** `runAfter` in `retry`, if another attempt is due later. */
  lemma RetryTimers(s: State, sock: Sock)
    requires Numbered(s.retry)
    ensures var n := Retry(s, sock);
            Numbered(n.retry) && n.retry.Pending() == s.retry.Pending() + (if s.connect then {s.retry.next} else {})
  {
    var n := Retry(s, sock);
    assert n.retry.Pending() == s.retry.Pending() + (if s.connect then {s.retry.next} else {});
  }

  lemma AnswerPending(s: State, e: Event)
    requires !s.failed && ChannelInv(s) && Numbered(s.retry) && Answers(s, e)
    ensures var t := Step(s, e).retry;
            Numbered(t)
            && t.Pending() == s.retry.Pending() + (if IsBad(s, e) && s.connect then {s.retry.next} else {})
  {
    hide Retry, Numbered;
    RetryTimers(RemoveAndResetChannel(s), s.channel.value);
    RetryDisconnects(RemoveAndResetChannel(s), s.channel.value);
    assert s.retry.Pending() + {} == s.retry.Pending();
  }

  lemma ConnectPending(t: State, r: Attempt)
    requires Numbered(t.retry)
    ensures var n := Connect(t, r);
            Numbered(n.retry)
            && n.retry.Pending() == t.retry.Pending() + (if r.Retryable? && t.connect then {t.retry.next} else {})
  {
    hide Retry, Numbered;
    RetryTimers(t.(created := t.created + 1), t.created);
    assert t.retry.Pending() + {} == t.retry.Pending();
  }

  /** The retry that runs is taken out first. */
  lemma TriedTimers(s: State, e: Event, t: State)
    requires !s.failed && Numbered(s.retry) && Tried(s, e).Some?
    requires t.retry == if e.RunTimer? then Ran(s.retry, e.timer) else s.retry
    ensures Numbered(t.retry) && t.retry.next == s.retry.next
    ensures forall i :: i in t.retry.Pending() <==> i in s.retry.Pending() && !TakesAway(s, e, i)
  {
    assert forall i :: i in t.retry.Pending() ==> i in s.retry.Pending();
  }

  lemma OtherPending(s: State, e: Event)
    requires !s.failed && ChannelInv(s) && Numbered(s.retry) && Tried(s, e).None? && !Answers(s, e)
    ensures var t := Step(s, e).retry;
            Numbered(t) && forall i :: i in t.Pending() <==> i in s.retry.Pending() && !TakesAway(s, e, i)
  {
    var t := Step(s, e).retry;
    assert forall i :: i in t.Pending() ==> i in s.retry.Pending();
  }
  lemma PendingStep(s: State, e: Event, i: TimerNo)
    requires !s.failed && ChannelInv(s) && BackedOff(s.waits, s.retryDelayMs) && Numbered(s.retry)
    ensures Numbered(Step(s, e).retry) && PendingFollows(s, e, Step(s, e).retry, TriesLater(s, e), i)
  {
    hide Step, Tried, Answers, Connect, Numbered, TakesAway, Timers.Pending, ChannelInv, BackedOff;
    if Tried(s, e).Some? {
      var t := TriedFrom(s, e);
      TriedTimers(s, e, t);
      ConnectPending(t, Tried(s, e).value);
      if Answers(s, e) {
        AnswerStep(s, e);
      }
    } else if Answers(s, e) {
      AnswerPending(s, e);
      NoneTaken(s, e, i);
    } else {
      OtherPending(s, e);
    }
  }

  lemma NoneTaken(s: State, e: Event, i: TimerNo)
    requires Answers(s, e)
    ensures !TakesAway(s, e, i)
  {
  }

  lemma {:induction false} NumberedRun(es: seq<Event>)
    requires !Run(es).failed
    ensures Numbered(Run(es).retry)
  {
    if es != [] {
      var before, e := es[..|es| - 1], es[|es| - 1];
      assert es == before + [e];
      FailedStays(es);
      hide Numbered, Run, Step;
      NumberedRun(before);
      Reached(before, e);
      PendingStep(Run(before), e, 0);
    } else {
      NothingCalled();
    }
  }

  /** No retry is lost and none comes from nowhere: in every reachable state, a retry is
      pending after an event exactly if the event schedules it, or it was pending and the
      event neither runs nor cancels it. */
  lemma PendingExactlyWhen(es: seq<Event>, e: Event, i: TimerNo)
    requires !Run(es).failed
    ensures var s := Run(es);
            PendingFollows(s, e, Run(es + [e]).retry, TriesLater(s, e), i)
  {
    hide *;
    NumberedRun(es);
    Reached(es, e);
    PendingStep(Run(es), e, i);
  }

  // ----- What is wanted -----

  /** Whether the last `start`, `restart` or `stop` asked for a connection. */
  predicate Wanted(es: seq<Event>) {
    if es == [] then false
    else
      match es[|es| - 1]
      case StartOnLoop(_) => true
      case StartFromThread => true
      case Restart(_) => true
      case StopOnLoop => false
      case StopFromThread => false
      case _ => Wanted(es[..|es| - 1])
  }

  /** `start` calls of other threads. */
  function StartsAsked(es: seq<Event>): nat {
    if es == [] then 0 else StartsAsked(es[..|es| - 1]) + One(es[|es| - 1].StartFromThread?)
  }

  /** Those of them that the loop has reached. */
  function StartsServed(es: seq<Event>): nat {
    if es == [] then 0
    else
      var s, e := Run(es[..|es| - 1]), es[|es| - 1];
      StartsServed(es[..|es| - 1]) + One(e.StartInLoop? && s.starting > 0 && !InBatch(s))
  }

  /** The retries whose cancellation other threads have asked for, in order. */
  function CancelsAsked(es: seq<Event>): seq<TimerNo> {
    if es == [] then []
    else
      var s := Run(es[..|es| - 1]);
      CancelsAsked(es[..|es| - 1])
      + if es[|es| - 1].StopFromThread? && s.retry.id.Some? then [s.retry.id.value] else []
  }

  /** How many of them the loop has reached. */
  function CancelsServed(es: seq<Event>): nat {
    if es == [] then 0
    else
      var s := Run(es[..|es| - 1]);
      CancelsServed(es[..|es| - 1]) + One(es[|es| - 1].RunCancel? && s.retry.cancels != [] && !InBatch(s))
  }

  lemma CancelStep(s: State, e: Event)
    requires !s.failed
    ensures Step(s, e).retry.cancels ==
            if e.StopFromThread? && s.retry.id.Some? then s.retry.cancels + [s.retry.id.value]
            else if e.RunCancel? && s.retry.cancels != [] && !InBatch(s) then s.retry.cancels[1..]
            else s.retry.cancels
  {
  }

  lemma CallStep(s: State, e: Event)
    requires !s.failed
    ensures Step(s, e).starting + One(e.StartInLoop? && s.starting > 0 && !InBatch(s))
            == s.starting + One(e.StartFromThread?)
    ensures Step(s, e).connect == match e
                                  case StartOnLoop(_) => true
                                  case StartFromThread => true
                                  case Restart(_) => true
                                  case StopOnLoop => false
                                  case StopFromThread => false
                                  case _ => s.connect
  {
  }

  lemma FailedStays(es: seq<Event>)
    requires es != []
    ensures Run(es) == Step(Run(es[..|es| - 1]), es[|es| - 1])
    ensures Run(es[..|es| - 1]).failed ==> Run(es).failed
  {
  }

  /** Over every run: whether a connection is wanted is what the last call said, and the
      starts and cancellations still queued are those other threads have asked for and the
      loop has not reached. */
  lemma {:induction false} CallsAreNoted(es: seq<Event>)
    requires !Run(es).failed
    ensures Run(es).connect == Wanted(es)
    ensures Run(es).starting + StartsServed(es) == StartsAsked(es)
    ensures CancelsServed(es) <= |CancelsAsked(es)|
    ensures Run(es).retry.cancels == CancelsAsked(es)[CancelsServed(es)..]
  {
    if es != [] {
      FailedStays(es);
      hide Run, Step;
      CallsAreNoted(es[..|es| - 1]);
      CallStep(Run(es[..|es| - 1]), es[|es| - 1]);
      CancelStep(Run(es[..|es| - 1]), es[|es| - 1]);
    } else {
      NothingCalled();
    }
  }

  lemma NothingCalled()
    ensures Run([]) == INIT
  {
  }
}
