/** The event loop and its functor queue (EventLoop.cpp): one loop thread, any number of
    foreign threads, one eventfd. */
module EventLoops {

  type ThreadId = nat

  /** A queued functor.  `early` marks one pushed by the loop thread outside `loop()`. */
  datatype Task = Task(id: int, early: bool)

  /** Where the loop thread is.  `Running` holds the rest of the swapped-out batch. */
  datatype Pc = Outside | Checking | Polling | Dispatching | Running(batch: seq<Task>)

  /** `executed` is history.  `waking` and `quitting` are the foreign threads that have pushed
      a functor, or set the quit flag, and not yet written the eventfd. */
  datatype State = State(
    pc: Pc,
    quit: bool,
    pending: seq<Task>,
    counter: nat,
    waking: set<ThreadId>,
    quitting: set<ThreadId>,
    executed: seq<Task>)

  const INIT: State := State(Outside, false, [], 0, {}, {}, [])

  /** The largest value an eventfd counter holds; a write that would pass it fails. */
  const COUNTER_MAX: nat := 0xFFFF_FFFF_FFFF_FFFE

  datatype Event =
    | StartLoop
    | CheckQuit
    | PollReturns
    | ReadWakeup
    | SwapFunctors
    | RunNext
    | EndBatch
    | LoopPush(id: int)
    | LoopQuit
    | ForeignPush(thread: ThreadId, id: int)
    | ForeignQuit(thread: ThreadId)
    | ForeignWakeup(thread: ThreadId)

  predicate Busy(s: State, t: ThreadId) { t in s.waking || t in s.quitting }

  /** Only the loop thread's position and a thread's own progress restrict the order;
      `poll` may return at any moment, for any other event or a timeout. */
  predicate Enabled(s: State, e: Event) {
    match e
    case StartLoop => s.pc.Outside?
    case CheckQuit => s.pc.Checking?
    case PollReturns => s.pc.Polling?
    case ReadWakeup => s.pc.Dispatching? && s.counter > 0
    case SwapFunctors => s.pc.Dispatching?
    case RunNext => s.pc.Running? && s.pc.batch != []
    case EndBatch => s.pc.Running? && s.pc.batch == []
    case LoopPush(_) => s.pc.Outside? || s.pc.Dispatching? || s.pc.Running?
    case LoopQuit => s.pc.Outside? || s.pc.Dispatching? || s.pc.Running?
    case ForeignPush(t, _) => !Busy(s, t)
    case ForeignQuit(t) => !Busy(s, t)
    case ForeignWakeup(t) => Busy(s, t)
  }

  function Wakeup(s: State): State {
    s.(counter := if s.counter < COUNTER_MAX then s.counter + 1 else s.counter)
  }

  function Push(s: State, t: Task): State {
    s.(pending := s.pending + [t])
  }

  /** `queueInLoop` on the loop thread: the wakeup is written only between the swap and the
      end of the batch, while `callingPendingFucntors_` is set. */
  function QueueFromLoop(s: State, id: int): State {
    var p := Push(s, Task(id, s.pc.Outside?));
    if s.pc.Running? then Wakeup(p) else p
  }

  function Step(s: State, e: Event): State {
    if !Enabled(s, e) then s
    else
      match e
      case StartLoop => s.(pc := Checking, quit := false)
      case CheckQuit => s.(pc := if s.quit then Outside else Polling)
      case PollReturns => s.(pc := Dispatching)
      case ReadWakeup => s.(counter := 0)
      case SwapFunctors => s.(pc := Running(s.pending), pending := [])
      case RunNext => s.(pc := Running(s.pc.batch[1..]), executed := s.executed + [s.pc.batch[0]])
      case EndBatch => s.(pc := Checking)
      case LoopPush(id) => QueueFromLoop(s, id)
      case LoopQuit => s.(quit := true)
      case ForeignPush(t, id) => Push(s, Task(id, false)).(waking := s.waking + {t})
      case ForeignQuit(t) => s.(quit := true, quitting := s.quitting + {t})
      case ForeignWakeup(t) => Wakeup(s).(waking := s.waking - {t}, quitting := s.quitting - {t})
  }

  function Run(s: State, es: seq<Event>): State {
    if es == [] then s else Step(Run(s, es[..|es| - 1]), es[|es| - 1])
  }

  // ----- Invariants -----

  function Batch(s: State): seq<Task> {
    if s.pc.Running? then s.pc.batch else []
  }

  predicate WakeupDue(s: State) { s.counter > 0 || s.waking != {} }

  predicate QuitDue(s: State) { s.counter > 0 || s.quitting != {} }

  /** Outside the dispatch phase, a functor that was not pushed early has a wakeup due. */
  ghost predicate NoLostWakeup(s: State) {
    !s.pc.Dispatching? ==> forall t :: t in s.pending && !t.early ==> WakeupDue(s)
  }

  /** A loop that has gone on to poll will see the quit flag. */
  predicate NoLostQuit(s: State) { s.pc.Polling? && s.quit ==> QuitDue(s) }

  ghost predicate Inv(s: State) { NoLostWakeup(s) && NoLostQuit(s) }

  lemma WakeupKept(s: State, e: Event)
    requires NoLostWakeup(s) && NoLostQuit(s)
    ensures NoLostWakeup(Step(s, e)) && NoLostQuit(Step(s, e))
  {
  }

  /** The invariants hold over every run: any number of threads, any interleaving. */
  lemma {:induction false} RunKeepsInv(s: State, es: seq<Event>)
    requires Inv(s)
    ensures Inv(Run(s, es))
  {
    if es != [] {
      var before, e := es[..|es| - 1], es[|es| - 1];
      RunKeepsInv(s, before);
      WakeupKept(Run(s, before), e);
    }
  }

  /** The eventfd is written exactly by a foreign thread's wakeup and by a push made while
      functors are being run, and it is cleared exactly by reading it. */
  lemma CounterMovesExactlyWhen(s: State, e: Event)
    ensures var r := Step(s, e);
            && (r.counter == s.counter + 1 <==>
                  s.counter < COUNTER_MAX
                  && ((e.ForeignWakeup? && Busy(s, e.thread)) || (e.LoopPush? && s.pc.Running?)))
            && (r.counter != s.counter && r.counter != s.counter + 1 ==> r.counter == 0)
            && (r.counter < s.counter <==> e.ReadWakeup? && s.pc.Dispatching? && s.counter > 0)
  {
  }

  // ----- The flags, read from the events -----

  /** What a foreign thread has done since it last wrote the eventfd. */
  datatype Debt = Nothing | Pushed | SetQuit

  function Owes(es: seq<Event>, t: ThreadId): Debt {
    if es == [] then Nothing
    else
      var before := Owes(es[..|es| - 1], t);
      match es[|es| - 1]
      case ForeignPush(u, _) => if u == t && before.Nothing? then Pushed else before
      case ForeignQuit(u) => if u == t && before.Nothing? then SetQuit else before
      case ForeignWakeup(u) => if u == t then Nothing else before
      case _ => before
  }

  lemma DebtStep(s: State, e: Event, t: ThreadId)
    requires t in s.waking ==> t !in s.quitting
    ensures var r := Step(s, e);
            && (t in r.waking <==>
                  (t in s.waking && e != ForeignWakeup(t)) || (e.ForeignPush? && e.thread == t && !Busy(s, t)))
            && (t in r.quitting <==>
                  (t in s.quitting && e != ForeignWakeup(t)) || (e == ForeignQuit(t) && !Busy(s, t)))
  {
  }

  /** Over every run, the threads that still have to write the eventfd are those that have
      pushed a functor or set the flag since they last wrote it. */
  lemma {:induction false} DebtsFollow(es: seq<Event>, t: ThreadId)
    ensures t in Run(INIT, es).waking <==> Owes(es, t).Pushed?
    ensures t in Run(INIT, es).quitting <==> Owes(es, t).SetQuit?
  {
    if es != [] {
      hide Step;
      DebtsFollow(es[..|es| - 1], t);
      DebtStep(Run(INIT, es[..|es| - 1]), es[|es| - 1], t);
    }
  }

  /** `quit` was called, by any thread, since `loop()` was last started. */
  predicate QuitAsked(es: seq<Event>) {
    es != [] && var before := es[..|es| - 1];
      match es[|es| - 1]
      case StartLoop => !Run(INIT, before).pc.Outside? && QuitAsked(before)
      case LoopQuit => QuitAsked(before) || !(Run(INIT, before).pc.Checking? || Run(INIT, before).pc.Polling?)
      case ForeignQuit(t) => QuitAsked(before) || Owes(before, t).Nothing?
      case _ => QuitAsked(before)
  }

  lemma QuitStep(s: State, e: Event)
    ensures Step(s, e).quit <==>
            match e
            case StartLoop => !s.pc.Outside? && s.quit
            case LoopQuit => s.quit || !(s.pc.Checking? || s.pc.Polling?)
            case ForeignQuit(t) => s.quit || (t !in s.waking && t !in s.quitting)
            case _ => s.quit
    ensures !s.pc.Outside? && Step(s, e).pc.Outside? <==> s.pc.Checking? && e.CheckQuit? && s.quit
  {
  }

  lemma {:induction false} QuitIsAsked(es: seq<Event>)
    ensures Run(INIT, es).quit <==> QuitAsked(es)
  {
    if es != [] {
      var e := es[|es| - 1];
      QuitIsAsked(es[..|es| - 1]);
      QuitStep(Run(INIT, es[..|es| - 1]), e);
      if e.ForeignQuit? {
        DebtsFollow(es[..|es| - 1], e.thread);
      }
      hide Step;
    }
  }

  /** The loop is left exactly when it tests the flag and `quit` has been called since it
      started. */
  lemma LoopIsLeftExactlyWhen(es: seq<Event>, e: Event)
    ensures var s := Run(INIT, es);
            !s.pc.Outside? && Step(s, e).pc.Outside? <==> s.pc.Checking? && e.CheckQuit? && QuitAsked(es)
  {
    QuitIsAsked(es);
    QuitStep(Run(INIT, es), e);
    hide Step;
  }

  // ----- What was asked for, and in which order it runs -----

  /** The functors that the events ask the loop to run, in the order of the calls: those of
      the loop thread, wherever it calls `queueInLoop` from, and those of the other threads. */
  function Requested(es: seq<Event>): seq<Task> {
    if es == [] then []
    else
      var before, e := es[..|es| - 1], es[|es| - 1];
      var pc := Run(INIT, before).pc;
      Requested(before)
      + (if e.LoopPush? && !pc.Checking? && !pc.Polling? then [Task(e.id, pc.Outside?)]
         else if e.ForeignPush? && Owes(before, e.thread).Nothing? then [Task(e.id, false)]
         else [])
  }

  /** What has run, the rest of the batch and what waits. */
  function Line(s: State): seq<Task> { s.executed + Batch(s) + s.pending }

  lemma StepKeepsLine(s: State, e: Event)
    ensures Line(Step(s, e))
            == Line(s)
               + (if e.LoopPush? && !s.pc.Checking? && !s.pc.Polling? then [Task(e.id, s.pc.Outside?)]
                  else if e.ForeignPush? && e.thread !in s.waking && e.thread !in s.quitting then [Task(e.id, false)]
                  else [])
  {
    if Enabled(s, e) {
      match e {
        case RunNext =>
          var b := s.pc.batch;
          assert (s.executed + [b[0]]) + b[1..] == s.executed + b;
        case LoopPush(id) => LineGrows(s, Task(id, s.pc.Outside?));
        case ForeignPush(t, id) => LineGrows(s, Task(id, false));
        case _ =>
      }
    }
  }

  lemma LineGrows(s: State, t: Task)
    ensures Line(Push(s, t)) == Line(s) + [t]
  {
    assert s.executed + Batch(s) + (s.pending + [t]) == (s.executed + Batch(s) + s.pending) + [t];
  }

  /** Exactly once and in order, over every run: what has run, the rest of the batch and what
      waits are together what was asked for. */
  lemma {:induction false} RunsWhatIsRequested(es: seq<Event>)
    ensures Run(INIT, es).executed + Batch(Run(INIT, es)) + Run(INIT, es).pending == Requested(es)
  {
    if es == [] {
      assert Line(INIT) == [];
    } else {
      hide Step;
      var e := es[|es| - 1];
      RunsWhatIsRequested(es[..|es| - 1]);
      StepKeepsLine(Run(INIT, es[..|es| - 1]), e);
      if e.ForeignPush? {
        DebtsFollow(es[..|es| - 1], e.thread);
      }
    }
  }

  // ----- No lost wakeup -----

  /** The loop is at `poll` with work queued, and nothing will wake it. */
  predicate Stuck(s: State) {
    (s.pc.Checking? || s.pc.Polling?) && s.pending != [] && !WakeupDue(s)
  }

  /** The loop thread never pushes while it is outside `loop()`. */
  predicate NoEarlyPush(es: seq<Event>) {
    forall i :: 0 <= i < |es| && es[i].LoopPush? ==> !Run(INIT, es[..i]).pc.Outside?
  }

  lemma {:induction false} NoEarlyTasks(es: seq<Event>)
    requires NoEarlyPush(es)
    ensures forall t :: t in Requested(es) ==> !t.early
  {
    if es != [] {
      var before := es[..|es| - 1];
      assert forall i :: 0 <= i < |before| ==> before[..i] == es[..i];
      NoEarlyTasks(before);
    }
  }

  /** In every run where the loop thread pushes nothing outside `loop()`, the loop is never
      stuck; and in any run whatever, what it can be stuck with is early pushes only. */
  lemma NeverStuck(es: seq<Event>)
    ensures var s := Run(INIT, es);
            && (NoEarlyPush(es) ==> !Stuck(s))
            && (Stuck(s) ==> forall t :: t in s.pending ==> t.early)
  {
    RunKeepsInv(INIT, es);
    var s := Run(INIT, es);
    if NoEarlyPush(es) {
      NoEarlyTasks(es);
      RunsWhatIsRequested(es);
      if s.pending != [] {
        assert s.pending[0] in Requested(es);
      }
    }
  }

  /** The loop thread's own way to its next `poll`. */
  function ToPoll(s: State): State
    decreases match s.pc
              case Outside => 4
              case Dispatching => 3
              case Running(_) => 2
              case Checking => 1
              case Polling => 0,
              |Batch(s)|
  {
    match s.pc
    case Outside => ToPoll(Step(s, StartLoop))
    case Dispatching => ToPoll(Step(s, SwapFunctors))
    case Running(b) => ToPoll(Step(s, if b == [] then EndBatch else RunNext))
    case Checking => Step(s, CheckQuit)
    case Polling => s
  }

  lemma {:induction false} ToPollAfterSwap(s: State)
    requires s.pc.Running? && !s.quit
    ensures var p := ToPoll(s);
            p.pc.Polling? && p.pending == s.pending && p.counter == s.counter && p.waking == s.waking
    decreases |s.pc.batch|
  {
    if s.pc.batch != [] {
      ToPollAfterSwap(Step(s, RunNext));
    }
  }

  /** Exactly which push by the loop thread can be lost: with nothing else queued or due,
      the loop reaches `poll` stuck if and only if the push was made outside `loop()`. */
  lemma LoopPushIsLostExactlyWhen(s: State, id: int)
    requires Enabled(s, LoopPush(id)) && s.pending == [] && s.counter == 0 && s.waking == {}
    requires s.pc.Outside? || !s.quit
    ensures Stuck(ToPoll(Step(s, LoopPush(id)))) <==> s.pc.Outside?
  {
    var p := Step(s, LoopPush(id));
    match s.pc {
      case Outside =>
        assert ToPoll(p) == Step(Step(p, StartLoop), CheckQuit);
      case Dispatching => ToPollAfterSwap(Step(p, SwapFunctors));
      case Running(_) => ToPollAfterSwap(p);
    }
  }

  /** `loop()` clears the quit flag: a quit before it starts is erased, in every run and
      from whichever thread. */
  lemma EarlyQuitIsErased(es: seq<Event>, e: Event)
    requires Run(INIT, es).pc.Outside? && (e.LoopQuit? || e.ForeignQuit?)
    ensures Run(INIT, es + [e, StartLoop, CheckQuit]).pc.Polling?
  {
    RunSnoc(INIT, es, e);
    RunSnoc(INIT, es + [e], StartLoop);
    RunSnoc(INIT, es + [e] + [StartLoop], CheckQuit);
    assert es + [e, StartLoop, CheckQuit] == es + [e] + [StartLoop] + [CheckQuit];
  }

  /** With the quit flag set, the rest of the batch is run and the loop is left. */
  lemma {:induction false} ToPollLeaves(s: State)
    requires s.pc.Running? && s.quit
    ensures ToPoll(s).pc.Outside?
    decreases |s.pc.batch|
  {
    if s.pc.batch != [] {
      ToPollLeaves(Step(s, RunNext));
    }
  }

  /** Exactly which `quit` by the loop thread is honoured: on its own way to the next `poll`
      the loop leaves if and only if the call was made inside `loop()`. */
  lemma LoopQuitIsHonouredExactlyWhen(s: State)
    requires Enabled(s, LoopQuit)
    ensures ToPoll(Step(s, LoopQuit)).pc.Outside? <==> !s.pc.Outside?
  {
    var q := Step(s, LoopQuit);
    match s.pc {
      case Outside =>
        assert ToPoll(q) == Step(Step(q, StartLoop), CheckQuit);
      case Dispatching => ToPollLeaves(Step(q, SwapFunctors));
      case Running(_) => ToPollLeaves(q);
    }
  }

  /** The loop has been left somewhere on the way. */
  ghost predicate LeavesWithin(s: State, es: seq<Event>) {
    exists k :: 0 <= k <= |es| && Run(s, es[..k]).pc.Outside?
  }

  /** Once set inside `loop()`, the quit flag stays set until the loop is left. */
  lemma {:induction false} QuitStays(s: State, es: seq<Event>)
    requires s.quit && !s.pc.Outside?
    ensures LeavesWithin(s, es) || (Run(s, es).quit && !Run(s, es).pc.Outside?)
  {
    if es != [] {
      var front := es[..|es| - 1];
      QuitStays(s, front);
      if LeavesWithin(s, front) {
        var k :| 0 <= k <= |front| && Run(s, front[..k]).pc.Outside?;
        assert front[..k] == es[..k];
      } else if Run(s, es).pc.Outside? {
        assert es[..|es|] == es;
      }
    }
  }

  lemma {:induction false} NeverPollsAgain(s: State, es: seq<Event>)
    requires s.quit && !s.pc.Outside? && !s.pc.Polling? && !LeavesWithin(s, es)
    ensures Run(s, es).quit && !Run(s, es).pc.Polling?
  {
    if es != [] {
      var front := es[..|es| - 1];
      forall k | 0 <= k <= |front| ensures !Run(s, front[..k]).pc.Outside? {
        assert front[..k] == es[..k];
      }
      NeverPollsAgain(s, front);
    }
  }

  /** A `quit` from any thread, made while the loop is inside `loop()`, is honoured in every
      interleaving: until the loop has been left the flag stays set; if the loop was not at
      `poll` it does not get there again, and if it was, a wakeup is due as long as it is. */
  lemma QuitIsHonoured(before: seq<Event>, e: Event, after: seq<Event>)
    requires e.LoopQuit? || e.ForeignQuit?
    requires Enabled(Run(INIT, before), e) && !Run(INIT, before).pc.Outside?
    ensures var q := Step(Run(INIT, before), e);
            var r := Run(q, after);
            LeavesWithin(q, after)
            || (r.quit && !r.pc.Outside? && (r.pc.Polling? ==> q.pc.Polling? && QuitDue(r)))
  {
    var q := Step(Run(INIT, before), e);
    QuitStays(q, after);
    RunKeepsInv(INIT, before);
    WakeupKept(Run(INIT, before), e);
    RunKeepsInv(q, after);
    if !q.pc.Polling? && !LeavesWithin(q, after) {
      NeverPollsAgain(q, after);
    }
  }

  // ----- Exactly once, in order, in finite batches -----

  /** Two requests never change places: what has run is a prefix of what was asked for, so if
      one was made before the other, it has run before it. */
  lemma PushOrderIsRunOrder(es: seq<Event>, i: nat, j: nat)
    requires i < j < |Run(INIT, es).executed|
    ensures var s := Run(INIT, es);
            && s.executed <= Requested(es)
            && s.executed[i] == Requested(es)[i] && s.executed[j] == Requested(es)[j]
  {
    RunsWhatIsRequested(es);
    var s := Run(INIT, es);
    assert Requested(es)[..|s.executed|] == s.executed;
  }

  /** The batch after any run that does not start a new one is a suffix of the old batch,
      shorter by the functors executed: functors that queue more do not lengthen it. */
  lemma {:induction false} BatchOnlyShrinks(s: State, es: seq<Event>)
    requires s.pc.Running? && EndBatch !in es
    ensures var p := Run(s, es);
            p.pc.Running? && s.executed <= p.executed
            && p.executed + p.pc.batch == s.executed + s.pc.batch
  {
    if es != [] {
      var m := Run(s, es[..|es| - 1]);
      BatchOnlyShrinks(s, es[..|es| - 1]);
      if m.pc.batch != [] {
        assert (m.executed + [m.pc.batch[0]]) + m.pc.batch[1..] == m.executed + m.pc.batch;
      }
    }
  }

  /** Hence everything asked for before a swap has run by the time the batch ends. */
  lemma SwapRunsEverything(before: seq<Event>, es: seq<Event>)
    requires Run(INIT, before).pc.Dispatching? && EndBatch !in es
    requires Enabled(Run(Step(Run(INIT, before), SwapFunctors), es), EndBatch)
    ensures Requested(before) <= Run(Step(Run(INIT, before), SwapFunctors), es).executed
  {
    RunsWhatIsRequested(before);
    SwapRuns(Run(INIT, before), es);
  }

  lemma SwapRuns(s: State, es: seq<Event>)
    requires s.pc.Dispatching? && EndBatch !in es
    requires Enabled(Run(Step(s, SwapFunctors), es), EndBatch)
    ensures Line(s) <= Run(Step(s, SwapFunctors), es).executed
  {
    var n := Step(s, SwapFunctors);
    assert n.pc == Running(s.pending) && n.executed == s.executed;
    BatchOnlyShrinks(n, es);
    hide Run, Step;
    assert s.executed + [] + s.pending == s.executed + s.pending;
    var p := Run(n, es);
    assert p.executed + [] == p.executed;
  }

  // ----- The class -----

  function Pushes(ids: seq<int>): seq<Event> {
    seq(|ids|, i requires 0 <= i < |ids| => LoopPush(ids[i]))
  }

  /** The events of `doPendingFunctors` up to and including its `k`th functor, when the
      `i`th functor queues the functors `queues(i)`. */
  function BatchTrace(queues: nat -> seq<int>, k: nat): seq<Event> {
    if k == 0 then [SwapFunctors]
    else BatchTrace(queues, k - 1) + ([RunNext] + Pushes(queues(k - 1)))
  }

  lemma RunSnoc(s: State, es: seq<Event>, e: Event)
    ensures Run(s, es + [e]) == Step(Run(s, es), e)
  {
    assert (es + [e])[..|es|] == es;
  }

  lemma PushesSnoc(ids: seq<int>, j: nat)
    requires j < |ids|
    ensures Pushes(ids[..j + 1]) == Pushes(ids[..j]) + [LoopPush(ids[j])]
  {
  }

  lemma FirstRuns(s: State)
    requires s.pc.Running? && s.pc.batch != []
    ensures Run(s, [RunNext] + Pushes([]))
            == s.(pc := Running(s.pc.batch[1..]), executed := s.executed + [s.pc.batch[0]])
  {
    assert [RunNext] + Pushes([]) == [] + [RunNext];
    RunSnoc(s, [], RunNext);
  }

  function AfterFunctors(s: State, queues: nat -> seq<int>, k: nat): State {
    Run(s, BatchTrace(queues, k))
  }

  lemma TraceStart(s: State, queues: nat -> seq<int>)
    ensures AfterFunctors(s, queues, 0) == Step(s, SwapFunctors)
  {
    RunSnoc(s, [], SwapFunctors);
    assert [] + [SwapFunctors] == BatchTrace(queues, 0);
  }

  lemma TraceStep(s: State, queues: nat -> seq<int>, i: nat)
    ensures AfterFunctors(s, queues, i + 1) == Run(AfterFunctors(s, queues, i), [RunNext] + Pushes(queues(i)))
  {
    RunConcat(s, BatchTrace(queues, i), [RunNext] + Pushes(queues(i)));
  }

  lemma {:induction false} RunConcat(s: State, a: seq<Event>, b: seq<Event>)
    ensures Run(s, a + b) == Run(Run(s, a), b)
  {
    hide Step;
    if b == [] {
      assert a + b == a;
    } else {
      RunConcat(s, a, b[..|b| - 1]);
      assert (a + b)[..|a + b| - 1] == a + b[..|b| - 1];
    }
  }

  /** What a channel's callback does to the loop: read the wakeup, quit, or queue a functor. */
  datatype Act = ReadsWakeup | Quits | Queues(id: int)

  function EventOf(act: Act): Event {
    match act
    case ReadsWakeup => ReadWakeup
    case Quits => LoopQuit
    case Queues(id) => LoopPush(id)
  }

  /** What one round of the loop meets: what the callbacks of the active channels do, in any
      order, and what each functor of the batch queues. */
  datatype Turn = Turn(acts: seq<Act>, queues: nat -> seq<int>)

  function ActsTrace(acts: seq<Act>): seq<Event> {
    seq(|acts|, i requires 0 <= i < |acts| => EventOf(acts[i]))
  }

  /** The events of one round after `poll` has returned in state `s`. */
  function TurnTrace(s: State, turn: Turn): seq<Event> {
    var acts := ActsTrace(turn.acts);
    acts + (BatchTrace(turn.queues, |Run(s, acts).pending|) + [EndBatch])
  }

  /** The events of `loop()` from state `s` up to and including its `k`th round; there are
      no more rounds once the quit flag is set. */
  function LoopTrace(s: State, turns: seq<Turn>, k: nat): seq<Event>
    requires k <= |turns|
  {
    if k == 0 then [StartLoop]
    else
      var before := LoopTrace(s, turns, k - 1);
      if Run(s, before).quit then before
      else
        var polled := before + [CheckQuit, PollReturns];
        polled + TurnTrace(Run(s, polled), turns[k - 1])
  }

  /** ... and all of them, with the way out if it quits. */
  function WholeTrace(s: State, turns: seq<Turn>): seq<Event> {
    var rounds := LoopTrace(s, turns, |turns|);
    if Run(s, rounds).quit then rounds + [CheckQuit] else rounds
  }

  class EventLoop {
    var looping: bool
    var quit: bool
    var callingPendingFunctors: bool
    var pendingFunctors: seq<Task>
    var wakeupCounter: nat
    ghost var pc: Pc
    ghost var waking: set<ThreadId>
    ghost var quitting: set<ThreadId>
    ghost var executed: seq<Task>

    ghost predicate Valid()
      reads this
    {
      (looping <==> !pc.Outside?) && (callingPendingFunctors <==> pc.Running?)
    }

    ghost function View(): State
      reads this
    {
      State(pc, quit, pendingFunctors, wakeupCounter, waking, quitting, executed)
    }

    constructor ()
      ensures Valid() && View() == INIT
    {
      looping, quit, callingPendingFunctors, pendingFunctors, wakeupCounter := false, false, false, [], 0;
      pc, waking, quitting, executed := Outside, {}, {}, [];
    }

    method WriteWakeup()
      modifies this`wakeupCounter
      ensures View() == Wakeup(old(View()))
    {
      if wakeupCounter < COUNTER_MAX {
        wakeupCounter := wakeupCounter + 1;
      }
    }

    /** `queueInLoop` called by the loop thread. */
    method QueueInLoop(id: int)
      requires Valid() && Enabled(View(), LoopPush(id))
      modifies this`pendingFunctors, this`wakeupCounter
      ensures Valid() && View() == Step(old(View()), LoopPush(id))
      ensures pendingFunctors == old(pendingFunctors) + [Task(id, !looping)]
    {
      var cb := Task(id, !looping);
      pendingFunctors := pendingFunctors + [cb];
      if callingPendingFunctors {
        WriteWakeup();
      }
    }

    /** `queueInLoop` (or `runInLoop`) called by a foreign thread, up to the unlock. */
    method QueueFromThread(thread: ThreadId, id: int)
      requires Valid() && Enabled(View(), ForeignPush(thread, id))
      modifies this`pendingFunctors, this`waking
      ensures Valid() && View() == Step(old(View()), ForeignPush(thread, id))
      ensures pendingFunctors == old(pendingFunctors) + [Task(id, false)] && waking == old(waking) + {thread}
    {
      pendingFunctors := pendingFunctors + [Task(id, false)];
      waking := waking + {thread};
    }

    /** ... and its `wakeup`, or that of a foreign `quit`. */
    method WakeupFromThread(ghost thread: ThreadId)
      requires Valid() && Enabled(View(), ForeignWakeup(thread))
      modifies this`wakeupCounter, this`waking, this`quitting
      ensures Valid() && View() == Step(old(View()), ForeignWakeup(thread))
    {
      WriteWakeup();
      waking, quitting := waking - {thread}, quitting - {thread};
    }

    /** `handleRead` of the wakeup channel. */
    method HandleRead()
      requires Valid() && Enabled(View(), ReadWakeup)
      modifies this`wakeupCounter
      ensures Valid() && View() == Step(old(View()), ReadWakeup)
    {
      wakeupCounter := 0;
    }

    /** `quit` on the loop thread, and the first half of a foreign `quit`. */
    method Quit()
      requires Valid() && Enabled(View(), LoopQuit)
      modifies this`quit
      ensures Valid() && View() == Step(old(View()), LoopQuit)
    {
      quit := true;
    }

    method QuitFromThread(ghost thread: ThreadId)
      requires Valid() && Enabled(View(), ForeignQuit(thread))
      modifies this`quit, this`quitting
      ensures Valid() && View() == Step(old(View()), ForeignQuit(thread))
    {
      quit := true;
      quitting := quitting + {thread};
    }

    /** One functor of the batch: it runs, and queues more from the loop thread. */
    method Execute(func: Task, queues: seq<int>)
      requires Valid() && pc.Running? && pc.batch != [] && func == pc.batch[0]
      modifies this`pendingFunctors, this`wakeupCounter, this`pc, this`executed
      ensures Valid() && View() == Run(old(View()), [RunNext] + Pushes(queues))
      ensures pc == Running(old(pc.batch[1..])) && executed == old(executed) + [func]
    {
      FirstRuns(View());
      hide Run, Step, Pushes;
      pc, executed := Running(pc.batch[1..]), executed + [func];
      var j := 0;
      assert queues[..0] == [];
      while j < |queues|
        invariant j <= |queues| && Valid()
        invariant pc == Running(old(pc.batch[1..])) && executed == old(executed) + [func]
        invariant View() == Run(old(View()), [RunNext] + Pushes(queues[..j]))
      {
        QueueInLoop(queues[j]);
        PushesSnoc(queues, j);
        RunSnoc(old(View()), [RunNext] + Pushes(queues[..j]), LoopPush(queues[j]));
        assert [RunNext] + Pushes(queues[..j + 1]) == ([RunNext] + Pushes(queues[..j])) + [LoopPush(queues[j])];
        j := j + 1;
      }
      assert queues[..|queues|] == queues;
    }

    /** The swap, the loop over the batch, and the flag around them. */
    method DoPendingFunctors(queues: nat -> seq<int>)
      requires Valid() && pc.Dispatching?
      modifies this`callingPendingFunctors, this`pendingFunctors, this`wakeupCounter
      modifies this`pc, this`executed
      ensures Valid() && pc.Checking?
      ensures View() == Step(AfterFunctors(old(View()), queues, |old(pendingFunctors)|), EndBatch)
    {
      ghost var start := View();
      var functors := pendingFunctors;
      callingPendingFunctors, pendingFunctors := true, [];
      pc := Running(functors);
      TraceStart(start, queues);
      var i := 0;
      while i < |functors|
        invariant i <= |functors| && Valid() && pc == Running(functors[i..])
        invariant View() == AfterFunctors(start, queues, i)
      {
        assert functors[i..][1..] == functors[i + 1..];
        Execute(functors[i], queues(i));
        TraceStep(start, queues, i);
        i := i + 1;
      }
      callingPendingFunctors := false;
      pc := Checking;
    }

    /** `loop()`, seen from the loop thread alone: `turns` is what each round of the while
        loop meets, and the run is cut off where the script ends. */
    method Loop(turns: seq<Turn>)
      requires Valid() && pc.Outside?
      modifies this
      ensures Valid() && View() == Run(old(View()), WholeTrace(old(View()), turns))
      ensures looping <==> !quit
    {
      ghost var start := View();
      Begin();
      var i := 0;
      while i < |turns| && !quit
        invariant i <= |turns| && Valid() && pc.Checking?
        invariant View() == Run(start, LoopTrace(start, turns, i))
      {
        PollOnce();
        LoopTurn(start, turns, i);
        Turnover(turns[i]);
        i := i + 1;
      }
      if quit {
        LoopCut(start, turns, i);
        RunSnoc(start, LoopTrace(start, turns, |turns|), CheckQuit);
        looping, pc := false, Outside;
      }
    }

    method Begin()
      requires Valid() && pc.Outside?
      modifies this`looping, this`quit, this`pc
      ensures Valid() && pc.Checking? && View() == Run(old(View()), [StartLoop])
    {
      RunSnoc(View(), [], StartLoop);
      assert [] + [StartLoop] == [StartLoop];
      looping, quit, pc := true, false, Checking;
    }

    /** `poll`, from its call to its return. */
    ghost method PollOnce()
      requires Valid() && pc.Checking? && !quit
      modifies this`pc
      ensures Valid() && pc.Dispatching? && View() == Step(Step(old(View()), CheckQuit), PollReturns)
    {
      pc := Dispatching;
    }

    /** One round after `poll` has returned: the active channels, then the functors. */
    method Turnover(turn: Turn)
      requires Valid() && pc.Dispatching?
      modifies this
      ensures Valid() && pc.Checking? && View() == Run(old(View()), TurnTrace(old(View()), turn))
    {
      ghost var start := View();
      RunHandlers(turn.acts);
      ghost var batch := BatchTrace(turn.queues, |pendingFunctors|);
      RunConcat(start, ActsTrace(turn.acts), batch + [EndBatch]);
      RunSnoc(View(), batch, EndBatch);
      DoPendingFunctors(turn.queues);
    }

    /** The callbacks of the active channels. */
    method RunHandlers(acts: seq<Act>)
      requires Valid() && pc.Dispatching?
      modifies this`wakeupCounter, this`quit, this`pendingFunctors
      ensures Valid() && View() == Run(old(View()), ActsTrace(acts))
    {
      ghost var start := View();
      assert ActsTrace(acts[..0]) == [];
      var j := 0;
      while j < |acts|
        invariant j <= |acts| && Valid() && View() == Run(start, ActsTrace(acts[..j]))
      {
        assert ActsTrace(acts[..j + 1]) == ActsTrace(acts[..j]) + [EventOf(acts[j])];
        RunSnoc(start, ActsTrace(acts[..j]), EventOf(acts[j]));
        match acts[j] {
          case ReadsWakeup => if wakeupCounter > 0 { HandleRead(); }
          case Quits => Quit();
          case Queues(id) => QueueInLoop(id);
        }
        j := j + 1;
      }
      assert acts[..|acts|] == acts;
    }
  }

  /** One more round of the loop. */
  lemma LoopTurn(s: State, turns: seq<Turn>, i: nat)
    requires i < |turns| && !Run(s, LoopTrace(s, turns, i)).quit
    ensures var m := Step(Step(Run(s, LoopTrace(s, turns, i)), CheckQuit), PollReturns);
            Run(s, LoopTrace(s, turns, i + 1)) == Run(m, TurnTrace(m, turns[i]))
  {
    var before := LoopTrace(s, turns, i);
    RunSnoc(s, before, CheckQuit);
    RunSnoc(s, before + [CheckQuit], PollReturns);
    assert before + [CheckQuit, PollReturns] == before + [CheckQuit] + [PollReturns];
    var polled := before + [CheckQuit, PollReturns];
    RunConcat(s, polled, TurnTrace(Run(s, polled), turns[i]));
  }

  /** Once the flag is set there are no more rounds. */
  lemma {:induction false} LoopCut(s: State, turns: seq<Turn>, i: nat)
    requires i <= |turns| && Run(s, LoopTrace(s, turns, i)).quit
    ensures LoopTrace(s, turns, |turns|) == LoopTrace(s, turns, i)
    decreases |turns| - i
  {
    if i < |turns| {
      LoopCut(s, turns, i + 1);
    }
  }
}
