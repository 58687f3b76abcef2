/** What the timed trigger source keeps to, for every device that delivers one response at a time. */
module TriggerTheorems {
  import opened Core
  import opened TimedTrigger

  // ---------------------------------------------------------------- invariants

  predicate InCycle(s: State) { s.scheduler.Triggering? || s.scheduler.AwaitResponse? }

  function Last(xs: seq<nat>): nat
    requires xs != []
  {
    xs[|xs| - 1]
  }

  ghost predicate Spaced(times: seq<nat>, from: nat, interval: nat) {
    forall i :: from <= i && i + 1 < |times| ==> times[i] + interval <= times[i + 1]
  }

  /** Where the time of the next frame stands relative to the last one. */
  ghost predicate SpacingInv(c: Config, s: State) {
    && s.early <= |s.accepted| && s.early <= 1
    && Spaced(s.accepted, s.early, c.triggerInterval)
    && (forall i :: 0 <= i < |s.accepted| ==> s.accepted[i] <= s.now)
    && (s.scheduler.AwaitStart? ==> s.triggers == [] && |s.accepted| == s.early == One(s.responseArrived))
    && (s.triggers == [] ==> s.scheduler.AwaitStart? || Ending(s))
    && (s.responseArrived && s.triggers != [] && !Ending(s) ==>
         |s.accepted| > s.early && s.responseTime == Last(s.accepted))
    && (InCycle(s) && !s.responseArrived && |s.accepted| > s.early ==> s.now >= Last(s.accepted) + c.triggerInterval)
    && ((s.scheduler.AwaitCallback? || s.scheduler.Pausing?) && !Ending(s) ==> s.responseArrived && s.triggers != [])
    && (s.scheduler.DeliveringError? ==> s.terminal)
    && (s.scheduler.Leaving? || s.scheduler.Done? ==> Ending(s))
  }

  /** Until a trigger overtakes the callback of a frame, the device thread and the scheduler stay in step. */
  ghost predicate TurnInv(s: State) {
    !s.overtook ==>
      && (Busy(s) ==> s.responseArrived && !s.scheduler.Pausing?)
      && (Busy(s) && s.triggers != [] ==> !s.callbackCompleted)
      && (s.device.Admitted? && s.device.good ==> !s.terminal)
      && (InCycle(s) && !s.responseArrived && !Ending(s) ==> !s.callbackCompleted)
  }

  /** Every accepted frame is given to one callback. */
  ghost predicate CountInv(s: State) {
    && s.successes + One(s.device == Admitted(true)) == |s.accepted|
    && s.returned + One(s.device == InCallback(true)) == s.successes
  }

  /** How many errors were decided, and how many of them are still to be delivered. */
  ghost predicate ErrorInv(s: State) {
    && s.errors + One(s.device == Admitted(false)) + One(s.scheduler.DeliveringError?)
       == One(s.terminal) + One(s.overlap)
    && (s.overlap ==> s.terminal)
    && (!s.device.Idle? && !s.device.good ==> s.terminal)
    && (s.overlap ==> s.scheduler.DeliveringError? || s.scheduler.Leaving? || s.scheduler.Done?)
    && (s.scheduler.DeliveringError? ==> s.terminal)
  }

  /** A cycle that has its answer has the callback that goes with it, under way or over. */
  ghost predicate AnswerInv(s: State) {
    (InCycle(s) || s.scheduler.AwaitCallback?) && (s.responseArrived || s.terminal) ==>
      s.callbackCompleted || !s.device.Idle?
  }

  ghost predicate Inv(c: Config, s: State) {
    && SpacingInv(c, s) && TurnInv(s) && CountInv(s) && ErrorInv(s) && AnswerInv(s)
    && AwaitedInv(s)
  }

  ghost predicate AwaitedInv(s: State) {
    s.scheduler.AwaitCallback? && !s.stopRequested ==> s.responseArrived || s.terminal
  }

  lemma BeginKeepsSpacing(c: Config, s: State)
    requires SpacingInv(c, s) && Enabled(c, s, BeginCycle)
    ensures SpacingInv(c, Next(c, s, BeginCycle))
  {
  }

  lemma DeviceKeepsSpacing(c: Config, s: State, good: bool)
    requires SpacingInv(c, s) && Enabled(c, s, DeviceCalls(good))
    ensures SpacingInv(c, Next(c, s, DeviceCalls(good)))
  {
  }

  lemma OthersKeepSpacing(c: Config, s: State, a: Action)
    requires SpacingInv(c, s) && Enabled(c, s, a) && !a.BeginCycle? && !a.DeviceCalls?
    ensures SpacingInv(c, Next(c, s, a))
  {
    if SchedulerStep(a) {
      SchedulerKeepsSpacing(c, s, a);
    } else {
      BackgroundKeepsSpacing(c, s, a);
    }
  }

  lemma SchedulerKeepsSpacing(c: Config, s: State, a: Action)
    requires SpacingInv(c, s) && Enabled(c, s, a) && SchedulerStep(a) && !a.BeginCycle?
    ensures SpacingInv(c, Next(c, s, a))
  {
    if a.TriggerReturns? {
      TriggerKeepsSpacing(c, s, a.succeeded);
    } else if a.TimeOut? || a.DeliverError? {
      CycleEndKeepsSpacing(c, s, a);
    } else {
      CycleKeepsSpacing(c, s, a);
    }
  }

  lemma TriggerKeepsSpacing(c: Config, s: State, succeeded: bool)
    requires SpacingInv(c, s) && Enabled(c, s, TriggerReturns(succeeded))
    ensures SpacingInv(c, Next(c, s, TriggerReturns(succeeded)))
  {
    assert Next(c, s, TriggerReturns(succeeded)).accepted == s.accepted;
  }

  lemma CycleEndKeepsSpacing(c: Config, s: State, a: Action)
    requires SpacingInv(c, s) && Enabled(c, s, a) && (a.TimeOut? || a.DeliverError?)
    ensures SpacingInv(c, Next(c, s, a))
  {
    assert Next(c, s, a).accepted == s.accepted && Next(c, s, a).now == s.now;
  }

  lemma CycleKeepsSpacing(c: Config, s: State, a: Action)
    requires SpacingInv(c, s) && Enabled(c, s, a) && (a.ResponseSeen? || a.CallbackSeen? || a.Leave?)
    ensures SpacingInv(c, Next(c, s, a))
  {
    assert Next(c, s, a).accepted == s.accepted && Next(c, s, a).now == s.now;
  }

  lemma BackgroundKeepsSpacing(c: Config, s: State, a: Action)
    requires SpacingInv(c, s) && Enabled(c, s, a) && !SchedulerStep(a) && !a.DeviceCalls?
    ensures SpacingInv(c, Next(c, s, a))
  {
    assert Next(c, s, a).accepted == s.accepted && Next(c, s, a).scheduler == s.scheduler;
    match a
    case Tick =>
    case Activate =>
    case RequestStop =>
    case CallbackStarts =>
    case CallbackReturns =>
    case MarkCompleted =>
    case _ =>
  }

  lemma SpacingKept(c: Config, s: State, a: Action)
    requires SpacingInv(c, s) && Enabled(c, s, a)
    ensures SpacingInv(c, Next(c, s, a))
  {
    if a.BeginCycle? {
      BeginKeepsSpacing(c, s);
    } else if a.DeviceCalls? {
      DeviceKeepsSpacing(c, s, a.good);
    } else {
      OthersKeepSpacing(c, s, a);
    }
  }

  lemma BeginKeepsTurn(c: Config, s: State)
    requires SpacingInv(c, s) && TurnInv(s) && ErrorInv(s) && Enabled(c, s, BeginCycle)
    ensures TurnInv(Next(c, s, BeginCycle))
  {
  }

  lemma SchedulerKeepsTurn(c: Config, s: State, a: Action)
    requires SpacingInv(c, s) && TurnInv(s) && ErrorInv(s) && Enabled(c, s, a) && SchedulerStep(a) && !a.BeginCycle?
    ensures TurnInv(Next(c, s, a))
  {
  }

  lemma DeviceKeepsTurn(c: Config, s: State, good: bool)
    requires SpacingInv(c, s) && TurnInv(s) && ErrorInv(s) && Enabled(c, s, DeviceCalls(good))
    ensures TurnInv(Next(c, s, DeviceCalls(good)))
  {
  }

  lemma CallbackKeepsTurn(c: Config, s: State, a: Action)
    requires SpacingInv(c, s) && TurnInv(s) && ErrorInv(s) && Enabled(c, s, a) && CallbackStep(a)
    ensures TurnInv(Next(c, s, a))
  {
  }

  lemma RestKeepsTurn(c: Config, s: State, a: Action)
    requires TurnInv(s) && Enabled(c, s, a) && (a.Tick? || a.Activate? || a.RequestStop?)
    ensures TurnInv(Next(c, s, a))
  {
  }

  lemma TurnKept(c: Config, s: State, a: Action)
    requires SpacingInv(c, s) && TurnInv(s) && ErrorInv(s) && Enabled(c, s, a)
    ensures TurnInv(Next(c, s, a))
  {
    if a.BeginCycle? {
      BeginKeepsTurn(c, s);
    } else if SchedulerStep(a) {
      SchedulerKeepsTurn(c, s, a);
    } else if a.DeviceCalls? {
      DeviceKeepsTurn(c, s, a.good);
    } else if CallbackStep(a) {
      CallbackKeepsTurn(c, s, a);
    } else {
      RestKeepsTurn(c, s, a);
    }
  }

  lemma CountKept(c: Config, s: State, a: Action)
    requires CountInv(s) && Enabled(c, s, a)
    ensures CountInv(Next(c, s, a))
  {
    if a.DeviceCalls? {
      DeviceKeepsCount(c, s, a.good);
    } else if CallbackStep(a) {
      CallbackKeepsCount(c, s, a);
    } else if SchedulerStep(a) {
      SchedulerCountsNothing(c, s, a);
    }
  }

  lemma SchedulerCountsNothing(c: Config, s: State, a: Action)
    requires Enabled(c, s, a) && SchedulerStep(a)
    ensures
      var t := Next(c, s, a);
      t.successes == s.successes && t.returned == s.returned && t.accepted == s.accepted && t.device == s.device
  {
    match a
    case BeginCycle =>
    case TriggerReturns(_) =>
    case ResponseSeen =>
    case TimeOut =>
    case DeliverError =>
    case CallbackSeen =>
    case Leave =>
    case _ =>
  }

  lemma DeviceKeepsCount(c: Config, s: State, good: bool)
    requires CountInv(s) && Enabled(c, s, DeviceCalls(good))
    ensures CountInv(Next(c, s, DeviceCalls(good)))
  {
  }

  lemma CallbackKeepsCount(c: Config, s: State, a: Action)
    requires CountInv(s) && Enabled(c, s, a) && CallbackStep(a)
    ensures CountInv(Next(c, s, a))
  {
    match a
    case CallbackStarts =>
    case CallbackReturns =>
    case MarkCompleted =>
    case _ =>
  }

  lemma SchedulerKeepsErrors(c: Config, s: State, a: Action)
    requires ErrorInv(s) && Enabled(c, s, a) && SchedulerStep(a)
    ensures ErrorInv(Next(c, s, a))
  {
    match a
    case BeginCycle =>
    case TriggerReturns(_) =>
    case ResponseSeen =>
    case TimeOut =>
    case DeliverError =>
    case CallbackSeen =>
    case Leave =>
    case _ =>
  }

  lemma DeviceKeepsErrors(c: Config, s: State, good: bool)
    requires ErrorInv(s) && Enabled(c, s, DeviceCalls(good))
    ensures ErrorInv(Next(c, s, DeviceCalls(good)))
  {
  }

  lemma CallbackKeepsErrors(c: Config, s: State, a: Action)
    requires ErrorInv(s) && Enabled(c, s, a) && CallbackStep(a)
    ensures ErrorInv(Next(c, s, a))
  {
    match a
    case CallbackStarts =>
    case CallbackReturns =>
    case MarkCompleted =>
    case _ =>
  }

  lemma ErrorKept(c: Config, s: State, a: Action)
    requires ErrorInv(s) && Enabled(c, s, a)
    ensures ErrorInv(Next(c, s, a))
  {
    if SchedulerStep(a) {
      SchedulerKeepsErrors(c, s, a);
    } else if a.DeviceCalls? {
      DeviceKeepsErrors(c, s, a.good);
    } else if CallbackStep(a) {
      CallbackKeepsErrors(c, s, a);
    }
  }

  lemma AnswerKept(c: Config, s: State, a: Action)
    requires Inv(c, s) && Enabled(c, s, a)
    ensures AnswerInv(Next(c, s, a)) && AwaitedInv(Next(c, s, a))
  {
    if SchedulerStep(a) {
      SchedulerKeepsAnswer(c, s, a);
    } else if a.DeviceCalls? {
      DeviceKeepsAnswer(c, s, a.good);
    } else {
      BackgroundKeepsAnswer(c, s, a);
    }
  }

  lemma SchedulerKeepsAnswer(c: Config, s: State, a: Action)
    requires Inv(c, s) && Enabled(c, s, a) && SchedulerStep(a)
    ensures AnswerInv(Next(c, s, a)) && AwaitedInv(Next(c, s, a))
  {
    match a
    case BeginCycle =>
    case TriggerReturns(_) =>
    case ResponseSeen =>
    case TimeOut =>
    case DeliverError =>
    case CallbackSeen =>
    case Leave =>
    case _ =>
  }

  lemma DeviceKeepsAnswer(c: Config, s: State, good: bool)
    requires Inv(c, s) && Enabled(c, s, DeviceCalls(good))
    ensures AnswerInv(Next(c, s, DeviceCalls(good))) && AwaitedInv(Next(c, s, DeviceCalls(good)))
  {
  }

  lemma BackgroundKeepsAnswer(c: Config, s: State, a: Action)
    requires Inv(c, s) && Enabled(c, s, a) && !SchedulerStep(a) && !a.DeviceCalls?
    ensures AnswerInv(Next(c, s, a)) && AwaitedInv(Next(c, s, a))
  {
    match a
    case Tick =>
    case Activate =>
    case RequestStop =>
    case CallbackStarts =>
    case CallbackReturns =>
    case MarkCompleted =>
    case _ =>
  }

  lemma {:induction false} RunKeepsInv(c: Config, s: State, run: seq<Action>)
    requires Inv(c, s) && ValidRun(c, s, run)
    ensures Inv(c, After(c, s, run))
    decreases |run|
  {
    if run != [] {
      SpacingKept(c, s, run[0]);
      TurnKept(c, s, run[0]);
      CountKept(c, s, run[0]);
      ErrorKept(c, s, run[0]);
      AnswerKept(c, s, run[0]);
      RunKeepsInv(c, Next(c, s, run[0]), run[1..]);
    }
  }

  lemma ReachableInv(c: Config, s: State)
    requires Reachable(c, s)
    ensures Inv(c, s)
  {
    var run :| ValidRun(c, Init(), run) && After(c, Init(), run) == s;
    RunKeepsInv(c, Init(), run);
  }

  // ---------------------------------------------------------------- theorems over all runs

  /**
    Frames accepted after the first trigger are at least the interval apart. A frame the device
    delivers before the first trigger, and there is at most one, does not count as its response.
   */
  lemma AcceptedFramesAreSpaced(c: Config, s: State, i: nat)
    requires Reachable(c, s) && s.early <= i && i + 1 < |s.accepted|
    ensures s.accepted[i] + c.triggerInterval <= s.accepted[i + 1]
  {
    ReachableInv(c, s);
  }

  ghost predicate IssuesTrigger(c: Config, s: State, a: Action) {
    a.BeginCycle? && Enabled(c, s, a) && !Ending(s)
  }

  /**
    A trigger is issued only when every frame accepted before it has gone through its callback, except
    that the first trigger may overtake the callback of a frame from before it; and from then on. After
    the first trigger the interval since the last frame is over in any case.
   */
  lemma OneTriggerInFlight(c: Config, s: State, a: Action)
    requires Reachable(c, s) && IssuesTrigger(c, s, a) && !s.overtook
    ensures Busy(s) ==> s.triggers == [] && s.early == 1
    ensures !Busy(s) ==> s.returned == s.successes == |s.accepted|
    ensures Next(c, s, a).overtook <==> Busy(s)
  {
    ReachableInv(c, s);
  }

  /** After the first trigger every trigger waits for the interval since the last frame. */
  lemma TriggersKeepTheInterval(c: Config, s: State, a: Action)
    requires Reachable(c, s) && IssuesTrigger(c, s, a) && s.triggers != []
    ensures s.accepted != [] && s.now >= Last(s.accepted) + c.triggerInterval
  {
    ReachableInv(c, s);
  }

  /** Nothing but a trigger can overtake a callback, and it is the first one. */
  lemma OnlyTheFirstTriggerOvertakes(c: Config, s: State, a: Action)
    requires Reachable(c, s) && Enabled(c, s, a) && !s.overtook && Next(c, s, a).overtook
    ensures IssuesTrigger(c, s, a) && s.triggers == [] && s.early == 1 && Busy(s)
  {
    if a.BeginCycle? {
      ReachableInv(c, s);
    } else {
      OthersOvertakeNothing(c, s, a);
    }
  }

  lemma OthersOvertakeNothing(c: Config, s: State, a: Action)
    requires Enabled(c, s, a) && !a.BeginCycle?
    ensures Next(c, s, a).overtook == s.overtook
  {
    match a
    case TriggerReturns(_) =>
    case ResponseSeen =>
    case TimeOut =>
    case DeliverError =>
    case CallbackSeen =>
    case Leave =>
    case DeviceCalls(_) =>
    case CallbackStarts =>
    case CallbackReturns =>
    case MarkCompleted =>
    case _ =>
  }

  /**
    Once a terminal error is decided no further frame is accepted; and no success callback starts,
    unless a trigger has overtaken the callback of a frame.
   */
  lemma NoSuccessAfterTerminal(c: Config, s: State, a: Action)
    requires Reachable(c, s) && Enabled(c, s, a) && s.terminal
    ensures Next(c, s, a).terminal && Next(c, s, a).accepted == s.accepted
    ensures !s.overtook ==> Next(c, s, a).successes == s.successes
  {
    if SchedulerStep(a) {
      SchedulerCountsNothing(c, s, a);
      TerminalStays(c, s, a);
    } else {
      ReachableInv(c, s);
      BackgroundAfterTerminal(c, s, a);
    }
  }

  lemma TerminalStays(c: Config, s: State, a: Action)
    requires Enabled(c, s, a) && SchedulerStep(a) && s.terminal
    ensures Next(c, s, a).terminal
  {
    match a
    case BeginCycle =>
    case TriggerReturns(_) =>
    case ResponseSeen =>
    case TimeOut =>
    case DeliverError =>
    case CallbackSeen =>
    case Leave =>
    case _ =>
  }

  lemma BackgroundAfterTerminal(c: Config, s: State, a: Action)
    requires TurnInv(s) && Enabled(c, s, a) && !SchedulerStep(a) && s.terminal
    ensures Next(c, s, a).terminal && Next(c, s, a).accepted == s.accepted
    ensures !s.overtook ==> Next(c, s, a).successes == s.successes
  {
    match a
    case DeviceCalls(_) =>
    case CallbackStarts =>
    case CallbackReturns =>
    case MarkCompleted =>
    case Tick =>
    case Activate =>
    case RequestStop =>
    case _ =>
  }

  // ---------------------------------------------------------------- exactly when success can follow a terminal error

  /** A run with a success callback that starts after a terminal error was decided. */
  ghost predicate SucceedsAfterTerminal(c: Config, s: State, run: seq<Action>)
    requires ValidRun(c, s, run)
    decreases |run|
  {
    run != [] && ((s.terminal && Next(c, s, run[0]).successes > s.successes)
                  || SucceedsAfterTerminal(c, Next(c, s, run[0]), run[1..]))
  }

  ghost predicate Fails(c: Config, s: State, run: seq<Action>) {
    ValidRun(c, s, run) && SucceedsAfterTerminal(c, s, run)
  }

  ghost predicate CanFail(c: Config, s: State) { exists run :: Fails(c, s, run) }

  /** From a state in step, with the first trigger issued, no run fails. */
  lemma {:induction false} StaysInStep(c: Config, s: State, run: seq<Action>)
    requires Reachable(c, s) && !s.overtook && (s.triggers != [] || Ending(s)) && ValidRun(c, s, run)
    ensures !SucceedsAfterTerminal(c, s, run)
    decreases |run|
  {
    if run != [] {
      var t := Then(c, s, run[0]);
      if s.terminal { NoSuccessAfterTerminal(c, s, run[0]); }
      if t.overtook { OnlyTheFirstTriggerOvertakes(c, s, run[0]); }
      StaysInStep(c, t, run[1..]);
    }
  }

  lemma FailsBefore(c: Config, s: State, a: Action, rest: seq<Action>) returns (run: seq<Action>)
    requires Enabled(c, s, a) && Fails(c, Next(c, s, a), rest)
    ensures Fails(c, s, run)
  {
    run := [a] + rest;
    assert run[1..] == rest;
  }

  /** A trigger fails while a frame waits for its callback: the success callback starts after the error. */
  lemma FailedTriggerFails(c: Config, s: State) returns (run: seq<Action>)
    requires s.scheduler.Triggering? && s.device == Admitted(true) && !s.responseArrived
    ensures Fails(c, s, run)
  {
    var t := Next(c, s, TriggerReturns(false));
    run := [CallbackStarts];
    assert run[1..] == [] && t.terminal && Next(c, t, CallbackStarts).successes > t.successes;
    run := FailsBefore(c, s, TriggerReturns(false), run);
  }

  /** The next trigger is issued, as soon as it is due, while a frame waits for its callback. */
  lemma DueTriggerFails(c: Config, s: State) returns (run: seq<Action>)
    requires s.scheduler.Pausing? && s.device == Admitted(true) && !Ending(s)
    ensures Fails(c, s, run)
    decreases s.responseTime + c.triggerInterval - s.now
  {
    if s.now >= s.responseTime + c.triggerInterval {
      run := FailedTriggerFails(c, Next(c, s, BeginCycle));
      run := FailsBefore(c, s, BeginCycle, run);
    } else {
      run := DueTriggerFails(c, Next(c, s, Tick));
      run := FailsBefore(c, s, Tick, run);
    }
  }

  /** The overtaken callback passes for the one of the next frame. */
  lemma StaleCompletionFails(c: Config, s: State) returns (run: seq<Action>)
    requires s.scheduler.Triggering? && s.device.Idle? && s.callbackCompleted && !s.responseArrived && !Ending(s)
    ensures Fails(c, s, run)
  {
    var s1 := Next(c, s, TriggerReturns(true));
    var s2 := Next(c, s1, DeviceCalls(true));
    var s3 := Next(c, s2, ResponseSeen);
    run := DueTriggerFails(c, Next(c, s3, CallbackSeen));
    run := FailsBefore(c, s3, CallbackSeen, run);
    run := FailsBefore(c, s2, ResponseSeen, run);
    run := FailsBefore(c, s1, DeviceCalls(true), run);
    run := FailsBefore(c, s, TriggerReturns(true), run);
  }

  lemma OvertakingFails(c: Config, s: State) returns (run: seq<Action>)
    requires s.scheduler.Triggering? && Busy(s) && !s.responseArrived && !Ending(s)
    ensures Fails(c, s, run)
    decreases DeviceRank(s.device)
  {
    if s.device.Admitted? {
      run := FailedTriggerFails(c, s);
    } else if s.device.InCallback? {
      run := OvertakingFails(c, Next(c, s, CallbackReturns));
      run := FailsBefore(c, s, CallbackReturns, run);
    } else {
      run := StaleCompletionFails(c, Next(c, s, MarkCompleted));
      run := FailsBefore(c, s, MarkCompleted, run);
    }
  }

  /**
    The exact condition: after a trigger a success callback can start behind a terminal error if and
    only if that trigger was issued while the callback of a frame was open.
   */
  lemma SuccessCanFollowIffOvertaken(c: Config, s: State, a: Action)
    requires Reachable(c, s) && !s.overtook && IssuesTrigger(c, s, a)
    ensures CanFail(c, Next(c, s, a)) <==> Busy(s)
  {
    var t := Then(c, s, a);
    if Busy(s) {
      var run := OvertakingFails(c, t);
    } else {
      forall run
        ensures !Fails(c, t, run)
      {
        if ValidRun(c, t, run) { StaysInStep(c, t, run); }
      }
    }
  }

  /** A run whose first trigger is issued while the callback of a frame is open. */
  lemma FirstTriggerCanOvertake(c: Config) returns (s: State)
    ensures Reachable(c, s) && IssuesTrigger(c, s, BeginCycle) && !s.overtook && s.triggers == []
    ensures s.device == Admitted(true)
  {
    s := Start(c);
    s := Then(c, s, DeviceCalls(true));
    s := Then(c, s, Activate);
  }

  /** A run in which a success callback starts after the terminal error of a failed trigger. */
  lemma SuccessAfterTerminalCanHappen(c: Config) returns (s: State)
    ensures Reachable(c, s) && s.terminal && Enabled(c, s, CallbackStarts)
    ensures Next(c, s, CallbackStarts).successes == s.successes + 1
  {
    s := FirstTriggerCanOvertake(c);
    s := Then(c, s, BeginCycle);
    s := Then(c, s, TriggerReturns(false));
  }

  /**
    One error is delivered for a terminal source, and a second one exactly when a software trigger
    failed after the device had reported an error of its own: that branch does not look at the
    terminal flag.
   */
  lemma ErrorsDelivered(c: Config, s: State)
    requires Reachable(c, s)
    ensures s.errors <= 1 + One(s.overlap)
    ensures s.scheduler.Done? && s.device.Idle? ==> s.errors == One(s.terminal) + One(s.overlap)
  {
    ReachableInv(c, s);
  }

  /** A missing response is reported only after the whole timeout has passed without one. */
  lemma TimeoutIsReal(c: Config, s: State, a: Action)
    requires Reachable(c, s) && Enabled(c, s, a) && Next(c, s, a).scheduler.DeliveringError?
    requires !s.scheduler.DeliveringError?
    ensures a == TriggerReturns(false) ||
      (a == TimeOut && !s.responseArrived && s.now >= s.scheduler.since + c.responseTimeout &&
          Next(c, s, a).errors == s.errors == 0)
  {
    ReachableInv(c, s);
  }

  lemma RunExtends(c: Config, s: State, run: seq<Action>, a: Action)
    requires ValidRun(c, s, run) && Enabled(c, After(c, s, run), a)
    ensures ValidRun(c, s, run + [a]) && After(c, s, run + [a]) == Next(c, After(c, s, run), a)
    decreases |run|
  {
    if run == [] {
      assert [a][1..] == [];
    } else {
      assert (run + [a])[0] == run[0] && (run + [a])[1..] == run[1..] + [a];
      RunExtends(c, Next(c, s, run[0]), run[1..], a);
    }
  }

  lemma Then(c: Config, s: State, a: Action) returns (t: State)
    requires Reachable(c, s) && Enabled(c, s, a)
    ensures t == Next(c, s, a) && Reachable(c, t)
  {
    var run :| ValidRun(c, Init(), run) && After(c, Init(), run) == s;
    RunExtends(c, Init(), run, a);
    t := Next(c, s, a);
  }

  lemma Start(c: Config) returns (s: State)
    ensures s == Init() && Reachable(c, s)
  {
    s := Init();
    var run: seq<Action> := [];
    assert ValidRun(c, s, run) && After(c, s, run) == s;
  }

  /** Two errors: the device reports one while the trigger call that will fail is still running. */
  lemma TwoErrorsCanBeDelivered(c: Config) returns (s: State)
    ensures Reachable(c, s) && s.errors == 2 && s.overlap && s.early == 0 && !s.overtook
  {
    s := Start(c);
    s := Then(c, s, Activate);
    s := Then(c, s, BeginCycle);
    s := Then(c, s, DeviceCalls(false));
    s := Then(c, s, CallbackStarts);
    s := Then(c, s, TriggerReturns(false));
    s := Then(c, s, DeliverError);
  }

  /** A frame from before the first trigger and the first response can be closer than the interval. */
  lemma EarlyFrameBreaksSpacing(c: Config) returns (s: State)
    requires c.triggerInterval > 0
    ensures Reachable(c, s) && s.early == 1 && |s.accepted| == 2
    ensures s.accepted[0] + c.triggerInterval > s.accepted[1]
  {
    s := Start(c);
    s := Then(c, s, DeviceCalls(true));
    s := Then(c, s, CallbackStarts);
    s := Then(c, s, CallbackReturns);
    s := Then(c, s, MarkCompleted);
    s := Then(c, s, Activate);
    s := Then(c, s, BeginCycle);
    s := Then(c, s, DeviceCalls(true));
  }

  // ---------------------------------------------------------------- the source comes to rest

  function Rank(s: Scheduler): nat {
    match s
    case AwaitStart => 6
    case Pausing => 6
    case Triggering => 9
    case AwaitResponse(_) => 8
    case AwaitCallback => 7
    case DeliveringError => 2
    case Leaving => 1
    case Done => 0
  }

  predicate SchedulerStep(a: Action) {
    a.BeginCycle? || a.TriggerReturns? || a.ResponseSeen? || a.TimeOut? || a.DeliverError? || a.CallbackSeen? ||
        a.Leave?
  }

  /** The steps of the device's thread inside a call. */
  predicate CallbackStep(a: Action) { a.CallbackStarts? || a.CallbackReturns? || a.MarkCompleted? }

  function DeviceRank(d: Device): nat {
    match d
    case Idle => 0
    case Admitted(_) => 3
    case InCallback(_) => 2
    case CallbackReturned(_) => 1
  }

  /** What is left of the current cycle and of the current device call. */
  function Work(s: State): nat { Rank(s.scheduler) + DeviceRank(s.device) }

  /** After a stop request or a terminal error every step of either thread lowers the work left. */
  lemma EndingStepLowersWork(c: Config, s: State, a: Action)
    requires Ending(s) && Enabled(c, s, a)
    ensures Ending(Next(c, s, a)) && Next(c, s, a).triggers == s.triggers && Next(c, s, a).accepted == s.accepted
    ensures if SchedulerStep(a) ||
        CallbackStep(a) then Work(Next(c, s, a)) < Work(s) else Work(Next(c, s, a)) == Work(s)
  {
    if SchedulerStep(a) {
      EndingSchedulerStep(c, s, a);
    } else {
      match a
      case DeviceCalls(_) =>
      case CallbackStarts =>
      case CallbackReturns =>
      case MarkCompleted =>
      case Tick =>
      case Activate =>
      case RequestStop =>
      case _ =>
    }
  }

  lemma EndingSchedulerStep(c: Config, s: State, a: Action)
    requires Ending(s) && Enabled(c, s, a) && SchedulerStep(a)
    ensures Ending(Next(c, s, a)) && Next(c, s, a).triggers == s.triggers && Next(c, s, a).device == s.device
    ensures Next(c, s, a).accepted == s.accepted
    ensures Rank(Next(c, s, a).scheduler) < Rank(s.scheduler)
  {
  }

  ghost function WorkSteps(run: seq<Action>): nat {
    if run == [] then 0 else One(SchedulerStep(run[0]) || CallbackStep(run[0])) + WorkSteps(run[1..])
  }

  /**
    Over every run from a stop request or a terminal error on: no trigger is issued and no frame accepted, and the two
    threads take no more steps than the work that was left, whatever the device and the clock do.
   */
  lemma {:induction false} EndingSourceFinishes(c: Config, s: State, run: seq<Action>)
    requires Ending(s) && ValidRun(c, s, run)
    ensures After(c, s, run).triggers == s.triggers && After(c, s, run).accepted == s.accepted
    ensures Ending(After(c, s, run))
    ensures WorkSteps(run) + Work(After(c, s, run)) <= Work(s)
    decreases |run|
  {
    if run != [] {
      EndingStepLowersWork(c, s, run[0]);
      EndingSourceFinishes(c, Next(c, s, run[0]), run[1..]);
    }
  }

  lemma EndingSourceIsNotStuck(c: Config, s: State) returns (a: Action)
    requires Reachable(c, s) && Ending(s) && !s.scheduler.Done?
    requires s.scheduler.AwaitStart? ==> s.activated || s.stopRequested // `start` sees to one of them
    ensures Enabled(c, s, a) && (SchedulerStep(a) || CallbackStep(a))
  {
    ReachableInv(c, s);
    if s.device.Admitted? {
      a := CallbackStarts;
    } else if s.device.InCallback? {
      a := CallbackReturns;
    } else if s.device.CallbackReturned? {
      a := MarkCompleted;
    } else if s.scheduler.AwaitStart? || s.scheduler.Pausing? {
      a := BeginCycle;
    } else if s.scheduler.Triggering? {
      a := TriggerReturns(true);
    } else if s.scheduler.AwaitResponse? {
      a := ResponseSeen;
    } else if s.scheduler.AwaitCallback? {
      a := CallbackSeen;
    } else if s.scheduler.DeliveringError? {
      a := DeliverError;
    } else {
      a := Leave;
    }
  }
}
