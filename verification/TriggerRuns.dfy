/**
  What happens to the timed trigger source along a run: a cycle that goes well, a stop, an error; exactly
  when two accepted frames can be closer than the interval, and exactly when two errors are delivered.
 */
module TriggerRuns {
  import opened Core
  import opened TimedTrigger
  import opened TriggerTheorems

  // ---------------------------------------------------------------- the interval between accepted frames

  /** A run after which some two consecutive accepted frames are closer than the interval. */
  ghost predicate BreaksSpacing(c: Config, s: State, run: seq<Action>) {
    ValidRun(c, s, run) && !Spaced(After(c, s, run).accepted, 0, c.triggerInterval)
  }

  ghost predicate CanBreakSpacing(c: Config, s: State) { exists run :: BreaksSpacing(c, s, run) }

  /** `t` comes after a trigger issued in `s`: what was accepted since is no earlier than the trigger. */
  ghost predicate Since(s: State, t: State) {
    && s.now <= t.now && t.triggers != []
    && s.accepted <= t.accepted && t.early == s.early
    && forall i :: |s.accepted| <= i < |t.accepted| ==> s.now <= t.accepted[i]
  }

  lemma SinceStep(c: Config, s: State, t: State, a: Action)
    requires Since(s, t) && Enabled(c, t, a)
    ensures Since(s, Next(c, t, a))
  {
    match a
    case Tick =>
    case Activate =>
    case RequestStop =>
    case BeginCycle =>
    case TriggerReturns(_) =>
    case ResponseSeen =>
    case TimeOut =>
    case DeliverError =>
    case CallbackSeen =>
    case Leave =>
    case DeviceCalls(_) =>
    case CallbackStarts =>
    case CallbackReturns =>
    case MarkCompleted =>
  }

  lemma {:induction false} SinceRun(c: Config, s: State, t: State, run: seq<Action>)
    requires Since(s, t) && ValidRun(c, t, run)
    ensures Since(s, After(c, t, run))
    decreases |run|
  {
    if run != [] {
      SinceStep(c, s, t, run[0]);
      SinceRun(c, s, Next(c, t, run[0]), run[1..]);
    }
  }

  /** Unless the early frame is closer to the first trigger than the interval, every run keeps it. */
  lemma FarFrameKeepsSpacing(c: Config, s: State, run: seq<Action>)
    requires Inv(c, s) && IssuesTrigger(c, s, BeginCycle) && s.triggers == []
    requires s.early == 0 || s.accepted[0] + c.triggerInterval <= s.now
    requires ValidRun(c, Next(c, s, BeginCycle), run)
    ensures Spaced(After(c, Next(c, s, BeginCycle), run).accepted, 0, c.triggerInterval)
  {
    var t := Next(c, s, BeginCycle);
    RunKeepsInv(c, s, [BeginCycle] + run) by {
      assert ([BeginCycle] + run)[1..] == run;
    }
    SinceRun(c, s, t, run);
  }

  /** The first response can come at once: the device ends its call and delivers the next frame. */
  lemma ResponseComesAtOnce(c: Config, s: State) returns (run: seq<Action>)
    requires !Ending(s) && !s.responseArrived
    requires |s.accepted| == 1 && s.now < s.accepted[0] + c.triggerInterval
    ensures BreaksSpacing(c, s, run)
    decreases DeviceRank(s.device)
  {
    var a := if s.device.Idle? then DeviceCalls(true) else if s.device.Admitted? then CallbackStarts
             else if s.device.InCallback? then CallbackReturns else MarkCompleted;
    var t := Next(c, s, a);
    var rest: seq<Action> := [];
    if s.device.Idle? {
      assert t.accepted[0] + c.triggerInterval > t.accepted[1];
    } else {
      rest := ResponseComesAtOnce(c, t);
    }
    run := [a] + rest;
    assert run[1..] == rest;
  }

  /**
    The exact condition: from the first trigger on, some run accepts two consecutive frames closer than
    the interval if and only if a frame came before that trigger and less than the interval before it.
   */
  lemma SpacingCanBreakIffEarlyFrameIsNear(c: Config, s: State)
    requires Reachable(c, s) && IssuesTrigger(c, s, BeginCycle) && s.triggers == []
    ensures CanBreakSpacing(c, Next(c, s, BeginCycle)) <==>
      s.early == |s.accepted| == 1 && s.now < s.accepted[0] + c.triggerInterval
  {
    ReachableInv(c, s);
    var t := Next(c, s, BeginCycle);
    if s.early == 1 && s.now < s.accepted[0] + c.triggerInterval {
      var run := ResponseComesAtOnce(c, t);
    } else {
      forall run
        ensures !BreaksSpacing(c, t, run)
      {
        if ValidRun(c, t, run) { FarFrameKeepsSpacing(c, s, run); }
      }
    }
  }

  // ---------------------------------------------------------------- two errors

  /** In some step of the run a trigger fails in a terminal source that has no response. */
  ghost predicate TriggerFailsAfterError(c: Config, s: State, run: seq<Action>)
    requires ValidRun(c, s, run)
    decreases |run|
  {
    run != [] && ((run[0] == TriggerReturns(false) && s.terminal && !s.responseArrived)
                  || TriggerFailsAfterError(c, Next(c, s, run[0]), run[1..]))
  }

  /** How `overlap` comes about: in this one step. */
  lemma OverlapIsAFailedTrigger(c: Config, s: State, a: Action)
    requires Enabled(c, s, a)
    ensures Next(c, s, a).overlap <==>
      s.overlap || (a == TriggerReturns(false) && s.terminal && !s.responseArrived)
  {
    match a
    case Tick =>
    case Activate =>
    case RequestStop =>
    case BeginCycle =>
    case TriggerReturns(_) =>
    case ResponseSeen =>
    case TimeOut =>
    case DeliverError =>
    case CallbackSeen =>
    case Leave =>
    case DeviceCalls(_) =>
    case CallbackStarts =>
    case CallbackReturns =>
    case MarkCompleted =>
  }

  lemma {:induction false} OverlapOverRuns(c: Config, s: State, run: seq<Action>)
    requires ValidRun(c, s, run)
    ensures After(c, s, run).overlap <==> s.overlap || TriggerFailsAfterError(c, s, run)
    decreases |run|
  {
    if run != [] {
      OverlapIsAFailedTrigger(c, s, run[0]);
      OverlapOverRuns(c, Next(c, s, run[0]), run[1..]);
    }
  }

  /**
    Over every run: a source that has ended has delivered one error if it is terminal, and a second one
    if and only if in some step a trigger failed after the source was terminal, without a response.
   */
  lemma TwoErrorsIffATriggerFailedLate(c: Config, run: seq<Action>)
    requires ValidRun(c, Init(), run)
    ensures
      var t := After(c, Init(), run);
      && (t.errors > 1 ==> TriggerFailsAfterError(c, Init(), run))
      && (t.scheduler.Done? && t.device.Idle? ==>
            t.errors == One(t.terminal) + One(TriggerFailsAfterError(c, Init(), run)))
  {
    OverlapOverRuns(c, Init(), run);
    ErrorsDelivered(c, After(c, Init(), run));
  }

  // ---------------------------------------------------------------- a cycle that goes well

  /** Runs of literal steps are valid when every step is, one after the other. */
  lemma Before(c: Config, s: State, a: Action, rest: seq<Action>) returns (run: seq<Action>)
    requires Enabled(c, s, a) && ValidRun(c, Next(c, s, a), rest)
    ensures ValidRun(c, s, run) && After(c, s, run) == After(c, Next(c, s, a), rest) && run == [a] + rest
  {
    run := [a] + rest;
    assert run[1..] == rest;
  }

  /** The device delivers one frame or error, through its callback to the end. */
  lemma DeviceDelivers(c: Config, s: State, good: bool) returns (run: seq<Action>)
    requires s.device.Idle? && !Ending(s) && (good ==> !s.responseArrived)
    ensures ValidRun(c, s, run)
    ensures
      var t := After(c, s, run);
      && t.device.Idle? && t.callbackCompleted && t.scheduler == s.scheduler && t.now == s.now
      && t.stopRequested == s.stopRequested && t.triggers == s.triggers && t.activated == s.activated
      && (good ==>
           && t.accepted == s.accepted + [s.now] && t.successes == s.successes + 1 && t.returned == s.returned + 1
           && t.responseArrived && t.responseTime == s.now && t.errors == s.errors && !t.terminal)
      && (!good ==>
           && t.accepted == s.accepted && t.successes == s.successes && t.returned == s.returned
           && t.errors == s.errors + 1 && t.terminal)
  {
    var s1 := Next(c, s, DeviceCalls(good));
    var s2 := Next(c, s1, CallbackStarts);
    var s3 := Next(c, s2, CallbackReturns);
    assert s1.device == Admitted(good) && s2.device == InCallback(good) && s3.device == CallbackReturned(good);
    var none: seq<Action> := [];
    run := Before(c, s3, MarkCompleted, none);
    run := Before(c, s2, CallbackReturns, run);
    run := Before(c, s1, CallbackStarts, run);
    run := Before(c, s, DeviceCalls(good), run);
  }

  lemma RunsCompose(c: Config, s: State, first: seq<Action>, second: seq<Action>)
    requires ValidRun(c, s, first) && ValidRun(c, After(c, s, first), second)
    ensures ValidRun(c, s, first + second)
    ensures After(c, s, first + second) == After(c, After(c, s, first), second)
    decreases |first|
  {
    if first == [] {
      assert first + second == second;
    } else {
      assert (first + second)[1..] == first[1..] + second;
      RunsCompose(c, Next(c, s, first[0]), first[1..], second);
    }
  }

  /** A source that is waiting out its pause, its device at rest. */
  predicate AtEase(s: State) { s.scheduler.Pausing? && s.device.Idle? && !Ending(s) }

  /** `t` is one cycle after `s`: one trigger, one frame accepted, one callback, no error. */
  predicate OneCycleOn(s: State, t: State) {
    && AtEase(t) && t.triggers == s.triggers + [t.now] && t.accepted == s.accepted + [t.now] && t.responseTime == t.now
    && t.successes == s.successes + 1 && t.returned == s.returned + 1 && t.errors == s.errors
  }

  /** A cycle whose device answers at once. */
  lemma CycleDeliversAFrame(c: Config, s: State) returns (run: seq<Action>)
    requires s.device.Idle? && !Ending(s)
    requires (s.scheduler.AwaitStart? && s.activated) ||
             (s.scheduler.Pausing? && s.now >= s.responseTime + c.triggerInterval)
    ensures ValidRun(c, s, run) && OneCycleOn(s, After(c, s, run)) && After(c, s, run).now == s.now
  {
    var s1 := Next(c, s, BeginCycle);
    var s2 := Next(c, s1, TriggerReturns(true));
    var delivery := DeviceDelivers(c, s2, true);
    var s3 := After(c, s2, delivery);
    var s4 := Next(c, s3, ResponseSeen);
    var none: seq<Action> := [];
    run := Before(c, s4, CallbackSeen, none);
    run := Before(c, s3, ResponseSeen, run);
    RunsCompose(c, s2, delivery, run);
    run := delivery + run;
    run := Before(c, s1, TriggerReturns(true), run);
    run := Before(c, s, BeginCycle, run);
  }

  /** The clock moves to the end of the pause. */
  lemma PauseEnds(c: Config, s: State) returns (run: seq<Action>)
    requires AtEase(s)
    ensures ValidRun(c, s, run)
    ensures
      var t := After(c, s, run);
      t == s.(now := if s.now >= s.responseTime + c.triggerInterval then s.now else s.responseTime + c.triggerInterval)
    decreases s.responseTime + c.triggerInterval - s.now
  {
    if s.now >= s.responseTime + c.triggerInterval {
      run := [];
    } else {
      run := PauseEnds(c, Next(c, s, Tick));
      run := Before(c, s, Tick, run);
    }
  }

  /** `times` goes on from `from` in steps of the interval. */
  ghost predicate Periodic(times: seq<nat>, from: nat, interval: nat) {
    forall i :: 0 <= i < |times| ==> times[i] == from + (i + 1) * interval
  }

  /**
    A healthy source never runs dry: for every n there is a run with n triggers, n accepted frames and n
    callbacks, exactly the interval apart, and no error.
   */
  lemma CyclesGoOn(c: Config, s: State, n: nat) returns (run: seq<Action>, times: seq<nat>)
    requires AtEase(s) && s.now == s.responseTime
    ensures ValidRun(c, s, run) && |times| == n && Periodic(times, s.now, c.triggerInterval)
    ensures
      var t := After(c, s, run);
      && AtEase(t) && t.now == t.responseTime == s.now + n * c.triggerInterval
      && t.triggers == s.triggers + times && t.accepted == s.accepted + times
      && t.successes == s.successes + n && t.returned == s.returned + n && t.errors == s.errors
  {
    if n == 0 {
      run, times := [], [];
    } else {
      var before, first := CyclesGoOn(c, s, n - 1);
      var s1 := After(c, s, before);
      var pause := PauseEnds(c, s1);
      var s2 := After(c, s1, pause);
      var cycle := CycleDeliversAFrame(c, s2);
      RunsCompose(c, s1, pause, cycle);
      RunsCompose(c, s, before, pause + cycle);
      run := before + (pause + cycle);
      times := first + [s2.now];
      assert n * c.triggerInterval == (n - 1) * c.triggerInterval + c.triggerInterval;
    }
  }

  /** And it gets there: an activated source has such a run from its start. */
  lemma HealthySourceGoesOn(c: Config, n: nat) returns (run: seq<Action>)
    ensures ValidRun(c, Init(), run)
    ensures
      var t := After(c, Init(), run);
      && |t.triggers| == |t.accepted| == t.successes == t.returned == n + 1 && t.errors == 0 && t.triggers == t.accepted
      && forall i :: 0 <= i <= n ==> t.triggers[i] == i * c.triggerInterval
  {
    var s1 := Next(c, Init(), Activate);
    var cycle := CycleDeliversAFrame(c, s1);
    var s2 := After(c, s1, cycle);
    var others, times := CyclesGoOn(c, s2, n);
    RunsCompose(c, s1, cycle, others);
    run := Before(c, Init(), Activate, cycle + others);
    assert s2.triggers == s2.accepted == [0];
  }

  // ---------------------------------------------------------------- a stop, a missing response, a failed trigger

  /**
    `requestStop` ends the source: along every run from it no trigger is issued and no frame accepted, and
    the two threads take no more steps than the work that was left.
   */
  lemma StopEndsTheSource(c: Config, s: State, run: seq<Action>)
    requires ValidRun(c, Next(c, s, RequestStop), run)
    ensures
      var t := After(c, Next(c, s, RequestStop), run);
      t.triggers == s.triggers && t.accepted == s.accepted && WorkSteps(run) + Work(t) <= Work(s)
  {
    EndingSourceFinishes(c, Next(c, s, RequestStop), run);
  }

  /** A stopped scheduler waits for nothing any more: from each of its waits its next step is to leave. */
  lemma StoppedSchedulerLeaves(c: Config, s: State) returns (a: Action)
    requires s.stopRequested
    requires s.scheduler.AwaitStart? || s.scheduler.AwaitResponse? || s.scheduler.AwaitCallback? || s.scheduler.Pausing?
    ensures SchedulerStep(a) && Enabled(c, s, a) && Next(c, s, a) == s.(scheduler := Leaving)
  {
    a := if s.scheduler.AwaitResponse? then ResponseSeen else if s.scheduler.AwaitCallback? then CallbackSeen
         else BeginCycle;
  }

  /** Until the next trigger, a wait for a response goes on from the moment the trigger call returned. */
  ghost predicate WaitsSince(s: State, since: nat) {
    !s.scheduler.Triggering? && (s.scheduler.AwaitResponse? ==> s.scheduler.since == since)
  }

  lemma WaitingStep(c: Config, s: State, a: Action, since: nat)
    requires WaitsSince(s, since) && Enabled(c, s, a) && !a.BeginCycle?
    ensures WaitsSince(Next(c, s, a), since)
  {
    match a
    case Tick =>
    case Activate =>
    case RequestStop =>
    case TriggerReturns(_) =>
    case ResponseSeen =>
    case TimeOut =>
    case DeliverError =>
    case CallbackSeen =>
    case Leave =>
    case DeviceCalls(_) =>
    case CallbackStarts =>
    case CallbackReturns =>
    case MarkCompleted =>
    case _ =>
  }

  lemma {:induction false} WaitingRun(c: Config, s: State, run: seq<Action>, since: nat)
    requires WaitsSince(s, since) && ValidRun(c, s, run) && BeginCycle !in run
    ensures WaitsSince(After(c, s, run), since)
    decreases |run|
  {
    if run != [] {
      assert run == [run[0]] + run[1..];
      WaitingStep(c, s, run[0], since);
      WaitingRun(c, Next(c, s, run[0]), run[1..], since);
    }
  }

  /**
    The timeout is counted from the return of the trigger call: along every run of the same cycle, a scheduler
    still waiting can time out if and only if the whole timeout has passed since then, without a response.
   */
  lemma TimeoutRunsFromTheTrigger(c: Config, s: State, succeeded: bool, run: seq<Action>)
    requires s.scheduler.Triggering? && (succeeded || s.responseArrived)
    requires ValidRun(c, Next(c, s, TriggerReturns(succeeded)), run) && BeginCycle !in run
    ensures
      var t := After(c, Next(c, s, TriggerReturns(succeeded)), run);
      t.scheduler.AwaitResponse? ==>
        (Enabled(c, t, TimeOut) <==> t.now >= s.now + c.responseTimeout && !t.responseArrived && !Ending(t))
  {
    WaitingRun(c, Next(c, s, TriggerReturns(succeeded)), run, s.now);
  }

  /** A cycle without a response ends the source with one error, once the timeout has passed. */
  lemma MissingResponseEndsTheSource(c: Config, s: State) returns (run: seq<Action>)
    requires s.scheduler.AwaitResponse? && !s.responseArrived && !Ending(s)
    requires s.now >= s.scheduler.since + c.responseTimeout
    ensures ValidRun(c, s, run)
    ensures var t := After(c, s, run); t.scheduler.Done? && t.terminal && t.errors == s.errors + 1
  {
    var s1 := Next(c, s, TimeOut);
    run := ErrorIsDelivered(c, s1);
    run := Before(c, s, TimeOut, run);
  }

  /** So does a software trigger that fails before there is a response; one that fails after it is ignored. */
  lemma FailedTriggerEndsTheSource(c: Config, s: State) returns (run: seq<Action>)
    requires s.scheduler.Triggering?
    ensures s.responseArrived ==> Next(c, s, TriggerReturns(false)) == Next(c, s, TriggerReturns(true))
    ensures ValidRun(c, s, run)
    ensures !s.responseArrived ==>
              var t := After(c, s, run); t.scheduler.Done? && t.terminal && t.errors == s.errors + 1
  {
    run := [];
    if !s.responseArrived {
      run := ErrorIsDelivered(c, Next(c, s, TriggerReturns(false)));
      run := Before(c, s, TriggerReturns(false), run);
    }
  }

  lemma ErrorIsDelivered(c: Config, s: State) returns (run: seq<Action>)
    requires s.scheduler.DeliveringError?
    ensures ValidRun(c, s, run)
    ensures
      var t := After(c, s, run);
      t.scheduler.Done? && t.terminal == s.terminal && t.errors == s.errors + 1
  {
    var none: seq<Action> := [];
    var s1 := Next(c, s, DeliverError);
    run := Before(c, s1, Leave, none);
    run := Before(c, s, DeliverError, run);
  }

  /** Up to the end of the scheduler's wait for the callback. */
  ghost predicate AwaitsCallback(s: State) {
    || s.callbackCompleted
    || (!s.stopRequested && s.terminal && (s.scheduler.AwaitResponse? || s.scheduler.AwaitCallback?))
  }

  lemma AwaitingStep(c: Config, s: State, a: Action)
    requires AwaitsCallback(s) && s.terminal && Enabled(c, s, a) && a != RequestStop
    ensures AwaitsCallback(Next(c, s, a)) && Next(c, s, a).terminal
  {
    match a
    case Tick =>
    case Activate =>
    case BeginCycle =>
    case TriggerReturns(_) =>
    case ResponseSeen =>
    case TimeOut =>
    case DeliverError =>
    case CallbackSeen =>
    case Leave =>
    case DeviceCalls(_) =>
    case CallbackStarts =>
    case CallbackReturns =>
    case MarkCompleted =>
    case _ =>
  }

  /**
    A scheduler that waits for a response when the source becomes terminal leaves, unless it is stopped,
    only after a callback of this cycle has been completed.
   */
  lemma {:induction false} LeavesAfterTheCallback(c: Config, s: State, run: seq<Action>)
    requires s.scheduler.AwaitResponse? || s.scheduler.AwaitCallback? || s.callbackCompleted
    requires s.terminal && (!s.stopRequested || s.callbackCompleted)
    requires ValidRun(c, s, run) && RequestStop !in run
    ensures
      var t := After(c, s, run);
      t.scheduler.Leaving? || t.scheduler.Done? ==> t.callbackCompleted
    decreases |run|
  {
    if run != [] {
      AwaitingStep(c, s, run[0]);
      assert run == [run[0]] + run[1..];
      LeavesAfterTheCallback(c, Next(c, s, run[0]), run[1..]);
    }
  }
}
