/** Stopping the serial executor drains it. */
module SerialDrain {
  import opened Core
  import opened Stages
  import opened Tasks
  import opened BoundedFifo
  import opened ExecutorParts
  import opened SerialExecutor

  predicate OwnStep(a: Action) { a.WakeSubmitter? || a.RunnerStep? || a.DispStep? || a.WaiterStep? }

  ghost function RunnerWork(t: Runner): nat {
    match t
    case Waiting => 2
    case Check(_) => 13
    case Mark(_) => 12
    case Execute(_) => 11
    case Recheck(_, _) => 10
    case Dispatch(_, _) => 9
    case Reset => 3
    case Done => 0
  }

  ghost function Measure(s: State): nat {
    |s.blocked| + 12 * |s.queue| + RunnerWork(s.runner) + 4 * |s.completions.items| + DispWork(s.disp)
    + WaiterWork(s.waiter)
  }

  lemma RunnerLowersMeasure(c: Config, s: State)
    requires RunnerReady(s)
    ensures Measure(RunnerNext(c, s)) < Measure(s)
  {
    match s.runner
    case Waiting =>
    case Check(_) =>
    case Mark(_) =>
    case Execute(_) =>
    case Recheck(_, _) =>
    case Dispatch(_, _) =>
    case Reset =>
  }

  lemma OwnStepLowersMeasure(c: Config, s: State, a: Action)
    requires s.stopRequested && !s.accepting && OwnStep(a) && Enabled(c, s, a)
    ensures Measure(Next(c, s, a)) < Measure(s)
  {
    match a
    case WakeSubmitter(_) =>
    case RunnerStep => RunnerLowersMeasure(c, s);
    case DispStep => DispLowersMeasure(s);
    case WaiterStep =>
    case _ =>
  }

  lemma DispLowersMeasure(s: State)
    requires DispReady(s)
    ensures Measure(DispNext(s)) < Measure(s)
  {
    match s.disp
    case DispPop =>
    case DispStore(_, _) =>
    case DispPromise(_, _) =>
    case DispCallback =>
  }

  lemma OutsideCannotRaiseMeasure(c: Config, s: State, a: Action)
    requires s.stopRequested && !s.accepting && !OwnStep(a) && Enabled(c, s, a)
    ensures Measure(Next(c, s, a)) <= Measure(s)
  {
  }

  lemma StopIsForGood(c: Config, s: State, a: Action)
    requires s.stopRequested && Enabled(c, s, a)
    ensures Next(c, s, a).stopRequested
  {
    match a
    case Submit(_) =>
    case RequestStop(_) =>
    case Cancel(_) =>
    case StartWait =>
    case WakeSubmitter(_) =>
    case RunnerStep => RunnerKeepsStop(c, s);
    case DispStep =>
    case WaiterStep =>
  }

  lemma RunnerKeepsStop(c: Config, s: State)
    requires RunnerReady(s)
    ensures RunnerNext(c, s).stopRequested == s.stopRequested
  {
  }

  ghost function OwnSteps(run: seq<Action>): nat {
    if run == [] then 0 else One(OwnStep(run[0])) + OwnSteps(run[1..])
  }

  lemma StepsAfterStopAreBounded(c: Config, s: State, run: seq<Action>)
    requires Inv(c, s) && s.stopRequested && ValidRun(c, s, run)
    ensures Inv(c, After(c, s, run)) && After(c, s, run).stopRequested
    ensures OwnSteps(run) + Measure(After(c, s, run)) <= Measure(s)
    decreases |run|
  {
    if run != [] {
      var a := run[0];
      if OwnStep(a) {
        OwnStepLowersMeasure(c, s, a);
      } else {
        OutsideCannotRaiseMeasure(c, s, a);
      }
      StopIsForGood(c, s, a);
      StepKeepsInv(c, s, a);
      StepsAfterStopAreBounded(c, Next(c, s, a), run[1..]);
    }
  }

  ghost predicate AtRest(s: State) {
    && s.blocked == [] && s.runner.Done? && s.completions.items == [] && (s.disp.DispPop? || s.disp.DispDone?)
    && (s.waiter.NotWaiting? || s.waiter.WaitReturned?)
  }

  lemma SomeoneCanMove(c: Config, s: State) returns (a: Action)
    requires Inv(c, s) && s.stopRequested && !AtRest(s)
    ensures OwnStep(a) && Enabled(c, s, a)
  {
    if s.blocked != [] {
      a := WakeSubmitter(0);
    } else if RunnerReady(s) {
      a := RunnerStep;
    } else if DispHolds(s.disp) {
      assert OneTaskInv(c, s, s.disp.id, s.tasks[s.disp.id]);
      a := DispStep;
    } else if DispReady(s) {
      a := DispStep;
    } else {
      a := WaiterStep;
    }
  }

  ghost predicate Settled(c: Config, s: State) { forall a :: OwnStep(a) ==> !Enabled(c, s, a) }

  /**
    The drain theorem of the serial executor: after a stop its own steps are bounded, and when none is
    left every thread has ended and every accepted task has been delivered.
   */
  lemma StopDrains(c: Config, s: State, run: seq<Action>)
    requires Reachable(c, s) && s.stopRequested && ValidRun(c, s, run)
    ensures OwnSteps(run) <= Measure(s)
    ensures
      var t := After(c, s, run);
      Settled(c, t) ==>
        AtRest(t) && t.delivered == Upto(|t.packets|) && |t.tasks| == |t.packets|
        && forall id :: 0 <= id < |t.tasks| ==> t.tasks[id].promise.Some?
  {
    ReachableInv(c, s);
    StepsAfterStopAreBounded(c, s, run);
    var t := After(c, s, run);
    if Settled(c, t) {
      if !AtRest(t) {
        var a := SomeoneCanMove(c, t);
      }
      forall id | 0 <= id < |t.tasks|
        ensures t.tasks[id].promise.Some?
      {
        assert OneTaskInv(c, t, id, t.tasks[id]);
      }
    }
  }
}
