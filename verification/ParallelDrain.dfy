/**
  Stopping the parallel executor drains it: after any stop request its own steps are bounded in
  number, and it can only come to rest with every thread ended and every accepted task completed.
 */
module ParallelDrain {
  import opened Core
  import opened Stages
  import opened Tasks
  import opened BoundedFifo
  import opened ExecutorParts
  import opened ParallelExecutor
  import opened ParallelInvariant
  import opened ParallelTheorems

  // ---------------------------------------------------------------- a measure of the work left

  ghost function InfWork(t: InferenceThread): nat {
    match t
    case InfPop => 2
    case InfCheck(_, _) => 15
    case InfRun(_, _) => 14
    case InfRecheck(_, _) => 13
    case InfPush(_, _) => 12
    case InfClose => 1
    case InfDone => 0
  }

  ghost function PostWork(t: PostprocessThread): nat {
    match t
    case PostPop => 1
    case PostCheck(_, _) => 9
    case PostRun(_, _) => 8
    case PostRecheck(_, _) => 7
    case PostDispatch(_, _) => 6
    case PostDone => 0
  }

  /** Each place weighs the steps a task still needs from there. */
  ghost function Measure(s: State): nat {
    |s.blocked| + 21 * |s.entry| + PreWork(s.pre, 14) + 14 * |s.preprocessQueue.items| + InfWork(s.inf)
    + 9 * |s.inferenceQueue.items| + PostWork(s.post) + 4 * |s.completions.items| + DispWork(s.disp)
    + WaiterWork(s.waiter)
  }

  lemma PreLowersMeasure(c: Config, s: State)
    requires PreReady(s)
    ensures Measure(PreNext(c, s)) < Measure(s)
  {
    if s.pre.PreWaiting? || s.pre.PrePush? || s.pre.PreClose? {
      PreMoveLowersMeasure(c, s);
    } else {
      PreStayLowersWork(c, s);
    }
  }

  lemma PreStayLowersWork(c: Config, s: State)
    requires PreReady(s) && !s.pre.PreWaiting? && !s.pre.PrePush? && !s.pre.PreClose?
    ensures
      var t := PreNext(c, s);
      && t.blocked == s.blocked && t.entry == s.entry && t.preprocessQueue == s.preprocessQueue
      && t.inf == s.inf && t.inferenceQueue == s.inferenceQueue && t.post == s.post
      && t.completions == s.completions && t.disp == s.disp && t.waiter == s.waiter
      && PreWork(t.pre, 14) < PreWork(s.pre, 14)
  {
    PreTouches(c, s);
    PreStaysInPlace(c, s);
  }

  lemma PreMoveLowersMeasure(c: Config, s: State)
    requires PreReady(s) && (s.pre.PreWaiting? || s.pre.PrePush? || s.pre.PreClose?)
    ensures Measure(PreNext(c, s)) < Measure(s)
  {
  }

  lemma InfLowersMeasure(c: Config, s: State)
    requires InfReady(s)
    ensures Measure(InfNext(c, s)) < Measure(s)
  {
  }

  lemma PostLowersMeasure(c: Config, s: State)
    requires PostReady(s)
    ensures Measure(PostNext(c, s)) < Measure(s)
  {
  }

  lemma OwnStepLowersMeasure(c: Config, s: State, a: Action)
    requires ControlInv(c, s) && s.stopRequested && OwnStep(a) && Enabled(c, s, a)
    ensures Measure(Next(c, s, a)) < Measure(s)
  {
    if a.PreStep? {
      PreLowersMeasure(c, s);
    } else if a.InfStep? {
      InfLowersMeasure(c, s);
    } else if a.PostStep? {
      PostLowersMeasure(c, s);
    }
  }

  lemma StopIsForGood(c: Config, s: State, a: Action)
    requires s.stopRequested && Enabled(c, s, a)
    ensures Next(c, s, a).stopRequested
  {
    match a
    case Submit(_) =>
    case RequestStop(_) =>
    case Cancel(_) =>
    case StartWait =>
    case WakeSubmitter(_) =>
    case WaiterStep =>
    case PreStep =>
    case InfStep =>
    case PostStep =>
    case DispStep =>
  }

  lemma OutsideCannotRaiseMeasure(c: Config, s: State, a: Action)
    requires ControlInv(c, s) && s.stopRequested && !OwnStep(a) && Enabled(c, s, a)
    ensures Measure(Next(c, s, a)) <= Measure(s)
  {
  }

  ghost function OwnSteps(run: seq<Action>): nat {
    if run == [] then 0 else (if OwnStep(run[0]) then 1 else 0) + OwnSteps(run[1..])
  }

  /** However submitters, cancellers and further stop requests interfere, the steps left are bounded. */
  lemma StepsAfterStopAreBounded(c: Config, s: State, run: seq<Action>)
    requires PlacesInv(c, s) && s.stopRequested && ValidRun(c, s, run)
    ensures After(c, s, run).stopRequested
    ensures OwnSteps(run) + Measure(After(c, s, run)) <= Measure(s)
    decreases |run|
  {
    if run != [] {
      var a := run[0];
      if OwnStep(a) {
        OwnStepLowersMeasure(c, s, a);
      } else {
        OutsideCannotRaiseMeasure(c, s, a);
      }
      StopIsForGood(c, s, a);
      StepKeepsPlaces(c, s, a);
      StepsAfterStopAreBounded(c, Next(c, s, a), run[1..]);
    }
  }

  // ---------------------------------------------------------------- never stuck

  /** Every thread has ended (the dispatcher only when somebody waits) and nobody sleeps. */
  ghost predicate AtRest(s: State) {
    && s.blocked == []
    && s.pre.PreDone? && s.inf.InfDone? && s.post.PostDone?
    && s.completions.items == [] && (s.disp.DispPop? || s.disp.DispDone?)
    && (s.waiter.NotWaiting? || s.waiter.WaitReturned?)
  }

  /**
    While a task is undelivered, or a stop has not been carried through, some thread can move: with
    all queues full and submitters asleep as well, stopped or not.
   */
  lemma SomeoneCanMove(c: Config, s: State) returns (a: Action)
    requires PlacesInv(c, s)
    requires |s.delivered| < |s.tasks| || (s.stopRequested && !AtRest(s))
    ensures OwnStep(a) && Enabled(c, s, a)
  {
    if s.blocked != [] && !s.accepting {
      a := WakeSubmitter(0);
    } else if PreReady(s) {
      a := PreStep;
    } else if InfReady(s) {
      a := InfStep;
    } else if PostReady(s) {
      a := PostStep;
    } else if DispReady(s) {
      a := DispStep;
    } else {
      a := WaiterStep;
    }
  }

  /** At rest every accepted task has been completed, in order. */
  lemma RestMeansAllCompleted(c: Config, s: State)
    requires Reachable(c, s) && AtRest(s)
    ensures s.delivered == Upto(|s.packets|) && |s.tasks| == |s.packets|
    ensures forall id :: 0 <= id < |s.tasks| ==> s.tasks[id].promise.Some?
  {
    ReachablePlaces(c, s);
  }

  ghost predicate Settled(c: Config, s: State) { forall a :: OwnStep(a) ==> !Enabled(c, s, a) }

  lemma ReachableRun(c: Config, s: State, run: seq<Action>)
    requires Reachable(c, s) && ValidRun(c, s, run)
    ensures Reachable(c, After(c, s, run))
  {
    var first :| ValidRun(c, Init(c), first) && After(c, Init(c), first) == s;
    RunsCompose(c, Init(c), first, run);
  }

  lemma RunsCompose(c: Config, s: State, first: seq<Action>, second: seq<Action>)
    requires ValidRun(c, s, first) && ValidRun(c, After(c, s, first), second)
    ensures ValidRun(c, s, first + second)
    ensures After(c, s, first + second) == After(c, After(c, s, first), second)
    decreases |first|
  {
    if first == [] {
      assert first + second == second;
    } else {
      assert (first + second)[1..] == first[1..] + second;
      RunsCompose(c, Next(c, s, first[0]), first[1..], second);
    }
  }

  /**
    The drain theorem: from any reachable state in which a stop has been requested, every run has a
    bounded number of executor steps, and when none is left every thread has ended, every accepted
    task is completed, nobody sleeps in submit, and a call of wait has returned.
   */
  lemma StopDrains(c: Config, s: State, run: seq<Action>)
    requires Reachable(c, s) && s.stopRequested && ValidRun(c, s, run)
    ensures OwnSteps(run) <= Measure(s)
    ensures
      var t := After(c, s, run);
      Settled(c, t) ==>
        && AtRest(t)
        && t.delivered == Upto(|t.packets|)
        && |t.tasks| == |t.packets|
        && (forall id :: 0 <= id < |t.tasks| ==> t.tasks[id].promise.Some?)
  {
    ReachablePlaces(c, s);
    StepsAfterStopAreBounded(c, s, run);
    RunKeepsPlaces(c, s, run);
    ReachableRun(c, s, run);
    var t := After(c, s, run);
    if Settled(c, t) {
      if !AtRest(t) {
        var a := SomeoneCanMove(c, t);
      }
      RestMeansAllCompleted(c, t);
    }
  }
}
