/**
  Stopping the batch executor: its own steps are bounded, it comes to rest with every thread ended,
  and the tasks that are then complete are all of them exactly if the batching thread never took a
  timeout for the end of its queue.
 */
module BatchDrain {
  import opened Core
  import opened Stages
  import opened Tasks
  import opened BoundedFifo
  import opened ExecutorParts
  import opened BatchExecutor
  import opened BatchInvariant
  import opened BatchTheorems

  // ---------------------------------------------------------------- a measure of the work left

  ghost function BatchWork(t: BatchThread): int {
    match t
    case Collect(members) => if members == [] then 2 else 10 * |members| + 5
    case Examine(_, _, members) => 10 * |members| + 17
    case Early(_, _, members) => 10 * |members| + 16
    case GotNothing(members) => 10 * |members| + 4
    case Infer(members, _) => 10 * |members| + 3
    case FailMembers(members, index, _, _) => 9 * (|members| - index) + 3
    case Postprocess(members, index, _, _) => 9 * (|members| - index) + 3
    case PushResult(members, index, _, _, _) => 9 * (|members| - index) + 2
    case BatchClose => 1
    case BatchDone => 0
  }

  ghost function PostWork(t: PostThread): nat { if t.PostPop? then 1 else if t.PostDispatch? then 6 else 0 }

  ghost function Measure(s: State): int {
    |s.blocked| + 23 * |s.entry| + PreWork(s.pre, 16) + 16 * |s.preprocessQueue.items| + BatchWork(s.batch)
    + 6 * |s.postprocessQueue.items| + PostWork(s.post) + 4 * |s.completions.items| + DispWork(s.disp)
    + WaiterWork(s.waiter)
  }

  lemma MeasureIsNatural(c: Config, s: State)
    requires ControlInv(c, s)
    ensures Measure(s) >= 0
  {
  }

  lemma PreLowersMeasure(c: Config, s: State)
    requires PreReady(s)
    ensures Measure(PreNext(c, s)) < Measure(s)
  {
    if s.pre.PreWaiting? || s.pre.PrePush? || s.pre.PreClose? {
      PreMoveLowersMeasure(c, s);
    } else {
      PreStayLowersWork(c, s);
    }
  }

  lemma PreStayLowersWork(c: Config, s: State)
    requires PreReady(s) && !s.pre.PreWaiting? && !s.pre.PrePush? && !s.pre.PreClose?
    ensures
      var t := PreNext(c, s);
      && t.blocked == s.blocked && t.entry == s.entry && t.preprocessQueue == s.preprocessQueue
      && t.batch == s.batch && t.postprocessQueue == s.postprocessQueue && t.post == s.post
      && t.completions == s.completions && t.disp == s.disp && t.waiter == s.waiter
      && PreWork(t.pre, 16) < PreWork(s.pre, 16)
  {
    PreTouches(c, s);
    PreStays(c, s);
  }

  lemma PreMoveLowersMeasure(c: Config, s: State)
    requires PreReady(s) && (s.pre.PreWaiting? || s.pre.PrePush? || s.pre.PreClose?)
    ensures Measure(PreNext(c, s)) < Measure(s)
  {
  }

  lemma BatchLowersMeasure(c: Config, s: State)
    requires ControlInv(c, s) && BatchReady(s)
    ensures Measure(BatchNext(c, s)) < Measure(s)
  {
    if Emitting(s.batch) {
      EmittingLowersMeasure(c, s);
    } else {
      CollectingLowersMeasure(c, s);
    }
  }

  lemma CollectingLowersMeasure(c: Config, s: State)
    requires BatchSizesInv(c, s.batch) && BatchReady(s) && !Emitting(s.batch)
    ensures Measure(BatchNext(c, s)) < Measure(s)
  {
    BatchTouches(c, s);
    match s.batch
    case Collect(_) =>
    case Examine(_, _, _) =>
    case GotNothing(_) =>
    case Infer(_, _) =>
    case BatchClose =>
  }

  lemma EmittingLowersMeasure(c: Config, s: State)
    requires BatchSizesInv(c, s.batch) && BatchReady(s) && Emitting(s.batch)
    ensures Measure(BatchNext(c, s)) < Measure(s)
  {
  }

  lemma OwnStepLowersMeasure(c: Config, s: State, a: Action)
    requires ControlInv(c, s) && s.stopRequested && OwnStep(a) && Enabled(c, s, a)
    ensures Measure(Next(c, s, a)) < Measure(s)
  {
    if a.PreStep? {
      PreLowersMeasure(c, s);
    } else if a.BatchStep? {
      BatchLowersMeasure(c, s);
    } else {
      RestLowersMeasure(c, s, a);
    }
  }

  lemma PostLowersMeasure(s: State)
    requires PostReady(s)
    ensures Measure(PostNext(s)) < Measure(s)
  {
  }

  lemma DispLowersMeasure(s: State)
    requires DispReady(s)
    ensures Measure(DispNext(s)) < Measure(s)
  {
  }

  lemma RestLowersMeasure(c: Config, s: State, a: Action)
    requires ControlInv(c, s) && s.stopRequested && Enabled(c, s, a)
    requires a.WakeSubmitter? || a.FlushTimeout? || a.PostStep? || a.DispStep? || a.WaiterStep?
    ensures Measure(Next(c, s, a)) < Measure(s)
  {
    if a.PostStep? {
      PostLowersMeasure(s);
    } else if a.DispStep? {
      DispLowersMeasure(s);
    } else {
      match a
      case WakeSubmitter(_) =>
      case FlushTimeout(_) =>
      case WaiterStep =>
      case _ =>
    }
  }

  lemma OutsideCannotRaiseMeasure(c: Config, s: State, a: Action)
    requires ControlInv(c, s) && s.stopRequested && !OwnStep(a) && Enabled(c, s, a)
    ensures Measure(Next(c, s, a)) <= Measure(s)
  {
  }

  lemma StopIsForGood(c: Config, s: State, a: Action)
    requires s.stopRequested && Enabled(c, s, a)
    ensures Next(c, s, a).stopRequested
  {
  }

  ghost function OwnSteps(run: seq<Action>): nat {
    if run == [] then 0 else (if OwnStep(run[0]) then 1 else 0) + OwnSteps(run[1..])
  }

  lemma StepsAfterStopAreBounded(c: Config, s: State, run: seq<Action>)
    requires Usable(c) && PlacesInv(c, s) && s.stopRequested && ValidRun(c, s, run)
    ensures PlacesInv(c, After(c, s, run)) && After(c, s, run).stopRequested
    ensures OwnSteps(run) + Measure(After(c, s, run)) <= Measure(s)
    decreases |run|
  {
    if run != [] {
      var a := run[0];
      if OwnStep(a) {
        OwnStepLowersMeasure(c, s, a);
      } else {
        OutsideCannotRaiseMeasure(c, s, a);
      }
      StopIsForGood(c, s, a);
      StepKeepsPlaces(c, s, a);
      StepsAfterStopAreBounded(c, Next(c, s, a), run[1..]);
    }
  }

  // ---------------------------------------------------------------- rest

  /** The stage threads have ended and the dispatcher has nothing left. */
  ghost predicate ThreadsEnded(s: State) {
    && s.pre.PreDone? && s.batch.BatchDone? && s.post.PostDone?
    && s.completions.items == [] && (s.disp.DispPop? || s.disp.DispDone?)
  }

  ghost predicate AtRest(s: State) {
    s.blocked == [] && ThreadsEnded(s) && (s.waiter.NotWaiting? || s.waiter.WaitReturned?)
  }

  lemma SomeoneCanMove(c: Config, s: State) returns (a: Action)
    requires Usable(c) && PlacesInv(c, s) && s.stopRequested && !AtRest(s)
    ensures OwnStep(a) && Enabled(c, s, a)
  {
    if s.blocked != [] {
      a := WakeSubmitter(0);
    } else if PreReady(s) {
      a := PreStep;
    } else if BatchReady(s) {
      a := BatchStep;
    } else if PostReady(s) {
      a := PostStep;
    } else if s.disp.DispStore? || s.disp.DispPromise? {
      DeliveredWasTaken(s, s.disp.id);
      a := DispStep;
    } else if DispReady(s) {
      a := DispStep;
    } else {
      a := WaiterStep;
    }
  }

  /** At rest a task is completed, or it was left in the preprocessed queue. */
  lemma RestLeavesOnlyTheQueue(c: Config, s: State, id: nat)
    requires Usable(c) && Reachable(c, s) && ThreadsEnded(s) && id < |s.packets|
    ensures |s.tasks| == |s.packets|
    ensures s.tasks[id].promise.Some? <==> id < |s.packets| - |s.preprocessQueue.items|
  {
    ReachablePlaces(c, s);
    OccursMember(s.delivered, id);
    assert Census(s, id) == if id < Taken(s) then 1 else 0;
  }

  // ---------------------------------------------------------------- when tasks are left behind

  /** The second look finds the queue closed, although it is not empty any more. */
  ghost predicate MissesItems(s: State, a: Action) {
    a.BatchStep? && s.batch.GotNothing? && s.preprocessQueue.closed && s.preprocessQueue.items != []
  }

  ghost predicate Misses(c: Config, s: State, run: seq<Action>)
    requires ValidRun(c, s, run)
    decreases |run|
  {
    run != [] && (MissesItems(s, run[0]) || Misses(c, Next(c, s, run[0]), run[1..]))
  }

  /** The batching thread is ending although items are queued. */
  ghost predicate LeavesItems(s: State) { EndsAfter(s.batch) && s.preprocessQueue.items != [] }

  lemma StepLeavesItems(c: Config, s: State, a: Action)
    requires PlacesInv(c, s) && Enabled(c, s, a)
    ensures LeavesItems(Next(c, s, a)) <==> LeavesItems(s) || MissesItems(s, a)
  {
    if a.PreStep? {
      PreLeavesBehind(c, s);
      PreQueueWhenClosed(c, s);
    } else if a.BatchStep? {
      BatchLeavesItems(c, s);
    } else if !a.PostStep? && !a.DispStep? && !a.FlushTimeout? {
      OutsideLeavesBehind(c, s, a);
    }
  }

  lemma PreQueueWhenClosed(c: Config, s: State)
    requires ControlInv(c, s) && PreReady(s)
    ensures !s.preprocessQueue.closed && !EndsAfter(s.batch)
  {
  }

  lemma BatchLeavesItems(c: Config, s: State)
    requires ControlInv(c, s) && BatchReady(s)
    ensures LeavesItems(BatchNext(c, s)) <==> LeavesItems(s) || MissesItems(s, BatchStep)
  {
  }

  lemma RunLeavesItems(c: Config, s: State, run: seq<Action>)
    requires Usable(c) && PlacesInv(c, s) && ValidRun(c, s, run)
    ensures LeavesItems(After(c, s, run)) <==> LeavesItems(s) || Misses(c, s, run)
    decreases |run|
  {
    if run != [] {
      StepLeavesItems(c, s, run[0]);
      StepKeepsPlaces(c, s, run[0]);
      RunLeavesItems(c, Next(c, s, run[0]), run[1..]);
    }
  }

  ghost predicate AllCompleted(s: State) { forall id :: 0 <= id < |s.tasks| ==> s.tasks[id].promise.Some? }

  ghost predicate Settled(c: Config, s: State) { forall a :: OwnStep(a) ==> !Enabled(c, s, a) }

  /**
    The drain theorem: after a stop the executor's own steps are bounded; when none is left every
    thread has ended, and every accepted task is completed if and only if no second look at the
    closed queue missed an item that arrived after the timeout.
   */
  lemma StopDrains(c: Config, before: seq<Action>, run: seq<Action>)
    requires Usable(c) && ValidRun(c, Init(c), before) && After(c, Init(c), before).stopRequested
    requires ValidRun(c, After(c, Init(c), before), run)
    ensures OwnSteps(run) <= Measure(After(c, Init(c), before))
    ensures ValidRun(c, Init(c), before + run)
    ensures
      var t := After(c, Init(c), before + run);
      Settled(c, t) ==> AtRest(t) && (AllCompleted(t) <==> !Misses(c, Init(c), before + run))
  {
    var s := After(c, Init(c), before);
    InitInv(c);
    RunKeepsPlaces(c, Init(c), before);
    StepsAfterStopAreBounded(c, s, run);
    MeasureIsNatural(c, After(c, s, run));
    RunsCompose(c, Init(c), before, run);
    var t := After(c, Init(c), before + run);
    if Settled(c, t) {
      if !AtRest(t) {
        var a := SomeoneCanMove(c, t);
      }
      RunLeavesItems(c, Init(c), before + run);
      RestCompletes(c, t);
    }
  }

  lemma RestCompletes(c: Config, s: State)
    requires Usable(c) && Reachable(c, s) && ThreadsEnded(s)
    ensures AllCompleted(s) <==> s.preprocessQueue.items == []
  {
    ReachablePlaces(c, s);
    forall id | 0 <= id < |s.tasks|
      ensures s.tasks[id].promise.Some? <==> id < |s.packets| - |s.preprocessQueue.items|
    {
      RestLeavesOnlyTheQueue(c, s, id);
    }
    if s.preprocessQueue.items != [] {
      assert s.tasks[|s.tasks| - 1].promise.None?;
    }
  }

  lemma RunsCompose(c: Config, s: State, first: seq<Action>, second: seq<Action>)
    requires ValidRun(c, s, first) && ValidRun(c, After(c, s, first), second)
    ensures ValidRun(c, s, first + second)
    ensures After(c, s, first + second) == After(c, After(c, s, first), second)
    decreases |first|
  {
    if first == [] {
      assert first + second == second;
    } else {
      assert (first + second)[1..] == first[1..] + second;
      RunsCompose(c, Next(c, s, first[0]), first[1..], second);
    }
  }

  /** Batches of one never wait for a second member, so nothing can be missed. */
  lemma SingleBatchesMissNothing(c: Config, s: State, run: seq<Action>)
    requires Usable(c) && c.maxBatchSize == 1 && PlacesInv(c, s) && ValidRun(c, s, run)
    ensures !Misses(c, s, run)
    decreases |run|
  {
    if run != [] {
      StepKeepsPlaces(c, s, run[0]);
      SingleBatchesMissNothing(c, Next(c, s, run[0]), run[1..]);
    }
  }
}
