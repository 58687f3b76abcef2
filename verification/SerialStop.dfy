/**
  What an immediate stop does to the serial executor: it cancels every task whose last check is still to
  come, and it hits a moved-from task exactly if it comes while the running task is one.
 */
module SerialStop {
  import opened Core
  import opened Stages
  import opened Tasks
  import opened BoundedFifo
  import opened ExecutorParts
  import opened SerialExecutor
  import opened SerialDrain

  // ---------------------------------------------------------------- the moved task

  lemma RunExtends(c: Config, s: State, run: seq<Action>, a: Action)
    requires ValidRun(c, s, run) && Enabled(c, After(c, s, run), a)
    ensures ValidRun(c, s, run + [a]) && After(c, s, run + [a]) == Next(c, After(c, s, run), a)
    decreases |run|
  {
    if run == [] {
      assert [a][1..] == [];
    } else {
      assert (run + [a])[1..] == run[1..] + [a];
      RunExtends(c, Next(c, s, run[0]), run[1..], a);
    }
  }

  lemma Then(c: Config, s: State, a: Action) returns (t: State)
    requires Reachable(c, s) && Enabled(c, s, a)
    ensures t == Next(c, s, a) && Reachable(c, t)
  {
    t := Next(c, s, a);
    var run :| ValidRun(c, Init(c), run) && After(c, Init(c), run) == s;
    RunExtends(c, Init(c), run, a);
  }

  /** An immediate stop can come while the running task is already moved to the dispatcher. */
  lemma ImmediateStopCanHitAMovedTask(c: Config, p: Packet) returns (s: State)
    requires c.queueCapacity > 0
    ensures Reachable(c, s) && s.packets == [p] && s.mishap
  {
    s := Init(c);
    var run: seq<Action> := [];
    assert ValidRun(c, s, run) && After(c, s, run) == s;
    s := Then(c, s, Submit(p));
    s := Then(c, s, Cancel(0));
    s := Then(c, s, RunnerStep);
    s := Then(c, s, RunnerStep);
    s := Then(c, s, RequestStop(true));
  }

  /** In some step of the run an immediate stop comes while the running task is a moved-from one. */
  ghost predicate StopsAMovedTask(c: Config, s: State, run: seq<Action>)
    requires ValidRun(c, s, run)
    decreases |run|
  {
    run != [] && ((run[0] == RequestStop(true) && RunningTaskIsMoved(s))
                  || StopsAMovedTask(c, Next(c, s, run[0]), run[1..]))
  }

  lemma MishapIsAStop(c: Config, s: State, a: Action)
    requires Enabled(c, s, a)
    ensures Next(c, s, a).mishap <==> s.mishap || (a == RequestStop(true) && RunningTaskIsMoved(s))
  {
    match a
    case Submit(_) =>
    case RequestStop(_) =>
    case Cancel(_) =>
    case StartWait =>
    case WakeSubmitter(_) =>
    case RunnerStep => RunnerMakesNoMishap(c, s);
    case DispStep =>
    case WaiterStep =>
  }

  lemma RunnerMakesNoMishap(c: Config, s: State)
    requires RunnerReady(s)
    ensures RunnerNext(c, s).mishap == s.mishap
  {
  }

  /** Over every run: a moved-from task is hit if and only if an immediate stop comes in that window. */
  lemma {:induction false} MishapIffAMovedTaskIsStopped(c: Config, s: State, run: seq<Action>)
    requires ValidRun(c, s, run)
    ensures After(c, s, run).mishap <==> s.mishap || StopsAMovedTask(c, s, run)
    decreases |run|
  {
    if run != [] {
      MishapIsAStop(c, s, run[0]);
      MishapIffAMovedTaskIsStopped(c, Next(c, s, run[0]), run[1..]);
    }
  }

  // ---------------------------------------------------------------- what a cancellation in time gives

  lemma StepOnlyAdds(c: Config, s: State, a: Action)
    requires OrderInv(s) && Enabled(c, s, a)
    ensures s.verdicts <= Next(c, s, a).verdicts && s.packets <= Next(c, s, a).packets
    ensures forall id :: Flagged(s, id) ==> Flagged(Next(c, s, a), id)
  {
    if a.RunnerStep? {
      RunnerOnlyAdds(c, s);
    } else if a.DispStep? {
      DispKeepsFlags(s);
      DispKeepsVerdictList(s);
    } else {
      OutsideKeepsFlags(c, s, a);
    }
  }

  lemma DispKeepsVerdictList(s: State)
    requires DispReady(s)
    ensures DispNext(s).verdicts == s.verdicts && DispNext(s).packets == s.packets
  {
  }

  lemma RunnerOnlyAdds(c: Config, s: State)
    requires RunnerReady(s)
    ensures s.verdicts <= RunnerNext(c, s).verdicts && s.packets == RunnerNext(c, s).packets
    ensures forall id :: Flagged(s, id) ==> Flagged(RunnerNext(c, s), id)
  {
    match s.runner
    case Waiting =>
    case Check(_) =>
    case Mark(_) =>
    case Execute(_) =>
    case Recheck(_, _) =>
    case Dispatch(_, _) =>
    case Reset =>
  }

  lemma NewVerdictIsTheFlag(c: Config, s: State, a: Action, id: nat)
    requires Inv(c, s) && Enabled(c, s, a)
    requires |s.verdicts| <= id < |Next(c, s, a).verdicts|
    ensures Next(c, s, a).verdicts[id] == Flagged(s, id)
  {
    if a.RunnerStep? {
      RunnerVerdictIsTheFlag(c, s, id);
    } else if a.DispStep? {
      DispKeepsVerdictList(s);
    } else {
      OutsideKeepsFlags(c, s, a);
    }
  }

  lemma RunnerVerdictIsTheFlag(c: Config, s: State, id: nat)
    requires OrderInv(s) && VerdictInv(c, s) && RunnerReady(s)
    requires |s.verdicts| <= id < |RunnerNext(c, s).verdicts|
    ensures RunnerNext(c, s).verdicts[id] == Flagged(s, id)
  {
  }

  lemma {:induction false} LateVerdictsSeeIt(c: Config, s: State, run: seq<Action>, id: nat)
    requires Inv(c, s) && ValidRun(c, s, run)
    requires Flagged(s, id) && (id < |s.verdicts| ==> s.verdicts[id])
    ensures id < |After(c, s, run).verdicts| ==> After(c, s, run).verdicts[id]
    decreases |run|
  {
    if run != [] {
      var t := Next(c, s, run[0]);
      StepKeepsInv(c, s, run[0]);
      StepOnlyAdds(c, s, run[0]);
      if |s.verdicts| <= id < |t.verdicts| {
        NewVerdictIsTheFlag(c, s, run[0], id);
      }
      LateVerdictsSeeIt(c, t, run[1..], id);
    }
  }

  /** A task cancelled before its last check is delivered as Cancelled, along every run. */
  lemma CancelledInTime(c: Config, s: State, run: seq<Action>, id: nat)
    requires Reachable(c, s) && ValidRun(c, s, run)
    requires Flagged(s, id) && |s.verdicts| <= id < |After(c, s, run).delivered|
    ensures id < |After(c, s, run).tasks|
    ensures After(c, s, run).tasks[id].promise == Some(CancelledResult())
  {
    ReachableInv(c, s);
    RunKeepsInv(c, s, run);
    LateVerdictsSeeIt(c, s, run, id);
    assert OneTaskInv(c, After(c, s, run), id, After(c, s, run).tasks[id]);
  }

  // ---------------------------------------------------------------- what an immediate stop gives

  /** A stop outside the window flags every accepted task whose last check is still to come. */
  lemma ImmediateStopFlagsTheRest(c: Config, s: State, id: nat)
    requires Inv(c, s) && !RunningTaskIsMoved(s) && |s.verdicts| <= id < |s.tasks|
    ensures Flagged(StopNext(s, true), id)
  {
    if id < PastQueue(s) {
      assert RunnerHolds(s.runner) && s.runner.id == id;
    } else {
      assert s.queue[id - PastQueue(s)] == id;
    }
  }

  lemma {:induction false} NothingIsAccepted(c: Config, s: State, run: seq<Action>)
    requires Inv(c, s) && !s.accepting && s.stopRequested && ValidRun(c, s, run)
    ensures After(c, s, run).packets == s.packets && s.verdicts <= After(c, s, run).verdicts
    decreases |run|
  {
    if run != [] {
      StepKeepsInv(c, s, run[0]);
      StepOnlyAdds(c, s, run[0]);
      NothingIsAcceptedNow(c, s, run[0]);
      NothingIsAccepted(c, Next(c, s, run[0]), run[1..]);
    }
  }

  lemma NothingIsAcceptedNow(c: Config, s: State, a: Action)
    requires !s.accepting && s.stopRequested && Enabled(c, s, a)
    ensures
      var t := Next(c, s, a);
      t.packets == s.packets && !t.accepting && t.stopRequested
  {
    match a
    case Submit(_) =>
    case RequestStop(_) =>
    case Cancel(_) =>
    case StartWait =>
    case WakeSubmitter(_) =>
    case RunnerStep => RunnerAcceptsNothing(c, s);
    case DispStep =>
    case WaiterStep =>
  }

  lemma RunnerAcceptsNothing(c: Config, s: State)
    requires RunnerReady(s)
    ensures
      var t := RunnerNext(c, s);
      t.packets == s.packets && t.accepting == s.accepting && t.stopRequested == s.stopRequested
  {
  }

  /**
    An immediate stop outside that window decides every accepted task: along every run from it, a task is
    delivered with the serial answer if its last check was over and had seen no flag, and as Cancelled
    otherwise; no task is accepted; and when no step is left every task has been delivered.
   */
  lemma ImmediateStopDecidesAll(c: Config, s: State, run: seq<Action>, id: nat)
    requires Reachable(c, s) && !RunningTaskIsMoved(s) && id < |s.tasks|
    requires ValidRun(c, StopNext(s, true), run)
    ensures
      var t := After(c, StopNext(s, true), run);
      && |s.packets| == |s.tasks| == |t.tasks| && t.packets == s.packets
      && (id < |t.delivered| ==>
           t.tasks[id].promise == Some(if id < |s.verdicts| && !s.verdicts[id] then RunPipeline(c.stages, s.packets[id])
                                       else CancelledResult()))
      && (Settled(c, t) ==> id < |t.delivered|)
  {
    var u := Then(c, s, RequestStop(true));
    ReachableInv(c, s);
    ReachableInv(c, u);
    var t := After(c, u, run);
    NothingIsAccepted(c, u, run);
    StopDrains(c, u, run);
    RunKeepsInv(c, u, run);
    assert OneTaskInv(c, t, id, t.tasks[id]);
    if |s.verdicts| <= id {
      ImmediateStopFlagsTheRest(c, s, id);
      LateVerdictsSeeIt(c, u, run, id);
    }
  }

  // ---------------------------------------------------------------- whose answer is Cancelled

  /** `cancel` was called on the task, or an immediate stop came when its last check was still to come. */
  ghost predicate Asked(c: Config, s: State, run: seq<Action>, id: nat)
    requires ValidRun(c, s, run)
    decreases |run|
  {
    run != [] && (run[0] == Cancel(id) || (run[0] == RequestStop(true) && |s.verdicts| <= id < |s.tasks|)
                  || Asked(c, Next(c, s, run[0]), run[1..], id))
  }

  lemma StepFlags(c: Config, s: State, a: Action, id: nat)
    requires Inv(c, s) && Enabled(c, s, a)
    ensures Flagged(Next(c, s, a), id) <==>
              Flagged(s, id) || a == Cancel(id) || (a == RequestStop(true) && |s.verdicts| <= id < |s.tasks|)
  {
    match a
    case Submit(_) =>
    case RequestStop(immediate) => StopFlags(c, s, immediate, id);
    case Cancel(_) =>
    case StartWait =>
    case WakeSubmitter(_) =>
    case RunnerStep => RunnerFlagsNobody(c, s, id);
    case DispStep => DispFlagsNobody(s, id);
    case WaiterStep =>
  }

  lemma StopFlags(c: Config, s: State, immediate: bool, id: nat)
    requires Inv(c, s)
    ensures Flagged(StopNext(s, immediate), id) <==> Flagged(s, id) || (immediate && |s.verdicts| <= id < |s.tasks|)
  {
    QueuedIds(s, id);
    var current := if s.runningTask.Some? && !RunningTaskIsMoved(s) then [s.runningTask.value] else [];
    assert id in current + s.queue <==> id in current || id in s.queue;
    if RunnerHolds(s.runner) && !s.runner.Dispatch? {
      assert current == [s.runner.id] && s.runner.id == |s.verdicts|;
    } else {
      assert current == [] && |s.verdicts| == PastQueue(s);
    }
  }

  lemma QueuedIds(s: State, id: nat)
    requires OrderInv(s)
    ensures id in s.queue <==> PastQueue(s) <= id < |s.tasks|
  {
    if PastQueue(s) <= id < |s.tasks| {
      assert s.queue[id - PastQueue(s)] == id;
    }
  }

  lemma RunnerFlagsNobody(c: Config, s: State, id: nat)
    requires RunnerReady(s)
    ensures Flagged(RunnerNext(c, s), id) == Flagged(s, id)
  {
    match s.runner
    case Waiting =>
    case Check(_) =>
    case Mark(_) =>
    case Execute(_) =>
    case Recheck(_, _) =>
    case Dispatch(_, _) =>
    case Reset =>
  }

  lemma DispFlagsNobody(s: State, id: nat)
    requires DispReady(s)
    ensures Flagged(DispNext(s), id) == Flagged(s, id)
  {
  }

  lemma {:induction false} FlaggedIffAsked(c: Config, s: State, run: seq<Action>, id: nat)
    requires Inv(c, s) && ValidRun(c, s, run)
    ensures Flagged(After(c, s, run), id) <==> Flagged(s, id) || Asked(c, s, run, id)
    decreases |run|
  {
    if run != [] {
      StepFlags(c, s, run[0], id);
      StepKeepsInv(c, s, run[0]);
      FlaggedIffAsked(c, Next(c, s, run[0]), run[1..], id);
    }
  }

  /** The answer of every task by the calls that were made: only who was asked to be cancelled can be. */
  lemma AnswerByCalls(c: Config, run: seq<Action>, id: nat)
    requires ValidRun(c, Init(c), run) && id < |After(c, Init(c), run).delivered|
    ensures
      var t := After(c, Init(c), run);
      && id < |t.packets| == |t.tasks| && t.tasks[id].promise.Some?
      && t.tasks[id].promise.value in {CancelledResult(), RunPipeline(c.stages, t.packets[id])}
      && (!Asked(c, Init(c), run, id) ==> t.tasks[id].promise == Some(RunPipeline(c.stages, t.packets[id])))
  {
    SerialDelivery(c, After(c, Init(c), run), id);
    FlaggedIffAsked(c, Init(c), run, id);
  }

  /** `cancel` before a task's last check decides it, and concerns nobody else. */
  lemma CancelDecides(c: Config, s: State, run: seq<Action>, id: nat, other: nat)
    requires Reachable(c, s) && id < |s.tasks| && ValidRun(c, Next(c, s, Cancel(id)), run)
    ensures
      var t := After(c, Next(c, s, Cancel(id)), run);
      |s.verdicts| <= id < |t.delivered| ==> id < |t.tasks| && t.tasks[id].promise == Some(CancelledResult())
    ensures other != id ==> (Flagged(Next(c, s, Cancel(id)), other) <==> Flagged(s, other))
  {
    var u := Then(c, s, Cancel(id));
    if |s.verdicts| <= id < |After(c, u, run).delivered| { CancelledInTime(c, u, run, id); }
  }

  /**
    A graceful stop cancels nothing: a task nobody asks to cancel is delivered with the answer of
    Pipeline::run; none is accepted any more, and at the end all are delivered.
   */
  lemma GracefulStopCompletesAll(c: Config, s: State, run: seq<Action>, id: nat)
    requires Reachable(c, s) && id < |s.tasks| && !Flagged(s, id)
    requires ValidRun(c, Next(c, s, RequestStop(false)), run) && !Asked(c, Next(c, s, RequestStop(false)), run, id)
    ensures
      var t := After(c, Next(c, s, RequestStop(false)), run);
      && t.packets == s.packets && |s.packets| == |s.tasks| == |t.tasks|
      && (id < |t.delivered| ==> t.tasks[id].promise == Some(RunPipeline(c.stages, s.packets[id])))
      && (Settled(c, t) ==> id < |t.delivered|)
  {
    var u := Then(c, s, RequestStop(false));
    ReachableInv(c, s);
    ReachableInv(c, u);
    var t := After(c, u, run);
    NothingIsAccepted(c, u, run);
    StopDrains(c, u, run);
    RunKeepsInv(c, u, run);
    FlaggedIffAsked(c, u, run, id);
    assert OneTaskInv(c, t, id, t.tasks[id]);
  }
}
