/** The `failed` count of a session: it is the number of tasks that were called back with a failure. */
module SessionAnswers {
  import opened Core
  import opened Tasks
  import opened ExecutorParts
  import S = SessionAccounting
  import P = ParallelExecutor
  import ParallelInvariant
  import ParallelTheorems
  import ParallelPool
  import R = SessionRun
  import E = BatchExecutor
  import BatchTheorems
  import D = BatchDispatch
  import B = BatchSessionRun

  lemma OwnStepFailsNothing(c: S.Config, s: S.State, a: S.Action)
    requires S.Enabled(c, s, a) && !a.Complete?
    ensures S.Next(c, s, a).summary.failed == s.summary.failed
  {
    match a
    case Receive(_, _) =>
    case CountFailure(_) =>
    case Accept(_) =>
    case ReportFull(_) =>
    case Reject(_) =>
    case CountSubmitted(_) =>
    case CountDropped(_) =>
    case TakeRejection(_) =>
    case StopFromFrame(_) =>
    case RequestStop =>
    case JoinSources =>
    case JoinExecutor =>
    case _ =>
  }

  // ---------------------------------------------------------------- with the parallel executor

  ghost predicate Fails(e: P.State, id: nat) {
    id < |e.tasks| && e.tasks[id].promise.Some? && e.tasks[id].promise.value.Err?
  }

  /** How many of the first `n` tasks were given a failure. */
  ghost function Failures(e: P.State, n: nat): nat {
    if n == 0 then 0 else Failures(e, n - 1) + (if Fails(e, n - 1) then 1 else 0)
  }

  lemma {:induction false} SameFailures(e: P.State, f: P.State, n: nat)
    requires forall id :: 0 <= id < n ==> Fails(e, id) == Fails(f, id)
    ensures Failures(e, n) == Failures(f, n)
  {
    if n > 0 { SameFailures(e, f, n - 1); }
  }

  ghost function CalledBack(e: P.State): int { |e.delivered| - One(e.disp.DispCallback?) }

  ghost predicate FailedInv(j: R.Joint) {
    0 <= CalledBack(j.executor) && j.session.summary.failed == Failures(j.executor, CalledBack(j.executor))
  }

  /** A promise, once set, stays. */
  lemma PromisesStay(pc: P.Config, e: P.State, a: P.Action, id: nat)
    requires P.Reachable(pc, e) && P.Enabled(pc, e, a) && id < |e.delivered|
    ensures Fails(P.Next(pc, e, a), id) == Fails(e, id)
  {
    var f := ParallelPool.Then(pc, e, a);
    ParallelInvariant.ReachableInv(pc, e);
    ParallelInvariant.ReachableInv(pc, f);
    ParallelTheorems.StepOnlyAdds(pc, e, a);
    DeliveredGrows(pc, e, a);
    assert ParallelInvariant.OneTaskInv(pc, e, id, e.tasks[id]);
    assert ParallelInvariant.OneTaskInv(pc, f, id, f.tasks[id]);
  }

  lemma DeliveredGrows(pc: P.Config, e: P.State, a: P.Action)
    requires P.Enabled(pc, e, a)
    ensures e.delivered <= P.Next(pc, e, a).delivered
    ensures CalledBack(P.Next(pc, e, a)) == CalledBack(e) + One(a.DispStep? && e.disp.DispCallback?)
  {
    if a.PreStep? {
      R.PreKeepsOpen(pc, e);
    } else if a.InfStep? {
      R.InfKeepsOpen(pc, e);
    } else if a.PostStep? {
      R.PostKeepsOpen(pc, e);
    } else if a.DispStep? {
      DispDelivers(e);
    } else {
      R.OutsideKeepsOpen(pc, e, a);
    }
  }

  lemma DispDelivers(e: P.State)
    requires P.DispReady(e)
    ensures e.delivered <= P.DispNext(e).delivered
    ensures CalledBack(P.DispNext(e)) == CalledBack(e) + One(e.disp.DispCallback?)
  {
    match e.disp
    case DispPop =>
    case DispStore(_, _) =>
    case DispPromise(_, _) =>
    case DispCallback =>
  }

  lemma ExecutorKeepsFailed(pc: P.Config, e: P.State, a: P.Action)
    requires P.Reachable(pc, e) && P.Enabled(pc, e, a) && !(a.DispStep? && e.disp.DispCallback?)
    requires 0 <= CalledBack(e)
    ensures CalledBack(P.Next(pc, e, a)) == CalledBack(e)
    ensures Failures(P.Next(pc, e, a), CalledBack(e)) == Failures(e, CalledBack(e))
  {
    var f := P.Next(pc, e, a);
    DeliveredGrows(pc, e, a);
    forall id | 0 <= id < CalledBack(e)
      ensures Fails(e, id) == Fails(f, id)
    {
      PromisesStay(pc, e, a, id);
    }
    SameFailures(e, f, CalledBack(e));
  }

  /** A callback is given the answer that was delivered last. */
  lemma CallbackIsOfTheLast(pc: P.Config, e: P.State)
    requires P.Reachable(pc, e) && e.disp.DispCallback? && 0 <= CalledBack(e)
    ensures e.delivered != [] && (R.LastSucceeded(e) <==> !Fails(e, |e.delivered| - 1))
  {
    ParallelInvariant.ReachableInv(pc, e);
    var last := |e.delivered| - 1;
    assert ParallelInvariant.OneTaskInv(pc, e, last, e.tasks[last]);
  }

  lemma DispCallbackTouchesNoTask(e: P.State)
    requires P.DispReady(e) && e.disp.DispCallback?
    ensures P.DispNext(e).tasks == e.tasks && CalledBack(P.DispNext(e)) == CalledBack(e) + 1
  {
  }

  lemma CallbackKeepsFailed(sc: S.Config, pc: P.Config, j: R.Joint)
    requires R.JointInv(sc, pc, j) && FailedInv(j) && R.Possible(sc, pc, j, R.CalledBack)
    ensures FailedInv(R.Moved(sc, pc, j, R.CalledBack))
  {
    var e := j.executor;
    R.CallbackIsCounted(sc, pc, j, R.LastSucceeded(e));
    CallbackIsOfTheLast(pc, e);
    DispCallbackTouchesNoTask(e);
    SameFailures(e, P.DispNext(e), |e.delivered|);
  }

  lemma MoveKeepsFailed(sc: S.Config, pc: P.Config, j: R.Joint, m: R.Move)
    requires R.JointInv(sc, pc, j) && FailedInv(j) && R.Possible(sc, pc, j, m)
    ensures FailedInv(R.Moved(sc, pc, j, m))
  {
    match m
    case SessionOnly(a) => OwnStepFailsNothing(sc, j.session, a);
    case ExecutorOnly(a) => ExecutorKeepsFailed(pc, j.executor, a);
    case Submitted(t, a) =>
      OwnStepFailsNothing(sc, j.session, S.Accept(t));
      R.AcceptingIsNoCallback(pc, j.executor, a);
      ExecutorKeepsFailed(pc, j.executor, a);
    case CalledBack => CallbackKeepsFailed(sc, pc, j);
    case WaitReturns => OwnStepFailsNothing(sc, j.session, S.JoinExecutor);
  }

  lemma {:induction false} MovesKeepFailed(sc: S.Config, pc: P.Config, j: R.Joint, run: seq<R.Move>)
    requires R.JointInv(sc, pc, j) && FailedInv(j) && R.Moves(sc, pc, j, run)
    ensures FailedInv(R.Ending(sc, pc, j, run)) && R.JointInv(sc, pc, R.Ending(sc, pc, j, run))
    decreases |run|
  {
    if run != [] {
      MoveKeepsFailed(sc, pc, j, run[0]);
      R.MoveKeepsInv(sc, pc, j, run[0]);
      MovesKeepFailed(sc, pc, R.Moved(sc, pc, j, run[0]), run[1..]);
    }
  }

  /**
    Over every run of a session with the parallel executor: when the session has finished, every task has
    its answer, and `failed` is the number of those that are failures.
   */
  lemma FailedCountsTheFailures(sc: S.Config, pc: P.Config, run: seq<R.Move>)
    requires R.Moves(sc, pc, R.Start(sc, pc), run) && R.Ending(sc, pc, R.Start(sc, pc), run).session.finished
    ensures
      var j := R.Ending(sc, pc, R.Start(sc, pc), run);
      && j.session.summary.failed == Failures(j.executor, |j.executor.tasks|)
      && forall id :: 0 <= id < |j.executor.tasks| ==> j.executor.tasks[id].promise.Some?
  {
    R.StartInv(sc, pc);
    MovesKeepFailed(sc, pc, R.Start(sc, pc), run);
    var j := R.Ending(sc, pc, R.Start(sc, pc), run);
    var e := j.executor;
    R.WaitedMeansNoneOpen(pc, e);
    AllAnswered(pc, e);
  }

  lemma AllAnswered(pc: P.Config, e: P.State)
    requires P.Reachable(pc, e) && R.Open(e) == 0
    ensures |e.delivered| == |e.tasks| && !e.disp.DispCallback?
    ensures forall id :: 0 <= id < |e.tasks| ==> e.tasks[id].promise.Some?
  {
    ParallelInvariant.ReachableInv(pc, e);
    forall id | 0 <= id < |e.tasks|
      ensures e.tasks[id].promise.Some?
    {
      assert ParallelInvariant.OneTaskInv(pc, e, id, e.tasks[id]);
    }
  }

  // ---------------------------------------------------------------- with the batch executor

  ghost function FailuresIn(popped: seq<Completion>): nat {
    if popped == [] then 0
    else FailuresIn(popped[..|popped| - 1]) + (if popped[|popped| - 1].result.Err? then 1 else 0)
  }

  ghost predicate BatchFailedInv(j: B.Joint) { j.session.summary.failed == FailuresIn(j.executor.ring.popped) }

  lemma OnlyACallbackPops(c: E.Config, w: D.Whole, m: D.Move)
    requires D.Possible(c, w, m)
    ensures D.Moved(c, w, m).ring.popped ==
              if B.CallsBack(w, m) then w.ring.popped + [w.ring.popper.v] else w.ring.popped
  {
    match m
    case Inner(_) =>
    case Offer(_) =>
    case Push(who) => PushPopsNothing(c, w, who);
    case Pop =>
    case CloseInput =>
    case JoinDispatcher =>
  }

  lemma PushPopsNothing(c: E.Config, w: D.Whole, who: nat)
    requires D.Possible(c, w, D.Push(who))
    ensures D.PushMove(c, w, who).ring.popped == w.ring.popped
  {
  }

  lemma OneMoreCallback(popped: seq<Completion>, v: Completion)
    ensures FailuresIn(popped + [v]) == FailuresIn(popped) + (if v.result.Err? then 1 else 0)
  {
    assert (popped + [v])[..|popped|] == popped;
  }

  lemma CountedFails(c: S.Config, s: S.State, succeeded: bool)
    requires S.Enabled(c, s, S.Complete(succeeded))
    ensures S.Counted(c, s, succeeded).summary.failed == s.summary.failed + (if succeeded then 0 else 1)
  {
  }

  lemma BatchCallbackKeepsFailed(sc: S.Config, c: E.Config, j: B.Joint)
    requires BatchTheorems.Usable(c) && B.JointInv(sc, c, j) && BatchFailedInv(j) && B.Possible(sc, c, j, B.CalledBack)
    ensures BatchFailedInv(B.Moved(sc, c, j, B.CalledBack))
  {
    var v := j.executor.ring.popper.v;
    B.CallbackIsCounted(sc, c, j, v.result.Ok?);
    CountedFails(sc, j.session, v.result.Ok?);
    OnlyACallbackPops(c, j.executor, D.Pop);
    OneMoreCallback(j.executor.ring.popped, v);
  }

  lemma BatchMoveKeepsFailed(sc: S.Config, c: E.Config, j: B.Joint, m: B.Move)
    requires BatchTheorems.Usable(c) && B.JointInv(sc, c, j) && BatchFailedInv(j) && B.Possible(sc, c, j, m)
    ensures BatchFailedInv(B.Moved(sc, c, j, m))
  {
    match m
    case SessionOnly(a) => OwnStepFailsNothing(sc, j.session, a);
    case ExecutorOnly(a) => OnlyACallbackPops(c, j.executor, a);
    case Submitted(t, a) =>
      OwnStepFailsNothing(sc, j.session, S.Accept(t));
      B.ExecutorStepKeepsOpen(c, j.executor, a);
      OnlyACallbackPops(c, j.executor, a);
    case CalledBack => BatchCallbackKeepsFailed(sc, c, j);
    case WaitReturns => OwnStepFailsNothing(sc, j.session, S.JoinExecutor);
  }

  lemma {:induction false} BatchMovesKeepFailed(sc: S.Config, c: E.Config, j: B.Joint, run: seq<B.Move>)
    requires BatchTheorems.Usable(c) && B.JointInv(sc, c, j) && BatchFailedInv(j) && B.Moves(sc, c, j, run)
    ensures BatchFailedInv(B.Ending(sc, c, j, run))
    decreases |run|
  {
    if run != [] {
      BatchMoveKeepsFailed(sc, c, j, run[0]);
      B.MoveKeepsInv(sc, c, j, run[0]);
      BatchMovesKeepFailed(sc, c, B.Moved(sc, c, j, run[0]), run[1..]);
    }
  }

  /** At every moment of a session with the batch executor, `failed` is the number of callbacks with a failure. */
  lemma FailedCountsTheCallbacks(sc: S.Config, c: E.Config, run: seq<B.Move>)
    requires BatchTheorems.Usable(c) && B.Moves(sc, c, B.Start(sc, c), run)
    ensures
      var j := B.Ending(sc, c, B.Start(sc, c), run);
      j.session.summary.failed == FailuresIn(j.executor.ring.popped)
  {
    B.StartInv(sc, c);
    BatchMovesKeepFailed(sc, c, B.Start(sc, c), run);
  }
}
