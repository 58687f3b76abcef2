/** Exactly when a stage call can follow the cancellation of its task in the parallel executor. */
module ParallelCancellation {
  import opened Core
  import opened Stages
  import opened Tasks
  import opened BoundedFifo
  import opened ExecutorParts
  import opened ParallelExecutor
  import opened ParallelInvariant
  import opened ParallelTheorems
  import opened ParallelPool

  ghost predicate CallsIt(c: Config, s: State, run: seq<Action>, id: nat, stage: Stage) {
    ValidRun(c, s, run) && Called(After(c, s, run), id, stage)
  }

  ghost predicate CanBeCalled(c: Config, s: State, id: nat, stage: Stage) {
    exists run :: CallsIt(c, s, run, id, stage)
  }

  /** The thread past its check makes the call in its next step. */
  lemma NextStepCalls(c: Config, s: State, id: nat, stage: Stage) returns (run: seq<Action>)
    requires OrderInv(s) && PastItsCheck(s, id, stage)
    ensures CallsIt(c, s, run, id, stage)
  {
    var a := if stage.Preprocess? then PreStep else if stage.Inference? then InfStep else PostStep;
    run := [a];
    assert run[1..] == [];
    assert Called(Next(c, s, a), id, stage);
  }

  /**
    The exact condition: a stage that was not called for a task by the time of its cancellation is called
    in some run after it if and only if the stage's thread is already past its check.
   */
  lemma CallCanFollowIffPastItsCheck(c: Config, s: State, id: nat, stage: Stage)
    requires Reachable(c, s) && IsCancelled(s, id) && !Called(s, id, stage)
    ensures CanBeCalled(c, s, id, stage) <==> PastItsCheck(s, id, stage)
  {
    ReachablePlaces(c, s);
    if PastItsCheck(s, id, stage) {
      var run := NextStepCalls(c, s, id, stage);
    } else {
      forall run
        ensures !CallsIt(c, s, run, id, stage)
      {
        if CallsIt(c, s, run, id, stage) { NewCallsWereUnderWay(c, s, run, id, stage); }
      }
    }
  }

  /** A run into that window: the cancellation comes between a check and the call behind it. */
  lemma CallCanFollowACancellation(c: Config, p: Packet) returns (s: State, run: seq<Action>)
    requires c.queueCapacity > 0 && c.stageQueueCapacity > 0
    ensures Reachable(c, s) && IsCancelled(s, 0) && ValidRun(c, s, run)
    ensures !Called(s, 0, Preprocess) && Called(After(c, s, run), 0, Preprocess)
  {
    s := Init(c);
    var none: seq<Action> := [];
    assert ValidRun(c, s, none) && After(c, s, none) == s;
    s := BringToAcquire(c, s, 0, p);
    s := Then(c, s, Cancel(0));
    run := NextStepCalls(c, s, 0, Preprocess) by { ReachablePlaces(c, s); }
  }
}
