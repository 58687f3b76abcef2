/**
  What the parallel executor guarantees in every reachable state and along every run: exactly-once
  delivery in order, the serial answer, and cancellation decided at one point.
 */
module ParallelTheorems {
  import opened Core
  import opened Stages
  import opened Tasks
  import opened BoundedFifo
  import opened ExecutorParts
  import opened ParallelExecutor
  import opened ParallelInvariant

  // ---------------------------------------------------------------- exactly once, in order

  ghost function InfHand(t: InferenceThread): seq<nat> { if InfHolds(t) then [t.id] else [] }
  ghost function PostHand(t: PostprocessThread): seq<nat> { if PostHolds(t) then [t.id] else [] }

  ghost function InferredIds(q: seq<InferredTask>): (r: seq<nat>)
    ensures |r| == |q| && forall i :: 0 <= i < |q| ==> r[i] == q[i].id
  {
    seq(|q|, i requires 0 <= i < |q| => q[i].id)
  }

  /** Every place a task can be, from the delivered end back to the entry queue. */
  ghost function Everywhere(s: State): seq<nat> {
    Delivering(s) + (Inferring(s) + (Preprocessing(s) + s.entry))
  }

  ghost function Delivering(s: State): seq<nat> {
    s.delivered + DispHand(s.disp) + CompletionIds(s.completions.items) + PostHand(s.post)
  }

  ghost function Inferring(s: State): seq<nat> { InferredIds(s.inferenceQueue.items) + InfHand(s.inf) }

  ghost function Preprocessing(s: State): seq<nat> { PreparedIds(s.preprocessQueue.items) + PreHand(s.pre) }

  /** `xs` is low, low + 1, low + 2, ... */
  ghost predicate CountsFrom(xs: seq<nat>, low: nat) { forall i :: 0 <= i < |xs| ==> xs[i] == low + i }

  lemma CountsOn(xs: seq<nat>, ys: seq<nat>, low: nat)
    requires CountsFrom(xs, low) && CountsFrom(ys, low + |xs|)
    ensures CountsFrom(xs + ys, low)
  {
  }

  /**
    Whatever the interleaving and whatever the pool: the accepted tasks are in the places of the
    pipeline exactly once and in order of acceptance, and a promise is set exactly when its task
    is delivered.
   */
  lemma ExactlyOnceInOrder(c: Config, s: State)
    requires Reachable(c, s)
    ensures Everywhere(s) == Upto(|s.packets|)
    ensures |s.tasks| == |s.packets|
    ensures forall id :: 0 <= id < |s.tasks| ==> (s.tasks[id].promise.Some? <==> id in s.delivered)
    ensures s.disp.DispPromise? ==> s.disp.id < |s.tasks| && s.tasks[s.disp.id].promise.None?
  {
    ReachablePlaces(c, s);
    PlacesAreInOrder(s);
    forall id | 0 <= id < |s.tasks|
      ensures s.tasks[id].promise.Some? <==> id in s.delivered
    {
      assert id < |s.delivered| ==> s.delivered[id] == id;
    }
  }

  lemma DeliveringIsInOrder(s: State)
    requires OrderInv(s)
    ensures CountsFrom(Delivering(s), 0) && |Delivering(s)| == PastInfQueue(s)
  {
    CountsOn(s.delivered, DispHand(s.disp), 0);
    CountsOn(s.delivered + DispHand(s.disp), CompletionIds(s.completions.items), 0);
    CountsOn(s.delivered + DispHand(s.disp) + CompletionIds(s.completions.items), PostHand(s.post), 0);
  }

  lemma InferringIsInOrder(s: State)
    requires OrderInv(s)
    ensures CountsFrom(Inferring(s), PastInfQueue(s)) && |Inferring(s)| == PastPreQueue(s) - PastInfQueue(s)
  {
    CountsOn(InferredIds(s.inferenceQueue.items), InfHand(s.inf), PastInfQueue(s));
  }

  lemma PreprocessingIsInOrder(s: State)
    requires OrderInv(s)
    ensures CountsFrom(Preprocessing(s) + s.entry, PastPreQueue(s))
    ensures |Preprocessing(s) + s.entry| == |s.packets| - PastPreQueue(s)
  {
    CountsOn(PreparedIds(s.preprocessQueue.items), PreHand(s.pre), PastPreQueue(s));
    CountsOn(Preprocessing(s), s.entry, PastPreQueue(s));
  }

  lemma PlacesAreInOrder(s: State)
    requires OrderInv(s)
    ensures Everywhere(s) == Upto(|s.packets|)
  {
    DeliveringIsInOrder(s);
    InferringIsInOrder(s);
    PreprocessingIsInOrder(s);
    CountsOn(Inferring(s), Preprocessing(s) + s.entry, PastInfQueue(s));
    CountsOn(Delivering(s), Inferring(s) + (Preprocessing(s) + s.entry), 0);
  }

  // ---------------------------------------------------------------- the serial answer

  /** The serial answer, or, for a pool that is too small, that it was exhausted. */
  ghost predicate SerialOrExhausted(c: Config, p: Packet, r: Result<Answer>) {
    r == RunPipeline(c.stages, p) || (r == PoolExhausted() && c.stages.acquires(p) && !PoolIsEnough(c))
  }

  /**
    The answer of every delivered task, whatever the pool: its last check alone decides between the
    cancelled result and what the stages gave.
   */
  lemma DeliveredIsDecided(c: Config, s: State, id: nat)
    requires Reachable(c, s) && id < |s.delivered|
    ensures id < |s.packets| == |s.tasks| && id < |s.verdicts| && s.tasks[id].promise.Some?
    ensures s.verdicts[id] ==> IsCancelled(s, id) && s.tasks[id].promise == Some(CancelledResult())
    ensures !s.verdicts[id] ==> SerialOrExhausted(c, s.packets[id], s.tasks[id].promise.value)
    ensures s.tasks[id].state == Completed <==> s.tasks[id].promise.value.Ok?
    ensures s.tasks[id].state == WasCancelled <==>
              s.tasks[id].promise.value.Err? && s.tasks[id].promise.value.status.code == Cancelled
    ensures s.tasks[id].state == Failed <==>
              s.tasks[id].promise.value.Err? && s.tasks[id].promise.value.status.code != Cancelled
  {
    ReachableInv(c, s);
    assert OneTaskInv(c, s, id, s.tasks[id]);
  }

  ghost predicate NobodyCancels(s: State) { forall id :: 0 <= id < |s.tasks| ==> !IsCancelled(s, id) }

  ghost function Answers(s: State): seq<Option<Result<Answer>>>
    requires |s.delivered| <= |s.tasks|
  {
    seq(|s.delivered|, i requires 0 <= i < |s.delivered| => s.tasks[i].promise)
  }

  /**
    Without cancellation the pipelined executor is indistinguishable from running Pipeline::run on
    the accepted packets one by one: same answers, stage failures included, in submission order.
   */
  lemma PipelinedRefinesSerial(c: Config, s: State)
    requires PoolIsEnough(c) && Reachable(c, s) && NobodyCancels(s)
    ensures |s.delivered| <= |s.packets| == |s.tasks|
    ensures s.delivered == Upto(|s.delivered|)
    ensures Answers(s) == seq(|s.delivered|, i requires 0 <= i < |s.delivered| =>
                                Some(RunPipeline(c.stages, s.packets[i])))
  {
    ReachableInv(c, s);
    forall id | 0 <= id < |s.delivered|
      ensures s.tasks[id].promise == Some(RunPipeline(c.stages, s.packets[id]))
    {
      DeliveredIsDecided(c, s, id);
    }
  }

  // ---------------------------------------------------------------- cancellation

  /** Along any run packets, verdicts and cancellations only accumulate. */
  lemma RunOnlyAdds(c: Config, s: State, run: seq<Action>)
    requires PlacesInv(c, s) && ValidRun(c, s, run)
    ensures Later(s, After(c, s, run)) && Extends(s, After(c, s, run))
    decreases |run|
  {
    if run != [] {
      var t := Next(c, s, run[0]);
      StepOnlyAdds(c, s, run[0]);
      StepKeepsPlaces(c, s, run[0]);
      RunOnlyAdds(c, t, run[1..]);
    }
  }

  lemma StepOnlyAdds(c: Config, s: State, a: Action)
    requires PlacesInv(c, s) && Enabled(c, s, a)
    ensures Later(s, Next(c, s, a)) && Extends(s, Next(c, s, a))
  {
    match a
    case PreStep => PreIsLater(c, s);
    case InfStep => InfIsLater(c, s);
    case PostStep => PostIsLater(c, s);
    case DispStep => DispIsLater(s);
    case _ => OutsideIsLater(c, s, a);
  }

  /**
    The last check decides for good. Once a task has its verdict, every later delivery gives exactly
    that: a cancellation after it changes nothing, although `cancel()` may still return true.
   */
  lemma VerdictIsFinal(c: Config, s: State, run: seq<Action>, id: nat)
    requires Reachable(c, s) && ValidRun(c, s, run)
    requires id < |s.verdicts| && id < |After(c, s, run).delivered|
    ensures id < |s.packets| && id < |s.given| && id < |After(c, s, run).tasks|
    ensures After(c, s, run).tasks[id].promise ==
            Some(if s.verdicts[id] then CancelledResult() else Outcome(c, s.given[id]))
    ensures !s.verdicts[id] ==> Gives(c.stages, PoolIsEnough(c), s.packets[id], s.given[id])
  {
    ReachableInv(c, s);
    RunOnlyAdds(c, s, run);
    RunKeepsInv(c, s, run);
    var t := After(c, s, run);
    assert OneTaskInv(c, t, id, t.tasks[id]);
    assert t.given[id] == s.given[id];
  }

  /** A cancellation before the verdict is always honoured, whatever the stages returned. */
  lemma CancelledInTime(c: Config, s: State, run: seq<Action>, id: nat)
    requires Reachable(c, s) && ValidRun(c, s, run)
    requires IsCancelled(s, id) && |s.verdicts| <= id < |After(c, s, run).delivered|
    ensures id < |After(c, s, run).tasks|
    ensures After(c, s, run).tasks[id].promise == Some(CancelledResult())
    ensures After(c, s, run).tasks[id].state == WasCancelled
  {
    ReachableInv(c, s);
    RunKeepsInv(c, s, run);
    assert OneTaskInv(c, After(c, s, run), id, After(c, s, run).tasks[id]);
    LateVerdictsSeeIt(c, s, run, id);
  }

  lemma LateVerdictsSeeIt(c: Config, s: State, run: seq<Action>, id: nat)
    requires Inv(c, s) && ValidRun(c, s, run)
    requires IsCancelled(s, id) && (id < |s.verdicts| ==> s.verdicts[id])
    ensures id < |After(c, s, run).verdicts| ==> After(c, s, run).verdicts[id]
    decreases |run|
  {
    if run != [] {
      var t := Next(c, s, run[0]);
      StepKeepsInv(c, s, run[0]);
      StepOnlyAdds(c, s, run[0]);
      if |s.verdicts| <= id < |t.verdicts| {
        NewVerdictIsTheFlag(c, s, run[0], id);
      }
      LateVerdictsSeeIt(c, t, run[1..], id);
    }
  }

  lemma NewVerdictIsTheFlag(c: Config, s: State, a: Action, id: nat)
    requires OrderInv(s) && VerdictInv(c, s) && Enabled(c, s, a)
    requires |s.verdicts| <= id < |Next(c, s, a).verdicts|
    ensures Next(c, s, a).verdicts[id] == IsCancelled(s, id)
  {
    if a.PostStep? {
      PostVerdictIsTheFlag(c, s, id);
    }
  }

  lemma PostVerdictIsTheFlag(c: Config, s: State, id: nat)
    requires OrderInv(s) && VerdictInv(c, s) && PostReady(s)
    requires |s.verdicts| <= id < |PostNext(c, s).verdicts|
    ensures PostNext(c, s).verdicts[id] == IsCancelled(s, id)
  {
  }

  // ---------------------------------------------------------------- no stage after a cancellation was seen

  /** The thread of `stage` is past its check for the task and has not called the stage yet. */
  ghost predicate PastItsCheck(s: State, id: nat, stage: Stage) {
    match stage
    case Preprocess => s.pre == PreAcquire(id)
    case Inference => s.inf.InfRun? && s.inf.id == id
    case Postprocess => s.post.PostRun? && s.post.id == id
  }

  /** Who is past its check has seen no cancellation, at this check or at an earlier one. */
  ghost predicate SeenInv(s: State) {
    && (forall id :: id in s.seen ==> IsCancelled(s, id))
    && (forall id: nat, stage :: PastItsCheck(s, id, stage) ==> id !in s.seen)
  }

  ghost predicate Called(s: State, id: nat, stage: Stage) { (id, stage) in s.calls }

  /** What a step may do: only who is past its check calls, and only who sees no cancellation gets past it. */
  ghost predicate CallsLater(s: State, t: State) {
    && (forall id: nat, stage :: Called(t, id, stage) ==> Called(s, id, stage) || PastItsCheck(s, id, stage))
    && s.calls <= t.calls && s.seen <= t.seen
    && (forall id: nat, stage :: PastItsCheck(t, id, stage) ==> PastItsCheck(s, id, stage) || !IsCancelled(s, id))
  }

  lemma PreCalls(c: Config, s: State)
    requires PreReady(s)
    ensures CallsLater(s, PreNext(c, s))
  {
    PreTouches(c, s);
    match s.pre
    case PreWaiting =>
    case PreTaken(_) =>
    case PreCheck(_) =>
    case PreAcquire(_) =>
    case PreRun(_) =>
    case PreRecheck(_, _) =>
    case PrePush(_, _) =>
    case PreClose =>
  }

  lemma InfCalls(c: Config, s: State)
    requires InfReady(s)
    ensures CallsLater(s, InfNext(c, s))
  {
  }

  lemma PostCalls(c: Config, s: State)
    requires PostReady(s)
    ensures CallsLater(s, PostNext(c, s))
  {
  }

  lemma StepCalls(c: Config, s: State, a: Action)
    requires Enabled(c, s, a)
    ensures CallsLater(s, Next(c, s, a))
  {
    if a.PreStep? {
      PreCalls(c, s);
    } else if a.InfStep? {
      InfCalls(c, s);
    } else if a.PostStep? {
      PostCalls(c, s);
    }
  }

  /** A check that sees a cancellation holds its task, and does not get past the check with it. */
  ghost predicate SeesOnlyItsOwn(s: State, t: State) {
    forall id: nat :: id in t.seen && id !in s.seen ==>
      IsCancelled(s, id) && forall stage :: !PastItsCheck(t, id, stage)
  }

  lemma PreSees(c: Config, s: State)
    requires PreReady(s) && OrderInv(s)
    ensures SeesOnlyItsOwn(s, PreNext(c, s))
  {
  }

  lemma InfSees(c: Config, s: State)
    requires InfReady(s) && OrderInv(s)
    ensures SeesOnlyItsOwn(s, InfNext(c, s))
  {
  }

  lemma PostSees(c: Config, s: State)
    requires PostReady(s) && OrderInv(s)
    ensures SeesOnlyItsOwn(s, PostNext(c, s))
  {
  }

  lemma StepSees(c: Config, s: State, a: Action)
    requires Enabled(c, s, a) && OrderInv(s)
    ensures SeesOnlyItsOwn(s, Next(c, s, a))
  {
    if a.PreStep? {
      PreSees(c, s);
    } else if a.InfStep? {
      InfSees(c, s);
    } else if a.PostStep? {
      PostSees(c, s);
    }
  }

  lemma StepKeepsSeen(c: Config, s: State, a: Action)
    requires PlacesInv(c, s) && SeenInv(s) && Enabled(c, s, a)
    ensures SeenInv(Next(c, s, a))
  {
    var t := Next(c, s, a);
    StepOnlyAdds(c, s, a);
    StepCalls(c, s, a);
    StepSees(c, s, a);
    forall id: nat, stage | PastItsCheck(t, id, stage)
      ensures id !in t.seen
    {
      assert id !in s.seen;
    }
  }

  lemma RunKeepsSeen(c: Config, s: State, run: seq<Action>)
    requires PlacesInv(c, s) && SeenInv(s) && ValidRun(c, s, run)
    ensures SeenInv(After(c, s, run))
    decreases |run|
  {
    if run != [] {
      StepKeepsPlaces(c, s, run[0]);
      StepKeepsSeen(c, s, run[0]);
      RunKeepsSeen(c, Next(c, s, run[0]), run[1..]);
    }
  }

  lemma ReachableSeen(c: Config, s: State)
    requires Reachable(c, s)
    ensures PlacesInv(c, s) && SeenInv(s)
  {
    ReachablePlaces(c, s);
    var run :| ValidRun(c, Init(c), run) && After(c, Init(c), run) == s;
    InitInv(c);
    RunKeepsSeen(c, Init(c), run);
  }

  /** Once a check of a task has seen its cancellation, no stage is called for it any more. */
  lemma {:induction false} NoCallAfterASeenCancellation(c: Config, s: State, run: seq<Action>, id: nat, stage: Stage)
    requires Reachable(c, s) && ValidRun(c, s, run) && id in s.seen
    ensures Called(After(c, s, run), id, stage) <==> Called(s, id, stage)
  {
    ReachableSeen(c, s);
    NoCallFromHere(c, s, run, id, stage);
  }

  lemma {:induction false} NoCallFromHere(c: Config, s: State, run: seq<Action>, id: nat, stage: Stage)
    requires PlacesInv(c, s) && SeenInv(s) && ValidRun(c, s, run) && id in s.seen
    ensures Called(After(c, s, run), id, stage) <==> Called(s, id, stage)
    decreases |run|
  {
    if run != [] {
      StepKeepsPlaces(c, s, run[0]);
      StepKeepsSeen(c, s, run[0]);
      StepCalls(c, s, run[0]);
      NoCallFromHere(c, Next(c, s, run[0]), run[1..], id, stage);
    }
  }

  /**
    A cancellation stops every call but the one whose thread is already past its check, and there is at
    most one such call.
   */
  lemma OnlyTheCallUnderWayFollows(c: Config, s: State, run: seq<Action>, id: nat, stage: Stage, other: Stage)
    requires Reachable(c, s) && ValidRun(c, s, run) && IsCancelled(s, id)
    requires Called(After(c, s, run), id, stage) && !Called(s, id, stage)
    ensures PastItsCheck(s, id, stage)
    ensures Called(After(c, s, run), id, other) && !Called(s, id, other) ==> other == stage
  {
    ReachablePlaces(c, s);
    NewCallsWereUnderWay(c, s, run, id, stage);
    if Called(After(c, s, run), id, other) && !Called(s, id, other) {
      NewCallsWereUnderWay(c, s, run, id, other);
    }
  }

  lemma {:induction false} NewCallsWereUnderWay(c: Config, s: State, run: seq<Action>, id: nat, stage: Stage)
    requires PlacesInv(c, s) && ValidRun(c, s, run) && IsCancelled(s, id)
    requires Called(After(c, s, run), id, stage) && !Called(s, id, stage)
    ensures PastItsCheck(s, id, stage)
    decreases |run|
  {
    if run != [] {
      var t := Next(c, s, run[0]);
      StepOnlyAdds(c, s, run[0]);
      StepKeepsPlaces(c, s, run[0]);
      StepCalls(c, s, run[0]);
      if !Called(t, id, stage) { NewCallsWereUnderWay(c, t, run[1..], id, stage); }
    }
  }

  // ---------------------------------------------------------------- task states

  ghost function Rank(t: TaskState): nat { if t.Queued? then 0 else if t.Running? then 1 else 2 }

  ghost predicate Advances(before: TaskState, after: TaskState) { after == before || Rank(after) == Rank(before) + 1 }

  /** A task is queued, then running, then in one terminal state for good. */
  lemma TaskStateAdvances(c: Config, s: State, a: Action, id: nat)
    requires Reachable(c, s) && Enabled(c, s, a) && id < |s.tasks|
    ensures id < |Next(c, s, a).tasks|
    ensures Advances(s.tasks[id].state, Next(c, s, a).tasks[id].state)
  {
    ReachableInv(c, s);
    assert OneTaskInv(c, s, id, s.tasks[id]);
    if a.DispStep? {
      DispAdvances(c, s, id);
    } else if a.PreStep? && s.pre.PreTaken? {
      assert OneTaskInv(c, s, s.pre.id, s.tasks[s.pre.id]);
    } else if a.PreStep? {
      PreTouchesNoTask(c, s);
    } else if a.InfStep? || a.PostStep? {
      MiddleTouchesNoTask(c, s, a);
    } else {
      OutsideTouchesNoState(c, s, a, id);
    }
  }

  lemma DispAdvances(c: Config, s: State, id: nat)
    requires OrderInv(s) && VerdictInv(c, s) && DispReady(s) && id < |s.tasks| && OneTaskInv(c, s, id, s.tasks[id])
    ensures Advances(s.tasks[id].state, DispNext(s).tasks[id].state)
  {
  }

  lemma MiddleTouchesNoTask(c: Config, s: State, a: Action)
    requires Enabled(c, s, a) && (a.InfStep? || a.PostStep?)
    ensures Next(c, s, a).tasks == s.tasks
  {
  }

  lemma OutsideTouchesNoState(c: Config, s: State, a: Action, id: nat)
    requires Enabled(c, s, a) && Outside(a) && id < |s.tasks|
    ensures id < |Next(c, s, a).tasks| && Next(c, s, a).tasks[id].state == s.tasks[id].state
  {
  }
}
