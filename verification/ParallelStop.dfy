/**
  What `cancel` and `requestStop` do to the parallel executor, named by the calls themselves: whose answer
  is Cancelled, whose is the serial one, and that nothing is accepted after a stop.
 */
module ParallelStop {
  import opened Core
  import opened Stages
  import opened Tasks
  import opened BoundedFifo
  import opened ExecutorParts
  import opened ParallelExecutor
  import opened ParallelInvariant
  import opened ParallelDrain
  import opened ParallelTheorems

  // ---------------------------------------------------------------- who is cancelled

  /** Somebody cancelled the task, or stopped the executor at once. */
  ghost predicate Asked(run: seq<Action>, id: nat) { Cancel(id) in run || RequestStop(true) in run }

  lemma StepCancels(c: Config, s: State, a: Action, id: nat)
    requires Enabled(c, s, a)
    ensures IsCancelled(Next(c, s, a), id) <==> IsCancelled(s, id) || a == Cancel(id) || a == RequestStop(true)
  {
    match a
    case Submit(_) =>
    case RequestStop(_) =>
    case Cancel(_) =>
    case StartWait =>
    case WakeSubmitter(_) =>
    case PreStep => PreCancelsNobody(c, s, id);
    case InfStep => InfCancelsNobody(c, s, id);
    case PostStep => PostCancelsNobody(c, s, id);
    case DispStep => DispCancelsNobody(s, id);
    case WaiterStep =>
  }

  lemma PreCancelsNobody(c: Config, s: State, id: nat)
    requires PreReady(s)
    ensures IsCancelled(PreNext(c, s), id) == IsCancelled(s, id)
  {
    match s.pre
    case PreWaiting =>
    case PreTaken(_) =>
    case PreCheck(_) =>
    case PreAcquire(_) =>
    case PreRun(_) =>
    case PreRecheck(_, _) =>
    case PrePush(_, _) =>
    case PreClose =>
  }

  lemma InfCancelsNobody(c: Config, s: State, id: nat)
    requires InfReady(s)
    ensures IsCancelled(InfNext(c, s), id) == IsCancelled(s, id)
  {
  }

  lemma PostCancelsNobody(c: Config, s: State, id: nat)
    requires PostReady(s)
    ensures IsCancelled(PostNext(c, s), id) == IsCancelled(s, id)
  {
  }

  lemma DispCancelsNobody(s: State, id: nat)
    requires DispReady(s)
    ensures IsCancelled(DispNext(s), id) == IsCancelled(s, id)
  {
  }

  /** Along every run a task comes to be cancelled by a call of `cancel` on it or by an immediate stop, and only so. */
  lemma {:induction false} CancelledIffAsked(c: Config, s: State, run: seq<Action>, id: nat)
    requires ValidRun(c, s, run)
    ensures IsCancelled(After(c, s, run), id) <==> IsCancelled(s, id) || Asked(run, id)
    decreases |run|
  {
    if run != [] {
      StepCancels(c, s, run[0], id);
      CancelledIffAsked(c, Next(c, s, run[0]), run[1..], id);
      assert run == [run[0]] + run[1..];
    }
  }

  /**
    The answer of every task by the calls that were made: a task nobody asked to cancel gets the answer of
    Pipeline::run, or, if the pool is too small, that it was exhausted; another one that or Cancelled.
   */
  lemma AnswerByCalls(c: Config, run: seq<Action>, id: nat)
    requires ValidRun(c, Init(c), run) && id < |After(c, Init(c), run).delivered|
    ensures
      var t := After(c, Init(c), run);
      && id < |t.packets| == |t.tasks| && t.tasks[id].promise.Some?
      && (t.tasks[id].promise.value == CancelledResult()
          || SerialOrExhausted(c, t.packets[id], t.tasks[id].promise.value))
      && (!Asked(run, id) ==> SerialOrExhausted(c, t.packets[id], t.tasks[id].promise.value))
      && (!Asked(run, id) && PoolIsEnough(c) ==> t.tasks[id].promise == Some(RunPipeline(c.stages, t.packets[id])))
  {
    DeliveredIsDecided(c, After(c, Init(c), run), id);
    CancelledIffAsked(c, Init(c), run, id);
  }

  /** `cancel` before a task's last check decides it, and concerns nobody else. */
  lemma CancelDecides(c: Config, s: State, run: seq<Action>, id: nat, other: nat)
    requires Reachable(c, s) && id < |s.tasks| && ValidRun(c, Next(c, s, Cancel(id)), run)
    ensures
      var t := After(c, Next(c, s, Cancel(id)), run);
      |s.verdicts| <= id < |t.delivered| ==>
        id < |t.tasks| && t.tasks[id].promise == Some(CancelledResult()) && t.tasks[id].state == WasCancelled
    ensures other != id ==> (IsCancelled(Next(c, s, Cancel(id)), other) <==> IsCancelled(s, other))
  {
    var u := Next(c, s, Cancel(id));
    OneStepReachable(c, s, Cancel(id));
    StepCancels(c, s, Cancel(id), id);
    StepCancels(c, s, Cancel(id), other);
    if |s.verdicts| <= id < |After(c, u, run).delivered| { CancelledInTime(c, u, run, id); }
  }

  lemma OneStepReachable(c: Config, s: State, a: Action)
    requires Reachable(c, s) && Enabled(c, s, a)
    ensures Reachable(c, Next(c, s, a))
  {
    assert After(c, Next(c, s, a), []) == Next(c, s, a);
    assert [a][1..] == [];
    ReachableRun(c, s, [a]);
  }

  // ---------------------------------------------------------------- what a stop does

  lemma NothingIsAcceptedNow(c: Config, s: State, a: Action)
    requires !s.accepting && Enabled(c, s, a)
    ensures Next(c, s, a).packets == s.packets && !Next(c, s, a).accepting
  {
    match a
    case Submit(_) =>
    case RequestStop(_) =>
    case Cancel(_) =>
    case StartWait =>
    case WakeSubmitter(_) =>
    case PreStep => PreAcceptsNothing(c, s);
    case InfStep => InfAcceptsNothing(c, s);
    case PostStep => PostAcceptsNothing(c, s);
    case DispStep =>
    case WaiterStep =>
  }

  lemma PreAcceptsNothing(c: Config, s: State)
    requires PreReady(s)
    ensures PreNext(c, s).packets == s.packets && PreNext(c, s).accepting == s.accepting
  {
    match s.pre
    case PreWaiting =>
    case PreTaken(_) =>
    case PreCheck(_) =>
    case PreAcquire(_) =>
    case PreRun(_) =>
    case PreRecheck(_, _) =>
    case PrePush(_, _) =>
    case PreClose =>
  }

  lemma InfAcceptsNothing(c: Config, s: State)
    requires InfReady(s)
    ensures InfNext(c, s).packets == s.packets && InfNext(c, s).accepting == s.accepting
  {
  }

  lemma PostAcceptsNothing(c: Config, s: State)
    requires PostReady(s)
    ensures PostNext(c, s).packets == s.packets && PostNext(c, s).accepting == s.accepting
  {
  }

  lemma {:induction false} NothingIsAccepted(c: Config, s: State, run: seq<Action>)
    requires !s.accepting && ValidRun(c, s, run)
    ensures After(c, s, run).packets == s.packets
    decreases |run|
  {
    if run != [] {
      NothingIsAcceptedNow(c, s, run[0]);
      NothingIsAccepted(c, Next(c, s, run[0]), run[1..]);
    }
  }

  /** An immediate stop turns on the flag of every task in the entry queue at once, and no other flag. */
  lemma ImmediateStopFlagsTheQueue(c: Config, s: State, id: nat)
    requires Reachable(c, s) && id < |s.tasks|
    ensures
      var u := Next(c, s, RequestStop(true));
      |u.tasks| == |s.tasks| && (u.tasks[id].cancelRequested <==> s.tasks[id].cancelRequested || id in s.entry)
  {
    ReachablePlaces(c, s);
  }

  /**
    An immediate stop decides every accepted task. Along every run from it: no task is accepted any more; a
    task whose last check was still to come is delivered as Cancelled; one whose last check was over keeps
    what that check decided; and when no executor step is left every task has been delivered.
   */
  lemma ImmediateStopDecidesAll(c: Config, s: State, run: seq<Action>, id: nat)
    requires Reachable(c, s) && id < |s.tasks| && ValidRun(c, Next(c, s, RequestStop(true)), run)
    ensures
      var t := After(c, Next(c, s, RequestStop(true)), run);
      && t.packets == s.packets && |s.packets| == |s.tasks| == |t.tasks|
      && (|s.verdicts| <= id < |t.delivered| ==>
           t.tasks[id].promise == Some(CancelledResult()) && t.tasks[id].state == WasCancelled)
      && (id < |s.verdicts| && id < |t.delivered| ==>
           && t.tasks[id].promise.Some?
           && if s.verdicts[id] then t.tasks[id].promise.value == CancelledResult()
              else SerialOrExhausted(c, s.packets[id], t.tasks[id].promise.value))
      && (Settled(c, t) ==> id < |t.delivered|)
  {
    var u := Next(c, s, RequestStop(true));
    OneStepReachable(c, s, RequestStop(true));
    ReachablePlaces(c, s);
    var t := After(c, u, run);
    ReachableRun(c, u, run);
    ReachablePlaces(c, t);
    NothingIsAccepted(c, u, run);
    StopDrains(c, u, run);
    StepCancels(c, s, RequestStop(true), id);
    if id < |t.delivered| {
      if |s.verdicts| <= id {
        CancelledInTime(c, u, run, id);
      } else {
        VerdictIsFinal(c, u, run, id);
      }
    }
  }

  /**
    A graceful stop cancels nothing: if nobody was or is asked to be cancelled, every accepted task is
    delivered with the answer of Pipeline::run, and no other task is.
   */
  lemma GracefulStopCompletesAll(c: Config, before: seq<Action>, run: seq<Action>, id: nat)
    requires PoolIsEnough(c) && ValidRun(c, Init(c), before) && id < |After(c, Init(c), before).tasks|
    requires ValidRun(c, Next(c, After(c, Init(c), before), RequestStop(false)), run)
    requires !Asked(before, id) && !Asked(run, id)
    ensures
      var s := After(c, Init(c), before);
      var t := After(c, Next(c, s, RequestStop(false)), run);
      && t.packets == s.packets && |s.packets| == |s.tasks| == |t.tasks|
      && (id < |t.delivered| ==> t.tasks[id].promise == Some(RunPipeline(c.stages, s.packets[id])))
      && (Settled(c, t) ==> id < |t.delivered|)
  {
    var s := After(c, Init(c), before);
    var u := Next(c, s, RequestStop(false));
    OneStepReachable(c, s, RequestStop(false));
    ReachablePlaces(c, s);
    var t := After(c, u, run);
    ReachableRun(c, u, run);
    ReachablePlaces(c, t);
    NothingIsAccepted(c, u, run);
    StopDrains(c, u, run);
    CancelledIffAsked(c, Init(c), before, id);
    StepCancels(c, s, RequestStop(false), id);
    CancelledIffAsked(c, u, run, id);
    if id < |t.delivered| { DeliveredIsDecided(c, t, id); }
  }
}
