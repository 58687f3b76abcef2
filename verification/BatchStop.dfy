/**
  What `cancel` and `requestStop` do to the batch executor, named by the calls themselves: whose answer is
  Cancelled, whose is not, and that nothing is accepted after a stop.
 */
module BatchStop {
  import opened Core
  import opened Stages
  import opened Tasks
  import opened BoundedFifo
  import opened ExecutorParts
  import opened BatchExecutor
  import opened BatchInvariant
  import opened BatchFlow
  import opened BatchTheorems

  // ---------------------------------------------------------------- who is cancelled

  /** Somebody cancelled the task, or stopped the executor at once. */
  ghost predicate Asked(run: seq<Action>, id: nat) { Cancel(id) in run || RequestStop(true) in run }

  lemma StepCancels(c: Config, s: State, a: Action, id: nat)
    requires Enabled(c, s, a)
    ensures IsCancelled(Next(c, s, a), id) <==> IsCancelled(s, id) || a == Cancel(id) || a == RequestStop(true)
  {
    match a
    case Submit(_) =>
    case RequestStop(_) =>
    case Cancel(_) =>
    case StartWait =>
    case WakeSubmitter(_) =>
    case PreStep => PreCancelsNobody(c, s, id);
    case BatchStep => BatchCancelsNobody(c, s, id);
    case FlushTimeout(_) =>
    case PostStep =>
    case DispStep => DispCancelsNobody(s, id);
    case WaiterStep =>
  }

  lemma PreCancelsNobody(c: Config, s: State, id: nat)
    requires PreReady(s)
    ensures IsCancelled(PreNext(c, s), id) == IsCancelled(s, id)
    ensures PreNext(c, s).packets == s.packets && PreNext(c, s).accepting == s.accepting
    ensures PreNext(c, s).verdicts == s.verdicts
  {
    match s.pre
    case PreWaiting =>
    case PreTaken(_) =>
    case PreCheck(_) =>
    case PreAcquire(_) =>
    case PreRun(_) =>
    case PreRecheck(_, _) =>
    case PrePush(_, _) =>
    case PreClose =>
  }

  lemma BatchCancelsNobody(c: Config, s: State, id: nat)
    requires BatchReady(s)
    ensures IsCancelled(BatchNext(c, s), id) == IsCancelled(s, id)
    ensures BatchNext(c, s).packets == s.packets && BatchNext(c, s).accepting == s.accepting
  {
    match s.batch
    case Collect(_) =>
    case Examine(_, _, _) =>
    case Early(_, _, _) =>
    case GotNothing(_) =>
    case Infer(_, _) =>
    case FailMembers(_, _, _, _) =>
    case Postprocess(_, _, _, _) =>
    case PushResult(_, _, _, _, _) =>
    case BatchClose =>
  }

  lemma DispCancelsNobody(s: State, id: nat)
    requires DispReady(s)
    ensures IsCancelled(DispNext(s), id) == IsCancelled(s, id)
  {
  }

  /** Along every run a task comes to be cancelled by a call of `cancel` on it or by an immediate stop, and only so. */
  lemma {:induction false} CancelledIffAsked(c: Config, s: State, run: seq<Action>, id: nat)
    requires ValidRun(c, s, run)
    ensures IsCancelled(After(c, s, run), id) <==> IsCancelled(s, id) || Asked(run, id)
    decreases |run|
  {
    if run != [] {
      StepCancels(c, s, run[0], id);
      CancelledIffAsked(c, Next(c, s, run[0]), run[1..], id);
      assert run == [run[0]] + run[1..];
    }
  }

  // ---------------------------------------------------------------- verdicts along a run

  lemma StepIsLater(c: Config, s: State, a: Action)
    requires PlacesInv(c, s) && Enabled(c, s, a)
    ensures Later(s, Next(c, s, a))
  {
    if a.PreStep? {
      PreIsLater(c, s);
    } else if a.BatchStep? {
      BatchIsLater(c, s);
    } else if a.DispStep? {
      DispIsLater(s);
    } else if a.PostStep? || a.FlushTimeout? {
      QuietStepIsLater(c, s, a);
    } else {
      OutsideIsLater(c, s, a);
    }
  }

  lemma QuietStepIsLater(c: Config, s: State, a: Action)
    requires Enabled(c, s, a) && (a.PostStep? || a.FlushTimeout?)
    ensures Later(s, Next(c, s, a)) && Next(c, s, a).verdicts == s.verdicts
  {
  }

  lemma NewVerdictIsTheFlag(c: Config, s: State, a: Action, id: nat)
    requires FlowInv(c, s) && |s.packets| == |s.tasks| && Enabled(c, s, a)
    requires |s.verdicts| <= id < |Next(c, s, a).verdicts|
    ensures Next(c, s, a).verdicts[id] == IsCancelled(s, id)
  {
    if a.PreStep? {
      PreCancelsNobody(c, s, id);
    } else if a.BatchStep? {
      BatchVerdictIsTheFlag(c, s, id);
    } else if a.DispStep? {
      DispGivesNoVerdict(s);
    } else if a.PostStep? || a.FlushTimeout? {
      QuietStepIsLater(c, s, a);
    } else {
      OutsideIsLater(c, s, a);
    }
  }

  lemma DispGivesNoVerdict(s: State)
    requires DispReady(s)
    ensures DispNext(s).verdicts == s.verdicts
  {
  }

  lemma BatchVerdictIsTheFlag(c: Config, s: State, id: nat)
    requires BatchHandOk(c, s, s.batch) && BatchReady(s)
    requires |s.verdicts| <= id < |BatchNext(c, s).verdicts|
    ensures BatchNext(c, s).verdicts[id] == IsCancelled(s, id)
  {
    BatchVerdicts(c, s);
  }

  /** What has been decided stays, and what is decided later sees every cancellation. */
  lemma {:induction false} VerdictsAlongARun(c: Config, s: State, run: seq<Action>, id: nat)
    requires Usable(c) && Inv(c, s) && ValidRun(c, s, run)
    ensures Inv(c, After(c, s, run)) && Later(s, After(c, s, run))
    ensures IsCancelled(s, id) && |s.verdicts| <= id < |After(c, s, run).verdicts| ==> After(c, s, run).verdicts[id]
    ensures !IsCancelled(After(c, s, run), id) && |s.verdicts| <= id < |After(c, s, run).verdicts| ==>
              !After(c, s, run).verdicts[id]
    decreases |run|
  {
    if run != [] {
      var t := Next(c, s, run[0]);
      StepIsLater(c, s, run[0]);
      if |s.verdicts| <= id < |t.verdicts| { NewVerdictIsTheFlag(c, s, run[0], id); }
      StepKeepsInv(c, s, run[0]);
      VerdictsAlongARun(c, t, run[1..], id);
    }
  }

  /** A task cancelled before its last check is delivered as Cancelled, along every run. */
  lemma CancelledInTime(c: Config, s: State, run: seq<Action>, id: nat)
    requires Usable(c) && Reachable(c, s) && ValidRun(c, s, run)
    requires IsCancelled(s, id) && |s.verdicts| <= id && id in After(c, s, run).delivered
    ensures id < |After(c, s, run).tasks|
    ensures After(c, s, run).tasks[id].promise == Some(CancelledResult())
    ensures After(c, s, run).tasks[id].state == WasCancelled
  {
    ReachableInv(c, s);
    VerdictsAlongARun(c, s, run, id);
    Delivered(c, After(c, s, run), id);
  }

  /** What DeliveredAnswer says, from the invariant. */
  lemma Delivered(c: Config, s: State, id: nat)
    requires Inv(c, s) && id in s.delivered
    ensures id < |s.tasks| == |s.packets| && s.tasks[id].promise.Some? && DoneOk(c, s, id, s.tasks[id].promise.value)
    ensures s.tasks[id].state == TerminalFor(s.tasks[id].promise.value)
  {
    DeliveredWasTaken(s, id);
    assert OneTaskInv(c, s, id, s.tasks[id]);
  }

  /** Only who was asked to be cancelled can be told so by the executor. */
  lemma VerdictByCalls(c: Config, run: seq<Action>, id: nat)
    requires Usable(c) && ValidRun(c, Init(c), run) && id < |After(c, Init(c), run).verdicts|
    ensures After(c, Init(c), run).verdicts[id] ==> Asked(run, id)
  {
    InitHolds(c);
    VerdictsAlongARun(c, Init(c), run, id);
    CancelledIffAsked(c, Init(c), run, id);
  }

  /** `cancel` before a task's last check decides it, and concerns nobody else. */
  lemma CancelDecides(c: Config, s: State, run: seq<Action>, id: nat, other: nat)
    requires Usable(c) && Reachable(c, s) && id < |s.tasks| && ValidRun(c, Next(c, s, Cancel(id)), run)
    ensures
      var t := After(c, Next(c, s, Cancel(id)), run);
      |s.verdicts| <= id && id in t.delivered ==>
        id < |t.tasks| && t.tasks[id].promise == Some(CancelledResult()) && t.tasks[id].state == WasCancelled
    ensures other != id ==> (IsCancelled(Next(c, s, Cancel(id)), other) <==> IsCancelled(s, other))
  {
    var u := Next(c, s, Cancel(id));
    ReachableInv(c, s);
    StepKeepsInv(c, s, Cancel(id));
    StepCancels(c, s, Cancel(id), id);
    StepCancels(c, s, Cancel(id), other);
    StepIsLater(c, s, Cancel(id));
    OutsideIsLater(c, s, Cancel(id));
    VerdictsAlongARun(c, u, run, id);
    if id in After(c, u, run).delivered { Delivered(c, After(c, u, run), id); }
  }

  // ---------------------------------------------------------------- what a stop does

  lemma NothingIsAcceptedNow(c: Config, s: State, a: Action)
    requires !s.accepting && Enabled(c, s, a)
    ensures Next(c, s, a).packets == s.packets && !Next(c, s, a).accepting
  {
    match a
    case Submit(_) =>
    case RequestStop(_) =>
    case Cancel(_) =>
    case StartWait =>
    case WakeSubmitter(_) =>
    case PreStep => PreCancelsNobody(c, s, 0);
    case BatchStep => BatchCancelsNobody(c, s, 0);
    case FlushTimeout(_) =>
    case PostStep =>
    case DispStep =>
    case WaiterStep =>
  }

  lemma {:induction false} NothingIsAccepted(c: Config, s: State, run: seq<Action>)
    requires !s.accepting && ValidRun(c, s, run)
    ensures After(c, s, run).packets == s.packets
    decreases |run|
  {
    if run != [] {
      NothingIsAcceptedNow(c, s, run[0]);
      NothingIsAccepted(c, Next(c, s, run[0]), run[1..]);
    }
  }

  /** An immediate stop turns on the flag of every task in the entry queue at once, and no other flag. */
  lemma ImmediateStopFlagsTheQueue(c: Config, s: State, id: nat)
    requires Usable(c) && Reachable(c, s) && id < |s.tasks|
    ensures
      var u := Next(c, s, RequestStop(true));
      |u.tasks| == |s.tasks| && (u.tasks[id].cancelRequested <==> s.tasks[id].cancelRequested || id in s.entry)
  {
  }

  /**
    An immediate stop decides every accepted task. Along every run from it: no task is accepted any more; a
    task the batching thread had not examined is delivered as Cancelled; and one it had examined keeps its
    verdict: Cancelled, its own early failure, or the answer of the batch it went into.
   */
  lemma ImmediateStopDecidesAll(c: Config, s: State, run: seq<Action>, id: nat)
    requires Usable(c) && Reachable(c, s) && ValidRun(c, Next(c, s, RequestStop(true)), run)
    requires id in After(c, Next(c, s, RequestStop(true)), run).delivered
    ensures
      var t := After(c, Next(c, s, RequestStop(true)), run);
      && t.packets == s.packets && id < |s.packets| == |s.tasks| == |t.tasks| && t.tasks[id].promise.Some?
      && (|s.verdicts| <= id ==>
           t.tasks[id].promise == Some(CancelledResult()) && t.tasks[id].state == WasCancelled)
      && (id < |s.verdicts| ==>
           && id < |s.given|
           && if s.verdicts[id] then t.tasks[id].promise.value == CancelledResult()
              else if s.given[id].Err? then t.tasks[id].promise.value == Err(s.given[id].status)
              else exists b: nat, j: nat :: AnsweredAt(c, t.batches, b, j, id, t.tasks[id].promise.value))
  {
    var u := Next(c, s, RequestStop(true));
    ReachableInv(c, s);
    StepKeepsInv(c, s, RequestStop(true));
    OutsideIsLater(c, s, RequestStop(true));
    StepCancels(c, s, RequestStop(true), id);
    NothingIsAccepted(c, u, run);
    VerdictsAlongARun(c, u, run, id);
    Delivered(c, After(c, u, run), id);
  }

  /**
    A graceful stop cancels nothing: a task that nobody has asked to cancel gets no verdict of cancellation
    after it, and no task is accepted any more.
   */
  lemma GracefulStopCancelsNobody(c: Config, s: State, run: seq<Action>, id: nat)
    requires Usable(c) && Reachable(c, s) && ValidRun(c, Next(c, s, RequestStop(false)), run)
    requires !IsCancelled(s, id) && !Asked(run, id)
    ensures
      var t := After(c, Next(c, s, RequestStop(false)), run);
      t.packets == s.packets && (|s.verdicts| <= id < |t.verdicts| ==> !t.verdicts[id])
  {
    var u := Next(c, s, RequestStop(false));
    ReachableInv(c, s);
    StepKeepsInv(c, s, RequestStop(false));
    OutsideIsLater(c, s, RequestStop(false));
    StepCancels(c, s, RequestStop(false), id);
    CancelledIffAsked(c, u, run, id);
    NothingIsAccepted(c, u, run);
    VerdictsAlongARun(c, u, run, id);
  }
}
