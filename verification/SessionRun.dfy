/**
  The session's counters run together with an executor: a frame the executor accepts is one more task
  outstanding, a completion callback one less, and the session has finished when the executor's `wait`
  has returned.
 */
module SessionRun {
  import opened Core
  import opened Tasks
  import opened ExecutorParts
  import S = SessionAccounting
  import P = ParallelExecutor
  import ParallelInvariant
  import ParallelPool

  datatype Joint = Joint(session: S.State, executor: P.State)

  datatype Move =
    | SessionOnly(counted: S.Action)
    | ExecutorOnly(step: P.Action)
    | Submitted(ticket: S.Ticket, submit: P.Action)
    | CalledBack
    | WaitReturns

  ghost function Start(sc: S.Config, pc: P.Config): Joint { Joint(S.Init(sc), P.Init(pc)) }

  ghost predicate Accepts(pc: P.Config, e: P.State, a: P.Action) {
    P.Enabled(pc, e, a) && |P.Next(pc, e, a).tasks| > |e.tasks|
  }

  ghost predicate Possible(sc: S.Config, pc: P.Config, j: Joint, m: Move) {
    match m
    case SessionOnly(a) => S.Enabled(sc, j.session, a) && !S.MeetsExecutor(a)
    case ExecutorOnly(a) =>
      P.Enabled(pc, j.executor, a) && !Accepts(pc, j.executor, a) && !(a.DispStep? && j.executor.disp.DispCallback?)
    case Submitted(t, a) => S.Enabled(sc, j.session, S.Accept(t)) && Accepts(pc, j.executor, a)
    case CalledBack => j.executor.disp.DispCallback?
    case WaitReturns => S.Enabled(sc, j.session, S.JoinExecutor) && j.executor.waiter.WaitReturned?
  }

  /** The callback is given the answer that was delivered last. */
  ghost predicate LastSucceeded(e: P.State) {
    e.delivered != [] && e.delivered[|e.delivered| - 1] < |e.tasks|
    && e.tasks[e.delivered[|e.delivered| - 1]].promise.Some?
    && e.tasks[e.delivered[|e.delivered| - 1]].promise.value.Ok?
  }

  ghost function Moved(sc: S.Config, pc: P.Config, j: Joint, m: Move): Joint
    requires Possible(sc, pc, j, m)
  {
    match m
    case SessionOnly(a) => j.(session := S.Next(sc, j.session, a))
    case ExecutorOnly(a) => j.(executor := P.Next(pc, j.executor, a))
    case Submitted(t, a) => Joint(S.Next(sc, j.session, S.Accept(t)), P.Next(pc, j.executor, a))
    case CalledBack =>
      Joint(S.Counted(sc, j.session, LastSucceeded(j.executor)), P.Next(pc, j.executor, P.DispStep))
    case WaitReturns => j.(session := S.Next(sc, j.session, S.JoinExecutor))
  }

  ghost predicate Moves(sc: S.Config, pc: P.Config, j: Joint, run: seq<Move>)
    decreases |run|
  {
    run == [] || (Possible(sc, pc, j, run[0]) && Moves(sc, pc, Moved(sc, pc, j, run[0]), run[1..]))
  }

  ghost function Ending(sc: S.Config, pc: P.Config, j: Joint, run: seq<Move>): Joint
    requires Moves(sc, pc, j, run)
    decreases |run|
  {
    if run == [] then j else Ending(sc, pc, Moved(sc, pc, j, run[0]), run[1..])
  }

  // ---------------------------------------------------------------- the two agree

  /** Accepted tasks whose callback has not been made. */
  ghost function Open(e: P.State): int { |e.tasks| - |e.delivered| + One(e.disp.DispCallback?) }

  ghost predicate JointInv(sc: S.Config, pc: P.Config, j: Joint) {
    && S.CountsInv(sc, j.session) && S.StopInv(sc, j.session) && P.Reachable(pc, j.executor)
    && j.session.outstanding == Open(j.executor)
    && j.session.summary.completed + j.session.outstanding == |j.executor.tasks|
    && (j.session.finished ==> j.executor.waiter.WaitReturned?)
  }

  lemma StartInv(sc: S.Config, pc: P.Config)
    ensures JointInv(sc, pc, Start(sc, pc))
  {
    S.ZerosSum(sc.sources);
    var run: seq<P.Action> := [];
    assert P.ValidRun(pc, P.Init(pc), run) && P.After(pc, P.Init(pc), run) == P.Init(pc);
  }

  /** Only accepting and calling back change what is open, and a returned `wait` stays returned. */
  lemma ExecutorStepKeepsOpen(pc: P.Config, e: P.State, a: P.Action)
    requires P.Reachable(pc, e) && P.Enabled(pc, e, a)
    ensures |P.Next(pc, e, a).tasks| == |e.tasks| + One(Accepts(pc, e, a))
    ensures Open(P.Next(pc, e, a)) ==
            Open(e) + One(Accepts(pc, e, a)) - One(a.DispStep? && e.disp.DispCallback?)
    ensures e.waiter.WaitReturned? ==> P.Next(pc, e, a).waiter.WaitReturned?
  {
    if a.PreStep? {
      PreKeepsOpen(pc, e);
    } else if a.InfStep? {
      InfKeepsOpen(pc, e);
    } else if a.PostStep? {
      PostKeepsOpen(pc, e);
    } else if a.DispStep? {
      DispKeepsOpen(e);
    } else {
      OutsideKeepsOpen(pc, e, a);
    }
  }

  lemma DispKeepsOpen(e: P.State)
    requires P.DispReady(e)
    ensures
      var f := P.DispNext(e);
      |f.tasks| == |e.tasks| && f.waiter == e.waiter && Open(f) == Open(e) - One(e.disp.DispCallback?)
  {
    match e.disp
    case DispPop =>
    case DispStore(_, _) =>
    case DispPromise(_, _) =>
    case DispCallback =>
  }

  lemma OutsideKeepsOpen(pc: P.Config, e: P.State, a: P.Action)
    requires P.Enabled(pc, e, a) && ParallelInvariant.Outside(a)
    ensures
      var f := P.Next(pc, e, a);
      && |e.tasks| <= |f.tasks| <= |e.tasks| + 1 && f.delivered == e.delivered && f.disp == e.disp
      && (e.waiter.WaitReturned? ==> f.waiter.WaitReturned?)
  {
    match a
    case Submit(_) =>
    case RequestStop(_) =>
    case Cancel(_) =>
    case StartWait =>
    case WakeSubmitter(_) =>
    case WaiterStep =>
    case _ =>
  }

  ghost predicate SameOpen(e: P.State, f: P.State) {
    |f.tasks| == |e.tasks| && f.delivered == e.delivered && f.disp == e.disp && f.waiter == e.waiter
  }

  lemma PreKeepsOpen(pc: P.Config, e: P.State)
    requires P.PreReady(e)
    ensures SameOpen(e, P.PreNext(pc, e))
  {
    ParallelInvariant.PreTouches(pc, e);
  }

  lemma InfKeepsOpen(pc: P.Config, e: P.State)
    requires P.InfReady(e)
    ensures SameOpen(e, P.InfNext(pc, e))
  {
  }

  lemma PostKeepsOpen(pc: P.Config, e: P.State)
    requires P.PostReady(e)
    ensures SameOpen(e, P.PostNext(pc, e))
  {
  }

  /** A callback finds a task outstanding and the session not finished. */
  lemma CallbackIsCounted(sc: S.Config, pc: P.Config, j: Joint, succeeded: bool)
    requires JointInv(sc, pc, j) && j.executor.disp.DispCallback?
    ensures S.Enabled(sc, j.session, S.Complete(succeeded))
  {
    ParallelInvariant.ReachablePlaces(pc, j.executor);
  }

  lemma SessionMoveKeepsInv(sc: S.Config, pc: P.Config, j: Joint, a: S.Action)
    requires JointInv(sc, pc, j) && Possible(sc, pc, j, SessionOnly(a))
    ensures JointInv(sc, pc, Moved(sc, pc, j, SessionOnly(a)))
  {
    S.OwnStepKeepsOpen(sc, j.session, a);
    S.StepKeepsInv(sc, j.session, a);
  }

  lemma ExecutorMoveKeepsInv(sc: S.Config, pc: P.Config, j: Joint, a: P.Action)
    requires JointInv(sc, pc, j) && Possible(sc, pc, j, ExecutorOnly(a))
    ensures JointInv(sc, pc, Moved(sc, pc, j, ExecutorOnly(a)))
  {
    ExecutorStepKeepsOpen(pc, j.executor, a);
    var e := ParallelPool.Then(pc, j.executor, a);
  }

  lemma AcceptedIsOpen(pc: P.Config, e: P.State, a: P.Action)
    requires P.Reachable(pc, e) && Accepts(pc, e, a)
    ensures
      var f := P.Next(pc, e, a);
      && |f.tasks| == |e.tasks| + 1 && Open(f) == Open(e) + 1
      && (e.waiter.WaitReturned? ==> f.waiter.WaitReturned?)
  {
    AcceptingIsNoCallback(pc, e, a);
    ExecutorStepKeepsOpen(pc, e, a);
  }

  lemma SubmittedKeepsInv(sc: S.Config, pc: P.Config, j: Joint, t: S.Ticket, a: P.Action)
    requires JointInv(sc, pc, j) && Possible(sc, pc, j, Submitted(t, a))
    ensures JointInv(sc, pc, Moved(sc, pc, j, Submitted(t, a)))
  {
    AcceptedIsOpen(pc, j.executor, a);
    S.MeetingSteps(sc, j.session, t, true);
    S.StepKeepsInv(sc, j.session, S.Accept(t));
    var e := ParallelPool.Then(pc, j.executor, a);
  }

  lemma AcceptingIsNoCallback(pc: P.Config, e: P.State, a: P.Action)
    requires Accepts(pc, e, a)
    ensures !a.DispStep?
  {
  }

  lemma CalledBackKeepsInv(sc: S.Config, pc: P.Config, j: Joint)
    requires JointInv(sc, pc, j) && Possible(sc, pc, j, CalledBack)
    ensures JointInv(sc, pc, Moved(sc, pc, j, CalledBack))
  {
    var succeeded := LastSucceeded(j.executor);
    ExecutorStepKeepsOpen(pc, j.executor, P.DispStep);
    CallbackIsCounted(sc, pc, j, succeeded);
    S.CountedKeepsInv(sc, j.session, succeeded);
    var e := ParallelPool.Then(pc, j.executor, P.DispStep);
  }

  lemma WaitReturnsKeepsInv(sc: S.Config, pc: P.Config, j: Joint)
    requires JointInv(sc, pc, j) && Possible(sc, pc, j, WaitReturns)
    ensures JointInv(sc, pc, Moved(sc, pc, j, WaitReturns))
  {
    S.StepKeepsInv(sc, j.session, S.JoinExecutor);
  }

  lemma MoveKeepsInv(sc: S.Config, pc: P.Config, j: Joint, m: Move)
    requires JointInv(sc, pc, j) && Possible(sc, pc, j, m)
    ensures JointInv(sc, pc, Moved(sc, pc, j, m))
  {
    match m
    case SessionOnly(a) => SessionMoveKeepsInv(sc, pc, j, a);
    case ExecutorOnly(a) => ExecutorMoveKeepsInv(sc, pc, j, a);
    case Submitted(t, a) => SubmittedKeepsInv(sc, pc, j, t, a);
    case CalledBack => CalledBackKeepsInv(sc, pc, j);
    case WaitReturns => WaitReturnsKeepsInv(sc, pc, j);
  }

  lemma MovesKeepInv(sc: S.Config, pc: P.Config, j: Joint, run: seq<Move>)
    requires JointInv(sc, pc, j) && Moves(sc, pc, j, run)
    ensures JointInv(sc, pc, Ending(sc, pc, j, run))
    decreases |run|
  {
    if run != [] {
      MoveKeepsInv(sc, pc, j, run[0]);
      MovesKeepInv(sc, pc, Moved(sc, pc, j, run[0]), run[1..]);
    }
  }

  /** When the executor's `wait` has returned, every accepted task has been called back. */
  lemma WaitedMeansNoneOpen(pc: P.Config, e: P.State)
    requires P.Reachable(pc, e) && e.waiter.WaitReturned?
    ensures Open(e) == 0
  {
    ParallelInvariant.ReachablePlaces(pc, e);
  }

  /**
    Over every run of a session with the parallel executor: when the session has finished, every
    submitted frame has been completed and every received frame is counted.
   */
  lemma SessionCompletesEverything(sc: S.Config, pc: P.Config, run: seq<Move>)
    requires Moves(sc, pc, Start(sc, pc), run) && Ending(sc, pc, Start(sc, pc), run).session.finished
    ensures
      var m := Ending(sc, pc, Start(sc, pc), run).session.summary;
      && m.completed == m.submitted == |Ending(sc, pc, Start(sc, pc), run).executor.tasks|
      && m.received == m.sourceFailures + m.submitted + m.dropped + Ending(sc, pc, Start(sc, pc), run).session.refused
  {
    StartInv(sc, pc);
    MovesKeepInv(sc, pc, Start(sc, pc), run);
    var j := Ending(sc, pc, Start(sc, pc), run);
    WaitedMeansNoneOpen(pc, j.executor);
    S.NobodyInside(j.session);
  }
}
