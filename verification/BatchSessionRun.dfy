/**
  The session's counters run together with the batch executor, which is what the service assembles:
  what `wait` promises then depends on the two ways in which that executor can leave a task undone.
 */
module BatchSessionRun {
  import opened Core
  import opened ExecutorParts
  import S = SessionAccounting
  import E = BatchExecutor
  import BatchInvariant
  import BatchDrain
  import BatchTheorems
  import D = BatchDispatch
  import BatchDispatchTheorems
  import BatchDispatchSafety
  import BatchDispatchRun

  datatype Joint = Joint(session: S.State, executor: D.Whole)

  datatype Move =
    | SessionOnly(counted: S.Action)
    | ExecutorOnly(step: D.Move)
    | Submitted(ticket: S.Ticket, submit: D.Move)
    | CalledBack
    | WaitReturns

  ghost function Start(sc: S.Config, c: E.Config): Joint { Joint(S.Init(sc), D.Start(c)) }

  ghost predicate Accepts(c: E.Config, w: D.Whole, m: D.Move) {
    D.Possible(c, w, m) && |D.Moved(c, w, m).inner.packets| > |w.inner.packets|
  }

  /** The dispatcher finishes a pop and calls back. */
  ghost predicate CallsBack(w: D.Whole, m: D.Move) { m.Pop? && w.ring.popper.PublishHead? }

  ghost predicate Possible(sc: S.Config, c: E.Config, j: Joint, m: Move) {
    match m
    case SessionOnly(a) => S.Enabled(sc, j.session, a) && !S.MeetsExecutor(a)
    case ExecutorOnly(a) => D.Possible(c, j.executor, a) && !Accepts(c, j.executor, a) && !CallsBack(j.executor, a)
    case Submitted(t, a) => S.Enabled(sc, j.session, S.Accept(t)) && Accepts(c, j.executor, a)
    case CalledBack => D.Possible(c, j.executor, D.Pop) && CallsBack(j.executor, D.Pop)
    case WaitReturns => S.Enabled(sc, j.session, S.JoinExecutor) && j.executor.inner.waiter.WaitReturned?
  }

  ghost function Moved(sc: S.Config, c: E.Config, j: Joint, m: Move): Joint
    requires Possible(sc, c, j, m)
  {
    match m
    case SessionOnly(a) => j.(session := S.Next(sc, j.session, a))
    case ExecutorOnly(a) => j.(executor := D.Moved(c, j.executor, a))
    case Submitted(t, a) => Joint(S.Next(sc, j.session, S.Accept(t)), D.Moved(c, j.executor, a))
    case CalledBack =>
      Joint(S.Counted(sc, j.session, j.executor.ring.popper.v.result.Ok?), D.Moved(c, j.executor, D.Pop))
    case WaitReturns => j.(session := S.Next(sc, j.session, S.JoinExecutor))
  }

  ghost predicate Moves(sc: S.Config, c: E.Config, j: Joint, run: seq<Move>)
    decreases |run|
  {
    run == [] || (Possible(sc, c, j, run[0]) && Moves(sc, c, Moved(sc, c, j, run[0]), run[1..]))
  }

  ghost function Ending(sc: S.Config, c: E.Config, j: Joint, run: seq<Move>): Joint
    requires Moves(sc, c, j, run)
    decreases |run|
  {
    if run == [] then j else Ending(sc, c, Moved(sc, c, j, run[0]), run[1..])
  }

  // ---------------------------------------------------------------- the two agree

  /** Accepted tasks whose callback has not been made. */
  ghost function Open(w: D.Whole): int { |w.inner.packets| - |w.ring.popped| }

  ghost predicate JointInv(sc: S.Config, c: E.Config, j: Joint) {
    && S.CountsInv(sc, j.session) && S.StopInv(sc, j.session) && D.Happens(c, j.executor)
    && j.session.outstanding == Open(j.executor)
    && j.session.summary.completed + j.session.outstanding == |j.executor.inner.packets|
    && (j.session.finished ==> j.executor.inner.waiter.WaitReturned?)
  }

  lemma StartInv(sc: S.Config, c: E.Config)
    ensures JointInv(sc, c, Start(sc, c))
  {
    S.ZerosSum(sc.sources);
    var run: seq<D.Move> := [];
    assert D.Moves(c, D.Start(c), run) && D.Ending(c, D.Start(c), run) == D.Start(c);
  }

  /** A step of the executor proper accepts at most one packet, and `wait` stays returned. */
  lemma InnerStepAccepts(c: E.Config, s: E.State, a: E.Action)
    requires E.Enabled(c, s, a)
    ensures |s.packets| <= |E.Next(c, s, a).packets| <= |s.packets| + 1
    ensures s.waiter.WaitReturned? ==> E.Next(c, s, a).waiter.WaitReturned?
    ensures a.BatchStep? || a.PostStep? ==> E.Next(c, s, a).packets == s.packets
  {
    match a
    case Submit(_) =>
    case RequestStop(_) =>
    case Cancel(_) =>
    case StartWait =>
    case WakeSubmitter(_) =>
    case PreStep => PreAccepts(c, s);
    case BatchStep => BatchAccepts(c, s);
    case FlushTimeout(_) =>
    case PostStep =>
    case DispStep =>
    case WaiterStep =>
  }

  lemma PreAccepts(c: E.Config, s: E.State)
    requires E.PreReady(s)
    ensures E.PreNext(c, s).packets == s.packets && E.PreNext(c, s).waiter == s.waiter
  {
    BatchInvariant.PreTouches(c, s);
  }

  lemma BatchAccepts(c: E.Config, s: E.State)
    requires E.BatchReady(s)
    ensures E.BatchNext(c, s).packets == s.packets && E.BatchNext(c, s).waiter == s.waiter
  {
    BatchInvariant.BatchTouches(c, s);
  }

  lemma ExecutorStepKeepsOpen(c: E.Config, w: D.Whole, m: D.Move)
    requires D.Possible(c, w, m)
    ensures |D.Moved(c, w, m).inner.packets| == |w.inner.packets| + One(Accepts(c, w, m))
    ensures |D.Moved(c, w, m).ring.popped| == |w.ring.popped| + One(CallsBack(w, m))
    ensures Accepts(c, w, m) ==> !CallsBack(w, m)
    ensures w.inner.waiter.WaitReturned? ==> D.Moved(c, w, m).inner.waiter.WaitReturned?
  {
    if m.Inner? {
      InnerStepAccepts(c, w.inner, m.action);
    } else if m.Push? {
      PushKeepsOpen(c, w, m.who);
    }
  }

  lemma PushKeepsOpen(c: E.Config, w: D.Whole, who: nat)
    requires D.Possible(c, w, D.Push(who))
    ensures D.PushMove(c, w, who).inner.packets == w.inner.packets
    ensures D.PushMove(c, w, who).ring.popped == w.ring.popped
    ensures w.inner.waiter.WaitReturned? ==> D.PushMove(c, w, who).inner.waiter.WaitReturned?
  {
    if E.Enabled(c, w.inner, D.HandOver(who)) { InnerStepAccepts(c, w.inner, D.HandOver(who)); }
  }

  /** A callback finds a task outstanding and the session not finished, whatever has overlapped. */
  lemma CallbackIsCounted(sc: S.Config, c: E.Config, j: Joint, succeeded: bool)
    requires BatchTheorems.Usable(c) && JointInv(sc, c, j) && CallsBack(j.executor, D.Pop)
    ensures S.Enabled(sc, j.session, S.Complete(succeeded))
  {
    D.HappensInv(c, j.executor);
    BatchDispatchSafety.CompletionsAreFew(c, j.executor);
  }

  lemma SessionMoveKeepsInv(sc: S.Config, c: E.Config, j: Joint, a: S.Action)
    requires JointInv(sc, c, j) && Possible(sc, c, j, SessionOnly(a))
    ensures JointInv(sc, c, Moved(sc, c, j, SessionOnly(a)))
  {
    S.OwnStepKeepsOpen(sc, j.session, a);
    S.StepKeepsInv(sc, j.session, a);
  }

  lemma ExecutorMoveKeepsInv(sc: S.Config, c: E.Config, j: Joint, a: D.Move)
    requires JointInv(sc, c, j) && Possible(sc, c, j, ExecutorOnly(a))
    ensures JointInv(sc, c, Moved(sc, c, j, ExecutorOnly(a)))
  {
    ExecutorStepKeepsOpen(c, j.executor, a);
    var w := BatchDispatchRun.Then(c, j.executor, a);
  }

  lemma SubmittedKeepsInv(sc: S.Config, c: E.Config, j: Joint, t: S.Ticket, a: D.Move)
    requires JointInv(sc, c, j) && Possible(sc, c, j, Submitted(t, a))
    ensures JointInv(sc, c, Moved(sc, c, j, Submitted(t, a)))
  {
    ExecutorStepKeepsOpen(c, j.executor, a);
    S.MeetingSteps(sc, j.session, t, true);
    S.StepKeepsInv(sc, j.session, S.Accept(t));
    var w := BatchDispatchRun.Then(c, j.executor, a);
  }

  lemma CalledBackKeepsInv(sc: S.Config, c: E.Config, j: Joint)
    requires BatchTheorems.Usable(c) && JointInv(sc, c, j) && Possible(sc, c, j, CalledBack)
    ensures JointInv(sc, c, Moved(sc, c, j, CalledBack))
  {
    var succeeded := j.executor.ring.popper.v.result.Ok?;
    ExecutorStepKeepsOpen(c, j.executor, D.Pop);
    CallbackIsCounted(sc, c, j, succeeded);
    S.CountedKeepsInv(sc, j.session, succeeded);
    var w := BatchDispatchRun.Then(c, j.executor, D.Pop);
  }

  lemma MoveKeepsInv(sc: S.Config, c: E.Config, j: Joint, m: Move)
    requires BatchTheorems.Usable(c) && JointInv(sc, c, j) && Possible(sc, c, j, m)
    ensures JointInv(sc, c, Moved(sc, c, j, m))
  {
    match m
    case SessionOnly(a) => SessionMoveKeepsInv(sc, c, j, a);
    case ExecutorOnly(a) => ExecutorMoveKeepsInv(sc, c, j, a);
    case Submitted(t, a) => SubmittedKeepsInv(sc, c, j, t, a);
    case CalledBack => CalledBackKeepsInv(sc, c, j);
    case WaitReturns => S.StepKeepsInv(sc, j.session, S.JoinExecutor);
  }

  lemma MovesKeepInv(sc: S.Config, c: E.Config, j: Joint, run: seq<Move>)
    requires BatchTheorems.Usable(c) && JointInv(sc, c, j) && Moves(sc, c, j, run)
    ensures JointInv(sc, c, Ending(sc, c, j, run))
    decreases |run|
  {
    if run != [] {
      MoveKeepsInv(sc, c, j, run[0]);
      MovesKeepInv(sc, c, Moved(sc, c, j, run[0]), run[1..]);
    }
  }

  /** When the executor's `wait` has returned, all its threads have ended. */
  lemma WaitedMeansEnded(c: E.Config, w: D.Whole)
    requires BatchTheorems.Usable(c) && D.Happens(c, w) && w.inner.waiter.WaitReturned?
    ensures BatchDispatchTheorems.WholeEnded(w)
  {
    D.HappensInv(c, w);
    D.ClosedMeansQuiet(c, w);
    BatchInvariant.ReachablePlaces(c, w.inner);
  }

  /**
    Over every run of a session with the batch executor: when the session has finished, everything
    received is counted, and every submitted frame has been completed if and only if the executor left
    no task in its preprocessed queue and no two of its dispatches overlapped.
   */
  lemma SessionCompletesAllIff(sc: S.Config, c: E.Config, run: seq<Move>)
    requires BatchTheorems.Usable(c) && Moves(sc, c, Start(sc, c), run)
    requires Ending(sc, c, Start(sc, c), run).session.finished
    ensures
      var j := Ending(sc, c, Start(sc, c), run);
      var m := j.session.summary;
      && m.submitted == |j.executor.inner.packets| && m.completed == |j.executor.ring.popped| <= m.submitted
      && (m.completed == m.submitted <==>
            j.executor.inner.preprocessQueue.items == [] && !j.executor.ring.overlapped)
      && m.received == m.sourceFailures + m.submitted + m.dropped + j.session.refused
  {
    StartInv(sc, c);
    MovesKeepInv(sc, c, Start(sc, c), run);
    var j := Ending(sc, c, Start(sc, c), run);
    WaitedMeansEnded(c, j.executor);
    BatchDispatchTheorems.RestCountsAllIff(c, j.executor);
    S.NobodyInside(j.session);
  }
}
