/**
  serialPipelineExecutor.hpp: one runner thread, the same dispatcher. The simple executor that the
  pipelined one must match.
 */
module SerialExecutor {
  import opened Core
  import opened Stages
  import opened Tasks
  import opened BoundedFifo
  import opened ExecutorParts

  datatype Config = Config(stages: Stages, queueCapacity: nat, blockWhenFull: bool)

  datatype Runner =
    | Waiting
    | Check(id: nat)
    | Mark(id: nat)
    | Execute(id: nat)
    | Recheck(id: nat, result: Result<Answer>)
    | Dispatch(id: nat, result: Result<Answer>)
    | Reset
    | Done

  /**
    `mishap` records that an immediate stop has reached into a task that was already moved to the
    dispatcher, which the source leaves undefined.
   */
  datatype State = State(
    packets: seq<Packet>,
    tasks: seq<Task<Answer>>,
    queue: seq<nat>,
    blocked: seq<Packet>,
    accepting: bool,
    stopRequested: bool,
    runner: Runner,
    runningTask: Option<nat>,
    completions: Fifo<Completion>,
    disp: DispatcherThread,
    waiter: Waiter,
    delivered: seq<nat>,
    verdicts: seq<bool>,
    mishap: bool
  )

  datatype Action =
    | Submit(packet: Packet)
    | RequestStop(immediate: bool)
    | Cancel(task: nat)
    | StartWait
    | WakeSubmitter(which: nat)
    | RunnerStep
    | DispStep
    | WaiterStep

  ghost function Init(c: Config): State {
    State([], [], [], [], true, false, Waiting, None, BoundedFifo.Empty(c.queueCapacity), DispPop, NotWaiting, [], [],
        false)
  }

  predicate Flagged(s: State, id: nat) { id < |s.tasks| && s.tasks[id].cancelRequested }

  ghost predicate RunnerReady(s: State) {
    match s.runner
    case Waiting => s.stopRequested || s.queue != []
    case Mark(id) => id < |s.tasks|
    case Execute(id) => id < |s.packets|
    case Dispatch(_, _) => PushReturns(s.completions)
    case Done => false
    case _ => true
  }

  ghost predicate DispReady(s: State) {
    match s.disp
    case DispPop => s.completions.CanPop() || s.completions.Drained()
    case DispStore(id, _) => id < |s.tasks|
    case DispPromise(id, _) => id < |s.tasks| && s.tasks[id].promise.None?
    case DispCallback => true
    case DispDone => false
  }

  /** From the hand-over of a task to the reset, `runningTask_` names a moved-from task. */
  ghost predicate RunningTaskIsMoved(s: State) { s.runner.Dispatch? || s.runner.Reset? }

  ghost predicate Enabled(c: Config, s: State, a: Action) {
    match a
    case Submit(_) => true
    case RequestStop(_) => true
    case Cancel(id) => id < |s.tasks|
    case StartWait => s.waiter.NotWaiting?
    case WakeSubmitter(k) => k < |s.blocked| && (!s.accepting || |s.queue| < c.queueCapacity)
    case RunnerStep => RunnerReady(s)
    case DispStep => DispReady(s)
    case WaiterStep => (s.waiter.JoiningStages? && s.runner.Done?) || (s.waiter.JoiningDispatcher? && s.disp.DispDone?)
  }

  ghost function Accept(s: State, p: Packet): State {
    s.(packets := s.packets + [p], tasks := s.tasks + [NewTask()], queue := s.queue + [|s.tasks|])
  }

  ghost function SubmitNext(c: Config, s: State, p: Packet): State {
    if c.queueCapacity == 0 then s
    else if !s.accepting then s
    else if |s.queue| < c.queueCapacity then Accept(s, p)
    else if c.blockWhenFull then s.(blocked := s.blocked + [p])
    else s
  }

  ghost function WakeNext(s: State, k: nat): State
    requires k < |s.blocked|
  {
    var rest := s.(blocked := s.blocked[..k] + s.blocked[k + 1..]);
    if !s.accepting then rest else Accept(rest, s.blocked[k])
  }

  /** The running task and the queued ones are flagged; there is no executor-wide flag. */
  ghost function StopNext(s: State, immediate: bool): State {
    var current := if s.runningTask.Some? && !RunningTaskIsMoved(s) then [s.runningTask.value] else [];
    s.(mishap := s.mishap || (immediate && RunningTaskIsMoved(s)),
       accepting := false,
       stopRequested := true,
       tasks := if immediate then CancelQueued(s.tasks, current + s.queue) else s.tasks)
  }

  ghost function RunnerNext(c: Config, s: State): State
    requires RunnerReady(s)
  {
    match s.runner
    case Waiting =>
      if s.queue == [] then s.(runner := Done)
      else s.(runner := Check(s.queue[0]), runningTask := Some(s.queue[0]), queue := s.queue[1..])
    case Check(id) =>
      if Flagged(s, id) then s.(runner := Dispatch(id, CancelledResult()), verdicts := s.verdicts + [true])
      else s.(runner := Mark(id))
    case Mark(id) => s.(runner := Execute(id), tasks := s.tasks[id := MarkRunning(s.tasks[id])])
    case Execute(id) => s.(runner := Recheck(id, RunPipeline(c.stages, s.packets[id])))
    case Recheck(id, result) =>
      s.(runner := Dispatch(id, if Flagged(s, id) then CancelledResult() else result),
         verdicts := s.verdicts + [Flagged(s, id)])
    case Dispatch(id, result) =>
      s.(runner := Reset, completions := PushOrDrop(s.completions, Completion(id, result)))
    case Reset => s.(runner := Waiting, runningTask := None)
  }

  ghost function DispNext(s: State): State
    requires DispReady(s)
  {
    match s.disp
    case DispPop =>
      if !s.completions.CanPop() then s.(disp := DispDone)
      else
        var item := s.completions.items[0];
        s.(disp := DispStore(item.id, item.result), completions := s.completions.Pop())
    case DispStore(id, r) => s.(disp := DispPromise(id, r), tasks := s.tasks[id := StoreTerminal(s.tasks[id], r)])
    case DispPromise(id, r) =>
      s.(disp := DispCallback, tasks := s.tasks[id := SetPromise(s.tasks[id], r)], delivered := s.delivered + [id])
    case DispCallback => s.(disp := DispPop)
  }

  ghost function WaiterNext(s: State): State {
    if s.waiter.JoiningStages? then s.(waiter := JoiningDispatcher, completions := s.completions.Close())
    else s.(waiter := WaitReturned)
  }

  ghost function Next(c: Config, s: State, a: Action): State
    requires Enabled(c, s, a)
  {
    match a
    case Submit(p) => SubmitNext(c, s, p)
    case RequestStop(immediate) => StopNext(s, immediate)
    case Cancel(id) => s.(tasks := s.tasks[id := RequestCancellation(s.tasks[id])])
    case StartWait => StopNext(s, false).(waiter := JoiningStages)
    case WakeSubmitter(k) => WakeNext(s, k)
    case RunnerStep => RunnerNext(c, s)
    case DispStep => DispNext(s)
    case WaiterStep => WaiterNext(s)
  }

  ghost predicate ValidRun(c: Config, s: State, run: seq<Action>)
    decreases |run|
  {
    run == [] || (Enabled(c, s, run[0]) && ValidRun(c, Next(c, s, run[0]), run[1..]))
  }

  ghost function After(c: Config, s: State, run: seq<Action>): State
    requires ValidRun(c, s, run)
    decreases |run|
  {
    if run == [] then s else After(c, Next(c, s, run[0]), run[1..])
  }

  ghost predicate Reachable(c: Config, s: State) {
    exists run :: ValidRun(c, Init(c), run) && After(c, Init(c), run) == s
  }

  // ---------------------------------------------------------------- invariant

  ghost predicate RunnerHolds(t: Runner) { !t.Waiting? && !t.Reset? && !t.Done? }

  ghost function PastCompletions(s: State): nat { |s.delivered| + One(DispHolds(s.disp)) }
  ghost function PastRunner(s: State): nat { PastCompletions(s) + |s.completions.items| }
  ghost function PastQueue(s: State): nat { PastRunner(s) + One(RunnerHolds(s.runner)) }

  ghost predicate OrderInv(s: State) {
    && |s.packets| == |s.tasks| == PastQueue(s) + |s.queue|
    && (forall i :: 0 <= i < |s.delivered| ==> s.delivered[i] == i)
    && (DispHolds(s.disp) ==> s.disp.id == |s.delivered|)
    && (forall i :: 0 <= i < |s.completions.items| ==> s.completions.items[i].id == PastCompletions(s) + i)
    && (RunnerHolds(s.runner) ==> s.runner.id == PastRunner(s))
    && (forall i :: 0 <= i < |s.queue| ==> s.queue[i] == PastQueue(s) + i)
  }

  ghost predicate ControlInv(c: Config, s: State) {
    && s.completions.capacity == c.queueCapacity
    && (|s.tasks| > 0 || |s.blocked| > 0 ==> c.queueCapacity > 0)
    && (s.completions.closed ==> s.runner.Done?)
    && (s.completions.closed <==> s.waiter.JoiningDispatcher? || s.waiter.WaitReturned?)
    && (s.disp.DispDone? ==> s.completions.Drained())
    && (s.waiter.WaitReturned? ==> s.disp.DispDone?)
    && (!s.waiter.NotWaiting? ==> s.stopRequested)
    && (RunnerHolds(s.runner) ==> s.runningTask == Some(s.runner.id))
    && (s.runner.Waiting? || s.runner.Done? ==> s.runningTask == None)
    && (s.runner.Done? ==> s.stopRequested && s.queue == [])
    && s.accepting == !s.stopRequested
  }

  ghost function Decided(c: Config, s: State, id: nat): Result<Answer>
    requires id < |s.verdicts| && id < |s.packets|
  {
    if s.verdicts[id] then CancelledResult() else RunPipeline(c.stages, s.packets[id])
  }

  ghost predicate DecidedOk(c: Config, s: State, id: nat, answer: Result<Answer>) {
    id < |s.packets| && id < |s.verdicts| && answer == Decided(c, s, id)
  }

  ghost predicate CompletionsOk(c: Config, s: State, items: seq<Completion>) {
    forall i :: 0 <= i < |items| ==> DecidedOk(c, s, items[i].id, items[i].result)
  }

  ghost predicate VerdictInv(c: Config, s: State) {
    && |s.verdicts| == PastRunner(s) + One(s.runner.Dispatch?)
    && (s.runner.Recheck? ==>
         s.runner.id < |s.packets| && s.runner.result == RunPipeline(c.stages, s.packets[s.runner.id]))
    && (s.runner.Dispatch? ==> DecidedOk(c, s, s.runner.id, s.runner.result))
    && CompletionsOk(c, s, s.completions.items)
    && (DispHolds(s.disp) ==> DecidedOk(c, s, s.disp.id, s.disp.result))
    && (forall id :: 0 <= id < |s.verdicts| && s.verdicts[id] ==> Flagged(s, id))
  }

  ghost predicate OneTaskInv(c: Config, s: State, id: nat, t: Task<Answer>) {
    if id < |s.delivered| then
      && id < |s.packets| && id < |s.verdicts|
      && t.promise == Some(Decided(c, s, id)) && t.state == TerminalFor(Decided(c, s, id))
    else
      t.promise == None && (s.disp.DispPromise? && id == |s.delivered| ==> t.state == TerminalFor(s.disp.result))
  }

  ghost predicate TaskInv(c: Config, s: State) {
    forall id :: 0 <= id < |s.tasks| ==> OneTaskInv(c, s, id, s.tasks[id])
  }

  ghost predicate Inv(c: Config, s: State) {
    OrderInv(s) && ControlInv(c, s) && VerdictInv(c, s) && TaskInv(c, s)
  }

  lemma RunnerKeepsOrder(c: Config, s: State)
    requires OrderInv(s) && ControlInv(c, s) && RunnerReady(s)
    ensures OrderInv(RunnerNext(c, s)) && ControlInv(c, RunnerNext(c, s))
  {
    if s.runner.Waiting? || s.runner.Dispatch? {
      RunnerMoveKeepsOrder(c, s);
    } else {
      RunnerStaysInPlace(c, s);
    }
  }

  lemma RunnerMoveKeepsOrder(c: Config, s: State)
    requires OrderInv(s) && ControlInv(c, s) && RunnerReady(s) && (s.runner.Waiting? || s.runner.Dispatch?)
    ensures OrderInv(RunnerNext(c, s)) && ControlInv(c, RunnerNext(c, s))
  {
    match s.runner
    case Waiting =>
    case Dispatch(_, _) =>
  }

  lemma RunnerStaysInPlace(c: Config, s: State)
    requires RunnerReady(s) && !s.runner.Waiting? && !s.runner.Dispatch?
    ensures
      var t := RunnerNext(c, s);
      && t == s.(runner := t.runner, runningTask := t.runningTask, tasks := t.tasks, verdicts := t.verdicts)
      && |t.tasks| == |s.tasks| && !t.runner.Done? && (t.runner.Waiting? ==> t.runningTask == None)
      && RunnerHolds(t.runner) == RunnerHolds(s.runner)
      && (RunnerHolds(s.runner) ==> t.runner.id == s.runner.id && t.runningTask == s.runningTask)
  {
    match s.runner
    case Check(_) =>
    case Mark(_) =>
    case Execute(_) =>
    case Recheck(_, _) =>
    case Reset =>
  }

  lemma RunnerKeepsVerdicts(c: Config, s: State)
    requires OrderInv(s) && ControlInv(c, s) && VerdictInv(c, s) && RunnerReady(s)
    ensures VerdictInv(c, RunnerNext(c, s))
  {
    CompletionsLater(c, s, RunnerNext(c, s), s.completions.items);
    if s.runner.Check? || s.runner.Recheck? {
      VerdictIsRecorded(c, s);
    } else if s.runner.Dispatch? {
      DispatchKeepsVerdicts(c, s);
    } else {
      NoVerdictIsRecorded(c, s);
    }
  }

  lemma VerdictIsRecorded(c: Config, s: State)
    requires OrderInv(s) && ControlInv(c, s) && VerdictInv(c, s) && RunnerReady(s) &&
        (s.runner.Check? || s.runner.Recheck?)
    requires CompletionsOk(c, RunnerNext(c, s), s.completions.items)
    ensures VerdictInv(c, RunnerNext(c, s))
  {
    match s.runner
    case Check(_) =>
    case Recheck(_, _) =>
  }

  lemma DispatchKeepsVerdicts(c: Config, s: State)
    requires OrderInv(s) && ControlInv(c, s) && VerdictInv(c, s) && RunnerReady(s) && s.runner.Dispatch?
    ensures VerdictInv(c, RunnerNext(c, s))
  {
  }

  lemma NoVerdictIsRecorded(c: Config, s: State)
    requires OrderInv(s) && ControlInv(c, s) && VerdictInv(c, s) && RunnerReady(s)
    requires !s.runner.Check? && !s.runner.Recheck? && !s.runner.Dispatch?
    ensures VerdictInv(c, RunnerNext(c, s))
  {
    match s.runner
    case Waiting =>
    case Mark(_) =>
    case Execute(_) =>
    case Reset =>
  }

  lemma RunnerKeepsTasks(c: Config, s: State)
    requires OrderInv(s) && TaskInv(c, s) && RunnerReady(s)
    ensures TaskInv(c, RunnerNext(c, s))
  {
    var t := RunnerNext(c, s);
    RunnerLeavesAnswers(c, s);
    forall id | 0 <= id < |t.tasks|
      ensures OneTaskInv(c, t, id, t.tasks[id])
    {
      assert OneTaskInv(c, s, id, s.tasks[id]);
    }
  }

  /** The runner adds verdicts and marks its own task, which is still to be delivered. */
  lemma RunnerLeavesAnswers(c: Config, s: State)
    requires OrderInv(s) && RunnerReady(s)
    ensures
      var t := RunnerNext(c, s);
      && t.packets == s.packets && s.verdicts <= t.verdicts && t.delivered == s.delivered && t.disp == s.disp
      && |t.tasks| == |s.tasks|
      && forall id :: 0 <= id < |s.tasks| ==>
           t.tasks[id].promise == s.tasks[id].promise
           && (id < PastCompletions(s) ==> t.tasks[id].state == s.tasks[id].state)
  {
    match s.runner
    case Waiting =>
    case Check(_) =>
    case Mark(_) =>
    case Execute(_) =>
    case Recheck(_, _) =>
    case Dispatch(_, _) =>
    case Reset =>
  }

  lemma DispKeepsOrder(c: Config, s: State)
    requires OrderInv(s) && ControlInv(c, s) && DispReady(s)
    ensures OrderInv(DispNext(s)) && ControlInv(c, DispNext(s))
  {
  }

  lemma DispKeepsVerdicts(c: Config, s: State)
    requires OrderInv(s) && VerdictInv(c, s) && DispReady(s)
    ensures VerdictInv(c, DispNext(s))
  {
    DispKeepsFlags(s);
    CompletionsLater(c, s, DispNext(s), s.completions.items);
    if s.disp.DispPop? {
      PopKeepsVerdicts(c, s);
    }
  }

  lemma PopKeepsVerdicts(c: Config, s: State)
    requires OrderInv(s) && VerdictInv(c, s) && DispReady(s) && s.disp.DispPop?
    ensures VerdictInv(c, DispNext(s))
  {
    var t := DispNext(s);
    if s.completions.items != [] {
      FirstIsOk(c, s, s.completions.items);
      CompletionsLater(c, s, t, s.completions.items[1..]);
    }
  }

  lemma FirstIsOk(c: Config, s: State, items: seq<Completion>)
    requires CompletionsOk(c, s, items) && items != []
    ensures DecidedOk(c, s, items[0].id, items[0].result) && CompletionsOk(c, s, items[1..])
  {
  }

  lemma CompletionsLater(c: Config, s: State, t: State, items: seq<Completion>)
    requires CompletionsOk(c, s, items) && s.packets <= t.packets && s.verdicts <= t.verdicts
    ensures CompletionsOk(c, t, items)
  {
  }

  lemma DispKeepsFlags(s: State)
    requires DispReady(s)
    ensures forall id :: Flagged(s, id) ==> Flagged(DispNext(s), id)
  {
  }

  lemma DispKeepsTasks(c: Config, s: State)
    requires OrderInv(s) && VerdictInv(c, s) && TaskInv(c, s) && DispReady(s)
    ensures TaskInv(c, DispNext(s))
  {
    match s.disp
    case DispPop => OtherDispKeepsTasks(c, s);
    case DispStore(_, _) => StoreKeepsTasks(c, s);
    case DispPromise(_, _) => PromiseKeepsTasks(c, s);
    case DispCallback => OtherDispKeepsTasks(c, s);
  }

  lemma OtherDispKeepsTasks(c: Config, s: State)
    requires TaskInv(c, s) && DispReady(s) && (s.disp.DispPop? || s.disp.DispCallback?)
    ensures TaskInv(c, DispNext(s))
  {
    var t := DispNext(s);
    forall id | 0 <= id < |t.tasks|
      ensures OneTaskInv(c, t, id, t.tasks[id])
    {
      assert OneTaskInv(c, s, id, s.tasks[id]);
    }
  }

  lemma StoreKeepsTasks(c: Config, s: State)
    requires OrderInv(s) && TaskInv(c, s) && DispReady(s) && s.disp.DispStore?
    ensures TaskInv(c, DispNext(s))
  {
    var t := DispNext(s);
    forall id | 0 <= id < |t.tasks|
      ensures OneTaskInv(c, t, id, t.tasks[id])
    {
      assert OneTaskInv(c, s, id, s.tasks[id]);
    }
  }

  lemma PromiseKeepsTasks(c: Config, s: State)
    requires OrderInv(s) && VerdictInv(c, s) && TaskInv(c, s) && DispReady(s) && s.disp.DispPromise?
    ensures TaskInv(c, DispNext(s))
  {
    var t := DispNext(s);
    forall id | 0 <= id < |t.tasks|
      ensures OneTaskInv(c, t, id, t.tasks[id])
    {
      assert OneTaskInv(c, s, id, s.tasks[id]);
    }
  }

  predicate Outside(a: Action) { !a.RunnerStep? && !a.DispStep? }

  lemma OutsideKeepsOrder(c: Config, s: State, a: Action)
    requires OrderInv(s) && ControlInv(c, s) && Outside(a) && Enabled(c, s, a)
    ensures OrderInv(Next(c, s, a)) && ControlInv(c, Next(c, s, a))
  {
    match a
    case Submit(_) =>
    case RequestStop(_) =>
    case Cancel(_) =>
    case StartWait =>
    case WakeSubmitter(_) =>
    case WaiterStep =>
    case _ =>
  }

  lemma OutsideKeepsVerdicts(c: Config, s: State, a: Action)
    requires OrderInv(s) && VerdictInv(c, s) && Outside(a) && Enabled(c, s, a)
    ensures VerdictInv(c, Next(c, s, a))
  {
    CompletionsLater(c, s, Next(c, s, a), s.completions.items);
    OutsideKeepsFlags(c, s, a);
  }

  /** Outside steps add packets and flags only. */
  lemma OutsideKeepsFlags(c: Config, s: State, a: Action)
    requires OrderInv(s) && Outside(a) && Enabled(c, s, a)
    ensures
      var t := Next(c, s, a);
      && s.packets <= t.packets && t.verdicts == s.verdicts && t.runner == s.runner && t.disp == s.disp
      && t.completions.items == s.completions.items && t.delivered == s.delivered
      && forall id :: Flagged(s, id) ==> Flagged(t, id)
  {
    match a
    case Submit(_) =>
    case RequestStop(_) =>
    case Cancel(_) =>
    case StartWait =>
    case WakeSubmitter(_) =>
    case WaiterStep =>
    case _ =>
  }

  lemma OutsideKeepsTasks(c: Config, s: State, a: Action)
    requires OrderInv(s) && TaskInv(c, s) && Outside(a) && Enabled(c, s, a)
    ensures TaskInv(c, Next(c, s, a))
  {
    var t := Next(c, s, a);
    forall id | 0 <= id < |t.tasks|
      ensures OneTaskInv(c, t, id, t.tasks[id])
    {
      if id < |s.tasks| {
        assert OneTaskInv(c, s, id, s.tasks[id]);
      }
    }
  }

  lemma StepKeepsInv(c: Config, s: State, a: Action)
    requires Inv(c, s) && Enabled(c, s, a)
    ensures Inv(c, Next(c, s, a))
  {
    if a.RunnerStep? {
      RunnerKeepsOrder(c, s);
      RunnerKeepsVerdicts(c, s);
      RunnerKeepsTasks(c, s);
    } else if a.DispStep? {
      DispKeepsOrder(c, s);
      DispKeepsVerdicts(c, s);
      DispKeepsTasks(c, s);
    } else {
      OutsideKeepsOrder(c, s, a);
      OutsideKeepsVerdicts(c, s, a);
      OutsideKeepsTasks(c, s, a);
    }
  }

  lemma RunKeepsInv(c: Config, s: State, run: seq<Action>)
    requires Inv(c, s) && ValidRun(c, s, run)
    ensures Inv(c, After(c, s, run))
    decreases |run|
  {
    if run != [] {
      StepKeepsInv(c, s, run[0]);
      RunKeepsInv(c, Next(c, s, run[0]), run[1..]);
    }
  }

  lemma ReachableInv(c: Config, s: State)
    requires Reachable(c, s)
    ensures Inv(c, s)
  {
    var run :| ValidRun(c, Init(c), run) && After(c, Init(c), run) == s;
    RunKeepsInv(c, Init(c), run);
  }

  /** Tasks are delivered in order, each with the serial answer unless its last check saw its flag. */
  lemma SerialDelivery(c: Config, s: State, id: nat)
    requires Reachable(c, s) && id < |s.delivered|
    ensures s.delivered == Upto(|s.delivered|)
    ensures id < |s.packets| == |s.tasks| && id < |s.verdicts|
    ensures s.tasks[id].promise ==
            Some(if s.verdicts[id] then CancelledResult() else RunPipeline(c.stages, s.packets[id]))
    ensures s.tasks[id].state == Completed <==> s.tasks[id].promise.value.Ok?
    ensures s.tasks[id].state == WasCancelled <==>
              s.tasks[id].promise.value.Err? && s.tasks[id].promise.value.status.code == Cancelled
    ensures s.tasks[id].state == Failed <==>
              s.tasks[id].promise.value.Err? && s.tasks[id].promise.value.status.code != Cancelled
    ensures !Flagged(s, id) ==> s.tasks[id].promise == Some(RunPipeline(c.stages, s.packets[id]))
  {
    ReachableInv(c, s);
    assert OneTaskInv(c, s, id, s.tasks[id]);
  }

  // ---------------------------------------------------------------- task states

  /** What the state of a task that has not been completed says about where it is. */
  ghost predicate StateInv(s: State) {
    forall id :: PastRunner(s) <= id < |s.tasks| && !(id == PastRunner(s) && s.runner.Dispatch?) ==>
      s.tasks[id].state ==
        if id == PastRunner(s) && (s.runner.Execute? || s.runner.Recheck?) then Running else Queued
  }

  lemma RunnerKeepsStates(c: Config, s: State)
    requires OrderInv(s) && ControlInv(c, s) && StateInv(s) && RunnerReady(s)
    ensures StateInv(RunnerNext(c, s))
  {
    match s.runner
    case Waiting =>
    case Check(_) =>
    case Mark(_) =>
    case Execute(_) =>
    case Recheck(_, _) =>
    case Dispatch(_, _) =>
    case Reset =>
  }

  lemma StepKeepsStates(c: Config, s: State, a: Action)
    requires Inv(c, s) && StateInv(s) && Enabled(c, s, a)
    ensures StateInv(Next(c, s, a))
  {
    match a
    case Submit(_) =>
    case RequestStop(_) =>
    case Cancel(_) =>
    case StartWait =>
    case WakeSubmitter(_) =>
    case RunnerStep => RunnerKeepsStates(c, s);
    case DispStep => DispKeepsStates(c, s);
    case WaiterStep =>
  }

  lemma DispKeepsStates(c: Config, s: State)
    requires OrderInv(s) && StateInv(s) && DispReady(s)
    ensures StateInv(DispNext(s))
  {
  }

  lemma {:induction false} RunKeepsStates(c: Config, s: State, run: seq<Action>)
    requires Inv(c, s) && StateInv(s) && ValidRun(c, s, run)
    ensures StateInv(After(c, s, run))
    decreases |run|
  {
    if run != [] {
      StepKeepsStates(c, s, run[0]);
      StepKeepsInv(c, s, run[0]);
      RunKeepsStates(c, Next(c, s, run[0]), run[1..]);
    }
  }

  /** A waiting task is queued, and the one whose stages run is running. */
  lemma TaskStateIsShown(c: Config, s: State, id: nat)
    requires Reachable(c, s) && id < |s.tasks|
    ensures id in s.queue || s.runner == Check(id) || s.runner == Mark(id) ==> s.tasks[id].state == Queued
    ensures s.runner == Execute(id) || (s.runner.Recheck? && s.runner.id == id) ==> s.tasks[id].state == Running
  {
    ReachableInv(c, s);
    var run :| ValidRun(c, Init(c), run) && After(c, Init(c), run) == s;
    RunKeepsStates(c, Init(c), run);
  }
}
