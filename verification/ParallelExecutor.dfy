/**
  parallelPipelineExecutor.hpp as a state machine: any number of submitters, the three stage
  threads, the completion dispatcher and the thread that calls `wait`. A step is one section under
  the entry mutex, one queue operation (RingTheorems justifies taking these as indivisible), one stage
  call, one test of the cancellation flags, or one store to a task's shared state.
 */
module ParallelExecutor {
  import opened Core
  import opened Stages
  import opened Tasks
  import opened BoundedFifo
  import opened ExecutorParts

  datatype Config = Config(
    stages: Stages,
    queueCapacity: nat,
    blockWhenFull: bool,
    stageQueueCapacity: nat,
    poolSize: nat
  )

  /** What travels between inference and postprocessing. */
  datatype InferredTask = InferredTask(id: nat, output: Result<Inferred>)

  datatype InferenceThread =
    | InfPop
    | InfCheck(id: nat, prepared: Result<Prepared>)
    | InfRun(id: nat, input: Prepared)
    | InfRecheck(id: nat, output: Result<Inferred>)
    | InfPush(id: nat, output: Result<Inferred>)
    | InfClose
    | InfDone

  datatype PostprocessThread =
    | PostPop
    | PostCheck(id: nat, output: Result<Inferred>)
    | PostRun(id: nat, input: Inferred)
    | PostRecheck(id: nat, result: Result<Answer>)
    | PostDispatch(id: nat, result: Result<Answer>)
    | PostDone

  datatype Stage = Preprocess | Inference | Postprocess

  /**
    `blocked` are the submitters asleep on a full entry queue, `leased` the tasks whose input tensor
    holds a pool slot. Histories: `delivered` (promises set, in order), `given` (what preprocessing
    gave, task by task, when its second check was over), `verdicts` (for each task, what the last
    cancellation check saw), `calls` (stage calls made) and `seen` (tasks one of whose checks saw a
    cancellation).
   */
  datatype State = State(
    packets: seq<Packet>,
    tasks: seq<Task<Answer>>,
    entry: seq<nat>,
    blocked: seq<Packet>,
    accepting: bool,
    stopRequested: bool,
    immediateStop: bool,
    preprocessQueue: Fifo<PreprocessedTask>,
    inferenceQueue: Fifo<InferredTask>,
    completions: Fifo<Completion>,
    pre: PreprocessThread,
    inf: InferenceThread,
    post: PostprocessThread,
    disp: DispatcherThread,
    waiter: Waiter,
    leased: set<nat>,
    delivered: seq<nat>,
    given: seq<Result<Prepared>>,
    verdicts: seq<bool>,
    calls: set<(nat, Stage)>,
    seen: set<nat>
  )

  datatype Action =
    // the outside world
    | Submit(packet: Packet)
    | RequestStop(immediate: bool)
    | Cancel(task: nat)
    | StartWait
    // the executor's own threads and the submitters it has put to sleep
    | WakeSubmitter(which: nat)
    | PreStep
    | InfStep
    | PostStep
    | DispStep
    | WaiterStep

  predicate OwnStep(a: Action) {
    a.WakeSubmitter? || a.PreStep? || a.InfStep? || a.PostStep? || a.DispStep? || a.WaiterStep?
  }

  ghost function Init(c: Config): State {
    State([], [], [], [], true, false, false,
          BoundedFifo.Empty(c.stageQueueCapacity), BoundedFifo.Empty(c.stageQueueCapacity),
          BoundedFifo.Empty(c.stageQueueCapacity),
          PreWaiting, InfPop, PostPop, DispPop, NotWaiting, {}, [], [], [], {}, {})
  }

  /** `cancelled(task)`: immediate stop or the task's own flag. */
  predicate IsCancelled(s: State, id: nat) {
    s.immediateStop || (id < |s.tasks| && s.tasks[id].cancelRequested)
  }

  /** A check of `cancelled(task)` records what it sees. */
  ghost function SeenBy(s: State, id: nat): set<nat> { if IsCancelled(s, id) then s.seen + {id} else s.seen }

  ghost predicate PreReady(s: State) {
    match s.pre
    case PreWaiting => s.stopRequested || s.entry != []
    case PreTaken(id) => id < |s.tasks|
    case PreAcquire(id) => id < |s.packets|
    case PreRun(id) => id < |s.packets|
    case PrePush(_, _) => PushReturns(s.preprocessQueue)
    case PreDone => false
    case _ => true
  }

  ghost predicate InfReady(s: State) {
    match s.inf
    case InfPop => s.preprocessQueue.CanPop() || s.preprocessQueue.Drained()
    case InfPush(_, _) => PushReturns(s.inferenceQueue)
    case InfDone => false
    case _ => true
  }

  ghost predicate PostReady(s: State) {
    match s.post
    case PostPop => s.inferenceQueue.CanPop() || s.inferenceQueue.Drained()
    case PostDispatch(_, _) => PushReturns(s.completions)
    case PostDone => false
    case _ => true
  }

  ghost predicate DispReady(s: State) {
    match s.disp
    case DispPop => s.completions.CanPop() || s.completions.Drained()
    case DispStore(id, _) => id < |s.tasks|
    case DispPromise(id, _) => id < |s.tasks| && s.tasks[id].promise.None?
    case DispCallback => true
    case DispDone => false
  }

  ghost predicate WaiterReady(s: State) {
    match s.waiter
    case JoiningStages => s.pre.PreDone? && s.inf.InfDone? && s.post.PostDone?
    case JoiningDispatcher => s.disp.DispDone?
    case _ => false
  }

  ghost predicate Enabled(c: Config, s: State, a: Action) {
    match a
    case Submit(_) => true
    case RequestStop(_) => true
    case Cancel(id) => id < |s.tasks|
    case StartWait => s.waiter.NotWaiting?
    case WakeSubmitter(k) => k < |s.blocked| && (!s.accepting || |s.entry| < c.queueCapacity)
    case PreStep => PreReady(s)
    case InfStep => InfReady(s)
    case PostStep => PostReady(s)
    case DispStep => DispReady(s)
    case WaiterStep => WaiterReady(s)
  }

  ghost function Accept(s: State, p: Packet): State {
    s.(packets := s.packets + [p], tasks := s.tasks + [NewTask()], entry := s.entry + [|s.tasks|])
  }

  /** One call of `submit`, up to its return or to its falling asleep. Refusals change nothing. */
  ghost function SubmitNext(c: Config, s: State, p: Packet): State {
    if c.queueCapacity == 0 || c.stageQueueCapacity == 0 then s
    else if !s.accepting then s
    else if |s.entry| < c.queueCapacity then Accept(s, p)
    else if c.blockWhenFull then s.(blocked := s.blocked + [p])
    else s
  }

  /** One of the sleeping submitters finds the stop, or room for its packet. */
  ghost function WakeNext(s: State, k: nat): State
    requires k < |s.blocked|
  {
    var rest := s.(blocked := s.blocked[..k] + s.blocked[k + 1..]);
    if !s.accepting then rest else Accept(rest, s.blocked[k])
  }

  ghost function StopNext(s: State, immediate: bool): State {
    s.(accepting := false,
       stopRequested := true,
       immediateStop := s.immediateStop || immediate,
       tasks := if immediate then CancelQueued(s.tasks, s.entry) else s.tasks)
  }

  ghost function PreNext(c: Config, s: State): State
    requires PreReady(s)
  {
    match s.pre
    case PreWaiting =>
      if s.entry == [] then s.(pre := PreClose)
      else s.(pre := PreTaken(s.entry[0]), entry := s.entry[1..])
    case PreTaken(id) => s.(pre := PreCheck(id), tasks := s.tasks[id := MarkRunning(s.tasks[id])])
    case PreCheck(id) =>
      s.(pre := if IsCancelled(s, id) then PreRecheck(id, CancelledResult()) else PreAcquire(id), seen := SeenBy(s, id))
    case PreAcquire(id) => // the call of the stage, up to its acquire
      var t := s.(calls := s.calls + {(id, Preprocess)});
      if !c.stages.acquires(s.packets[id]) then t.(pre := PreRun(id))
      else if |s.leased| >= c.poolSize then t.(pre := PreRecheck(id, PoolExhausted()))
      else t.(pre := PreRun(id), leased := s.leased + {id})
    case PreRun(id) =>
      var prepared := c.stages.preprocess(s.packets[id]);
      s.(pre := PreRecheck(id, prepared), leased := if prepared.Ok? then s.leased else s.leased - {id})
    case PreRecheck(id, prepared) =>
      var given := if IsCancelled(s, id) then CancelledResult() else prepared;
      s.(pre := PrePush(id, given), given := s.given + [given], seen := SeenBy(s, id),
         leased := if IsCancelled(s, id) then s.leased - {id} else s.leased)
    case PrePush(id, prepared) =>
      s.(pre := PreWaiting, preprocessQueue := PushOrDrop(s.preprocessQueue, PreprocessedTask(id, prepared)))
    case PreClose => s.(pre := PreDone, preprocessQueue := s.preprocessQueue.Close())
  }

  ghost function InfNext(c: Config, s: State): State
    requires InfReady(s)
  {
    match s.inf
    case InfPop =>
      if !s.preprocessQueue.CanPop() then s.(inf := InfClose)
      else
        var item := s.preprocessQueue.items[0];
        s.(inf := InfCheck(item.id, item.prepared), preprocessQueue := s.preprocessQueue.Pop())
    case InfCheck(id, prepared) =>
      s.(inf := if IsCancelled(s, id) then InfRecheck(id, CancelledResult())
                else if prepared.Ok? then InfRun(id, prepared.value)
                else InfRecheck(id, prepared.PropagateErr()),
         seen := SeenBy(s, id))
    case InfRun(id, input) => // the input tensor dies with the call
      s.(inf := InfRecheck(id, c.stages.infer(input)), leased := s.leased - {id}, calls := s.calls + {(id, Inference)})
    case InfRecheck(id, output) =>
      s.(inf := InfPush(id, if IsCancelled(s, id) then CancelledResult() else output), seen := SeenBy(s, id))
    case InfPush(id, output) => // an input that inference never consumed dies here
      s.(inf := InfPop, inferenceQueue := PushOrDrop(s.inferenceQueue, InferredTask(id, output)),
         leased := s.leased - {id})
    case InfClose => s.(inf := InfDone, inferenceQueue := s.inferenceQueue.Close())
  }

  ghost function PostNext(c: Config, s: State): State
    requires PostReady(s)
  {
    match s.post
    case PostPop =>
      if !s.inferenceQueue.CanPop() then s.(post := PostDone)
      else
        var item := s.inferenceQueue.items[0];
        s.(post := PostCheck(item.id, item.output), inferenceQueue := s.inferenceQueue.Pop())
    case PostCheck(id, output) =>
      s.(post := if IsCancelled(s, id) then PostRecheck(id, CancelledResult())
                 else if output.Ok? then PostRun(id, output.value)
                 else PostRecheck(id, output.PropagateErr()),
         seen := SeenBy(s, id))
    case PostRun(id, input) =>
      s.(post := PostRecheck(id, c.stages.postprocess(input)), calls := s.calls + {(id, Postprocess)})
    case PostRecheck(id, result) =>
      s.(post := PostDispatch(id, if IsCancelled(s, id) then CancelledResult() else result),
         verdicts := s.verdicts + [IsCancelled(s, id)], seen := SeenBy(s, id))
    case PostDispatch(id, result) =>
      s.(post := PostPop, completions := PushOrDrop(s.completions, Completion(id, result)))
  }

  ghost function DispNext(s: State): State
    requires DispReady(s)
  {
    match s.disp
    case DispPop =>
      if !s.completions.CanPop() then s.(disp := DispDone)
      else
        var item := s.completions.items[0];
        s.(disp := DispStore(item.id, item.result), completions := s.completions.Pop())
    case DispStore(id, r) => s.(disp := DispPromise(id, r), tasks := s.tasks[id := StoreTerminal(s.tasks[id], r)])
    case DispPromise(id, r) =>
      s.(disp := DispCallback, tasks := s.tasks[id := SetPromise(s.tasks[id], r)], delivered := s.delivered + [id])
    case DispCallback => s.(disp := DispPop)
  }

  ghost function WaiterNext(s: State): State
    requires WaiterReady(s)
  {
    match s.waiter
    case JoiningStages => s.(waiter := JoiningDispatcher, completions := s.completions.Close())
    case JoiningDispatcher => s.(waiter := WaitReturned)
  }

  ghost function Next(c: Config, s: State, a: Action): State
    requires Enabled(c, s, a)
  {
    match a
    case Submit(p) => SubmitNext(c, s, p)
    case RequestStop(immediate) => StopNext(s, immediate)
    case Cancel(id) => s.(tasks := s.tasks[id := RequestCancellation(s.tasks[id])])
    case StartWait => StopNext(s, false).(waiter := JoiningStages)
    case WakeSubmitter(k) => WakeNext(s, k)
    case PreStep => PreNext(c, s)
    case InfStep => InfNext(c, s)
    case PostStep => PostNext(c, s)
    case DispStep => DispNext(s)
    case WaiterStep => WaiterNext(s)
  }

  ghost predicate ValidRun(c: Config, s: State, run: seq<Action>)
    decreases |run|
  {
    run == [] || (Enabled(c, s, run[0]) && ValidRun(c, Next(c, s, run[0]), run[1..]))
  }

  ghost function After(c: Config, s: State, run: seq<Action>): State
    requires ValidRun(c, s, run)
    decreases |run|
  {
    if run == [] then s else After(c, Next(c, s, run[0]), run[1..])
  }

  ghost predicate Reachable(c: Config, s: State) {
    exists run :: ValidRun(c, Init(c), run) && After(c, Init(c), run) == s
  }
}
