/**
  batchPipelineExecutor.hpp as a state machine. The preprocessing thread is the parallel executor's;
  the middle thread collects prepared tasks into batches, runs one inference for each and
  postprocesses its members. Completions reach the dispatcher from two threads; here its queue takes
  each of them in one step, and BatchDispatch has the ring that it really is.
 */
module BatchExecutor {
  import opened Core
  import opened Stages
  import opened Tasks
  import opened BoundedFifo
  import opened ExecutorParts

  /** `maxBatchSize` is the constructor's value, where 0 has become 1. */
  datatype Config = Config(
    stages: Stages,
    queueCapacity: nat,
    blockWhenFull: bool,
    stageQueueCapacity: nat,
    maxBatchSize: nat,
    poolSize: nat
  )

  predicate ValidConfig(c: Config) { c.maxBatchSize > 0 }

  datatype Member = Member(id: nat, prepared: Prepared)

  /**
    The batching thread. `members` is the batch being collected (empty while the first member is
    awaited), `last` tells that the thread ends after this batch, and `index` is the loop counter of
    flushBatch.
   */
  datatype BatchThread =
    | Collect(members: seq<Member>)
    | Examine(id: nat, prepared: Result<Prepared>, members: seq<Member>)
    | Early(id: nat, result: Result<Answer>, members: seq<Member>)
    | GotNothing(members: seq<Member>)
    | Infer(members: seq<Member>, last: bool)
    | FailMembers(members: seq<Member>, index: nat, status: Status, last: bool)
    | Postprocess(members: seq<Member>, index: nat, outputs: seq<Inferred>, last: bool)
    | PushResult(members: seq<Member>, index: nat, outputs: seq<Inferred>, result: Result<Answer>, last: bool)
    | BatchClose
    | BatchDone

  datatype PostThread = PostPop | PostDispatch(id: nat, result: Result<Answer>) | PostDone

  /**
    Histories: `given` (what preprocessing gave, task by task, when its second check was over),
    `verdicts` (what the batching thread's check saw), `batches` (those that reached inference, in
    order) and `delivered`.
   */
  datatype State = State(
    packets: seq<Packet>,
    tasks: seq<Task<Answer>>,
    entry: seq<nat>,
    blocked: seq<Packet>,
    accepting: bool,
    stopRequested: bool,
    immediateStop: bool,
    preprocessQueue: Fifo<PreprocessedTask>,
    postprocessQueue: Fifo<Completion>,
    completions: Fifo<Completion>,
    pre: PreprocessThread,
    batch: BatchThread,
    post: PostThread,
    disp: DispatcherThread,
    waiter: Waiter,
    leased: set<nat>,
    delivered: seq<nat>,
    given: seq<Result<Prepared>>,
    verdicts: seq<bool>,
    batches: seq<seq<Member>>
  )

  datatype Action =
    | Submit(packet: Packet)
    | RequestStop(immediate: bool)
    | Cancel(task: nat)
    | StartWait
    | WakeSubmitter(which: nat)
    | PreStep
    | BatchStep
    | FlushTimeout(insidePopFor: bool)
    | PostStep
    | DispStep
    | WaiterStep

  predicate OwnStep(a: Action) { !a.Submit? && !a.RequestStop? && !a.Cancel? && !a.StartWait? }

  ghost function Init(c: Config): State {
    State([], [], [], [], true, false, false,
          BoundedFifo.Empty(c.stageQueueCapacity), BoundedFifo.Empty(c.stageQueueCapacity),
          BoundedFifo.Empty(c.stageQueueCapacity),
          PreWaiting, Collect([]), PostPop, DispPop, NotWaiting, {}, [], [], [], [])
  }

  predicate IsCancelled(s: State, id: nat) {
    s.immediateStop || (id < |s.tasks| && s.tasks[id].cancelRequested)
  }

  ghost predicate PreReady(s: State) {
    match s.pre
    case PreWaiting => s.stopRequested || s.entry != []
    case PreTaken(id) => id < |s.tasks|
    case PreAcquire(id) => id < |s.packets|
    case PreRun(id) => id < |s.packets|
    case PrePush(_, _) => PushReturns(s.preprocessQueue)
    case PreDone => false
    case _ => true
  }

  ghost predicate BatchReady(s: State) {
    match s.batch
    case Collect(_) => s.preprocessQueue.CanPop() || s.preprocessQueue.Drained()
    case Early(_, _, _) => PushReturns(s.completions)
    case FailMembers(members, index, _, _) => index < |members| ==> PushReturns(s.completions)
    case Postprocess(members, index, outputs, _) => |outputs| == |members|
    case PushResult(members, index, _, _, _) => index < |members| && PushReturns(s.postprocessQueue)
    case BatchDone => false
    case _ => true
  }

  ghost predicate PostReady(s: State) {
    match s.post
    case PostPop => s.postprocessQueue.CanPop() || s.postprocessQueue.Drained()
    case PostDispatch(_, _) => PushReturns(s.completions)
    case PostDone => false
  }

  ghost predicate DispReady(s: State) {
    match s.disp
    case DispPop => s.completions.CanPop() || s.completions.Drained()
    case DispStore(id, _) => id < |s.tasks|
    case DispPromise(id, _) => id < |s.tasks| && s.tasks[id].promise.None?
    case DispCallback => true
    case DispDone => false
  }

  ghost predicate WaiterReady(s: State) {
    match s.waiter
    case JoiningStages => s.pre.PreDone? && s.batch.BatchDone? && s.post.PostDone?
    case JoiningDispatcher => s.disp.DispDone?
    case _ => false
  }

  /**
    The deadline of a started batch may pass at any time: before the next popFor, or inside it,
    after a tryPop that found nothing.
   */
  ghost predicate Enabled(c: Config, s: State, a: Action) {
    match a
    case Submit(_) => true
    case RequestStop(_) => true
    case Cancel(id) => id < |s.tasks|
    case StartWait => s.waiter.NotWaiting?
    case WakeSubmitter(k) => k < |s.blocked| && (!s.accepting || |s.entry| < c.queueCapacity)
    case PreStep => PreReady(s)
    case BatchStep => BatchReady(s)
    case FlushTimeout(inside) =>
      s.batch.Collect? && s.batch.members != [] && (inside ==> s.preprocessQueue.items == [])
    case PostStep => PostReady(s)
    case DispStep => DispReady(s)
    case WaiterStep => WaiterReady(s)
  }

  ghost function Accept(s: State, p: Packet): State {
    s.(packets := s.packets + [p], tasks := s.tasks + [NewTask()], entry := s.entry + [|s.tasks|])
  }

  ghost function SubmitNext(c: Config, s: State, p: Packet): State {
    if c.queueCapacity == 0 || c.stageQueueCapacity == 0 then s
    else if !s.accepting then s
    else if |s.entry| < c.queueCapacity then Accept(s, p)
    else if c.blockWhenFull then s.(blocked := s.blocked + [p])
    else s
  }

  ghost function WakeNext(s: State, k: nat): State
    requires k < |s.blocked|
  {
    var rest := s.(blocked := s.blocked[..k] + s.blocked[k + 1..]);
    if !s.accepting then rest else Accept(rest, s.blocked[k])
  }

  ghost function StopNext(s: State, immediate: bool): State {
    s.(accepting := false,
       stopRequested := true,
       immediateStop := s.immediateStop || immediate,
       tasks := if immediate then CancelQueued(s.tasks, s.entry) else s.tasks)
  }

  ghost function PreNext(c: Config, s: State): State
    requires PreReady(s)
  {
    match s.pre
    case PreWaiting =>
      if s.entry == [] then s.(pre := PreClose)
      else s.(pre := PreTaken(s.entry[0]), entry := s.entry[1..])
    case PreTaken(id) => s.(pre := PreCheck(id), tasks := s.tasks[id := MarkRunning(s.tasks[id])])
    case PreCheck(id) =>
      s.(pre := if IsCancelled(s, id) then PreRecheck(id, CancelledResult()) else PreAcquire(id))
    case PreAcquire(id) =>
      if !c.stages.acquires(s.packets[id]) then s.(pre := PreRun(id))
      else if |s.leased| >= c.poolSize then s.(pre := PreRecheck(id, PoolExhausted()))
      else s.(pre := PreRun(id), leased := s.leased + {id})
    case PreRun(id) =>
      var prepared := c.stages.preprocess(s.packets[id]);
      s.(pre := PreRecheck(id, prepared), leased := if prepared.Ok? then s.leased else s.leased - {id})
    case PreRecheck(id, prepared) =>
      if IsCancelled(s, id) then
        s.(pre := PrePush(id, CancelledResult()), leased := s.leased - {id}, given := s.given + [CancelledResult()])
      else s.(pre := PrePush(id, prepared), given := s.given + [prepared])
    case PrePush(id, prepared) =>
      s.(pre := PreWaiting, preprocessQueue := PushOrDrop(s.preprocessQueue, PreprocessedTask(id, prepared)))
    case PreClose => s.(pre := PreDone, preprocessQueue := s.preprocessQueue.Close())
  }

  ghost function MemberIds(members: seq<Member>): (ids: seq<nat>)
    ensures |ids| == |members| && forall i :: 0 <= i < |members| ==> ids[i] == members[i].id
  {
    seq(|members|, i requires 0 <= i < |members| => members[i].id)
  }

  ghost function Inputs(members: seq<Member>): (xs: seq<Prepared>)
    ensures |xs| == |members| && forall i :: 0 <= i < |members| ==> xs[i] == members[i].prepared
  {
    seq(|members|, i requires 0 <= i < |members| => members[i].prepared)
  }

  /** Back to waiting for the first member, or to the end of the thread. */
  ghost function AfterBatch(last: bool): BatchThread { if last then BatchClose else Collect([]) }

  ghost function BatchNext(c: Config, s: State): State
    requires BatchReady(s)
  {
    match s.batch
    case Collect(members) =>
      if s.preprocessQueue.CanPop() then
        var item := s.preprocessQueue.items[0];
        s.(batch := Examine(item.id, item.prepared, members), preprocessQueue := s.preprocessQueue.Pop())
      else s.(batch := if members == [] then BatchClose else GotNothing(members))
    case Examine(id, prepared, members) =>
      var t := s.(verdicts := s.verdicts + [IsCancelled(s, id)]);
      if IsCancelled(s, id) then t.(batch := Early(id, CancelledResult(), members))
      else if prepared.Err? then t.(batch := Early(id, prepared.PropagateErr(), members))
      else
        var grown := members + [Member(id, prepared.value)];
        t.(batch := if |grown| >= c.maxBatchSize then Infer(grown, false) else Collect(grown))
    case Early(id, result, members) => // the input, if there was one, dies after the hand-over
      s.(batch := Collect(members), completions := PushOrDrop(s.completions, Completion(id, result)),
         leased := s.leased - {id})
    case GotNothing(members) => // nothing came; a second look tells a closed queue from a timeout
      s.(batch := Infer(members, s.preprocessQueue.closed))
    case Infer(members, last) =>
      var outputs := c.stages.inferBatch(Inputs(members));
      s.(batch := if outputs.Ok? then Postprocess(members, 0, outputs.value, last)
                  else FailMembers(members, 0, outputs.status, last),
         leased := s.leased - (set id | id in MemberIds(members)),
         batches := s.batches + [members])
    case FailMembers(members, index, status, last) =>
      if index >= |members| then s.(batch := AfterBatch(last))
      else s.(batch := FailMembers(members, index + 1, status, last),
              completions := PushOrDrop(s.completions, Completion(members[index].id, Err(status))))
    case Postprocess(members, index, outputs, last) =>
      if index >= |members| then s.(batch := AfterBatch(last))
      else s.(batch := PushResult(members, index, outputs, c.stages.postprocess(outputs[index]), last))
    case PushResult(members, index, outputs, result, last) =>
      s.(batch := Postprocess(members, index + 1, outputs, last),
         postprocessQueue := PushOrDrop(s.postprocessQueue, Completion(members[index].id, result)))
    case BatchClose => s.(batch := BatchDone, postprocessQueue := s.postprocessQueue.Close())
  }

  ghost function TimeoutNext(s: State, insidePopFor: bool): State
    requires s.batch.Collect?
  {
    s.(batch := if insidePopFor then GotNothing(s.batch.members) else Infer(s.batch.members, false))
  }

  ghost function PostNext(s: State): State
    requires PostReady(s)
  {
    match s.post
    case PostPop =>
      if !s.postprocessQueue.CanPop() then s.(post := PostDone)
      else
        var item := s.postprocessQueue.items[0];
        s.(post := PostDispatch(item.id, item.result), postprocessQueue := s.postprocessQueue.Pop())
    case PostDispatch(id, result) =>
      s.(post := PostPop, completions := PushOrDrop(s.completions, Completion(id, result)))
  }

  ghost function DispNext(s: State): State
    requires DispReady(s)
  {
    match s.disp
    case DispPop =>
      if !s.completions.CanPop() then s.(disp := DispDone)
      else
        var item := s.completions.items[0];
        s.(disp := DispStore(item.id, item.result), completions := s.completions.Pop())
    case DispStore(id, r) => s.(disp := DispPromise(id, r), tasks := s.tasks[id := StoreTerminal(s.tasks[id], r)])
    case DispPromise(id, r) =>
      s.(disp := DispCallback, tasks := s.tasks[id := SetPromise(s.tasks[id], r)], delivered := s.delivered + [id])
    case DispCallback => s.(disp := DispPop)
  }

  ghost function WaiterNext(s: State): State
    requires WaiterReady(s)
  {
    match s.waiter
    case JoiningStages => s.(waiter := JoiningDispatcher, completions := s.completions.Close())
    case JoiningDispatcher => s.(waiter := WaitReturned)
  }

  ghost function Next(c: Config, s: State, a: Action): State
    requires Enabled(c, s, a)
  {
    match a
    case Submit(p) => SubmitNext(c, s, p)
    case RequestStop(immediate) => StopNext(s, immediate)
    case Cancel(id) => s.(tasks := s.tasks[id := RequestCancellation(s.tasks[id])])
    case StartWait => StopNext(s, false).(waiter := JoiningStages)
    case WakeSubmitter(k) => WakeNext(s, k)
    case PreStep => PreNext(c, s)
    case BatchStep => BatchNext(c, s)
    case FlushTimeout(inside) => TimeoutNext(s, inside)
    case PostStep => PostNext(s)
    case DispStep => DispNext(s)
    case WaiterStep => WaiterNext(s)
  }

  ghost predicate ValidRun(c: Config, s: State, run: seq<Action>)
    decreases |run|
  {
    run == [] || (Enabled(c, s, run[0]) && ValidRun(c, Next(c, s, run[0]), run[1..]))
  }

  ghost function After(c: Config, s: State, run: seq<Action>): State
    requires ValidRun(c, s, run)
    decreases |run|
  {
    if run == [] then s else After(c, Next(c, s, run[0]), run[1..])
  }

  ghost predicate Reachable(c: Config, s: State) {
    exists run :: ValidRun(c, Init(c), run) && After(c, Init(c), run) == s
  }
}
