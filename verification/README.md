# Verified model of the vision runtime

A Dafny model of the execution runtime (`Runtime/`) and of the stream endpoints of the service
(`Service/src/endpoints/`), with proofs of the properties the code is built around:

- **The ring and its waiting.** `RingQueue` takes the single-producer single-consumer ring apart into one
  transition per access to a shared atomic; `RingTheorems` proves that it is a bounded FIFO and that no wake-up is
  lost, `RingClose` exactly when closing it loses an item, `RingWaits` how its waits come about and end.
  `DispatcherRing` has the same ring under several producers, as the batch executor uses it, and exactly when that
  loses one. `BlockingQueue` is the same queue as an object whose operations run one at a time. The executors use the
  FIFO (`BoundedFifo`) that the ring refines.
- **The executors.** `ParallelExecutor`, `SerialExecutor` and `BatchExecutor` are state machines: a step is one
  region under a mutex, one queue operation, one stage call, one cancellation check, one store of a task's shared
  state. Submitters, stage threads, dispatcher, stop requests and cancellations interleave freely. Stages are
  arbitrary total functions (`Stages`). `ParallelInvariant`/`ParallelTheorems`/`ParallelDrain`/`ParallelPool`/
  `ParallelCancellation`, `SerialDrain` and `BatchInvariant`/`BatchFlow`/`BatchTheorems`/`BatchAnswers`/`BatchDrain`/
  `BatchPool` hold the proofs; the modules named `...Stop`, `...Submit` and `...Leases` say for each executor what
  `cancel` and `requestStop` decide, what `submit` comes to, and what a full pool and its slots mean;
  `ExecutorEquivalence` compares the parallel executor with the serial one. `Tasks` is the task's shared state.
- **The batch executor on its real ring.** In `BatchExecutor` the dispatcher's queue takes a completion in one step.
  `BatchDispatch` joins that executor with `DispatcherRing`, into which its two threads push step by step;
  `BatchDispatchTheorems` carries the theorems over for runs without overlapping dispatches and says what a stop comes
  to in every run, `BatchDispatchSafety` what holds even with overlaps, `BatchDispatchRun` has the losing run.
- **Tensors and batches.** `TensorLayout` has the 64-bit layout loops, written with operations that wrap, against
  exact arithmetic; `Tensors` the views over shared buffers; `BatchViews`/`BatchTensors` concatenation and
  splitting; `BatchPipeline` inferBatch on buffers; `BatchInference` why batching cannot be seen in the results.
- **Buffers, frames, preprocessing.** `BufferPool`, `Frames`, `Preprocess`.
- **Streams, triggering, sessions.** `StreamRegistry`/`StreamDispatch`/`StreamTheorems`/`StreamUse`/`EndpointObjects`,
  `TimedTrigger`/`TriggerTheorems`/`TriggerRuns`, `SessionAccounting`/`SessionCalls`, and the session run together with
  an executor: `SessionRun` (parallel), `BatchSessionRun` (batch, which is what the service assembles) and
  `SessionAnswers`.

Concurrency is sequentially consistent. A run is a list of actions, each enabled where it is taken; `Reachable`
states are those after some run from the initial state, so a theorem about reachable states holds for every
interleaving. Histories (`accepted`, `delivered`, `given`, `log`, ...) are extra fields of a state that no step reads.

## What the proofs found

- **Two threads push into a single-producer ring.** The batch executor's batching thread and its postprocess thread
  both dispatch completions (`batchPipelineExecutor.hpp:213`, `:300`), and the dispatcher's queue is the ring made for
  one producer. If one push stores the tail between the other's load and store of it, one completion is never
  delivered and its promise never set (`BatchDispatchRun.DispatchesCanOverlap`). Nothing is lost if and only if no two
  dispatches overlap in this way (`DispatcherRing.NothingIsLostIffNoOverlap`,
  `BatchDispatchTheorems.RestCompletesAllIff`). Even then no task is completed twice or with a wrong answer
  (`BatchDispatchSafety`).
- **Batch drain.** "Nothing came, then closed" is read as "closed and drained" in two steps. A stopped batch
  executor that comes to rest has completed every accepted task if and only if in no step of the run the second read
  found a queue that was closed and not empty, and no two dispatches overlapped (`BatchDispatchTheorems.StopDrains`);
  `BatchPool.TimeoutCanLeaveATask` is a run that misses one. A session over it has completed what it submitted under
  the same condition (`BatchSessionRun.SessionCompletesAllIff`).
- **Pool size.** `stageQueueCapacity + 2` slots are enough for the parallel executor, and no fewer
  (`ParallelPool.PoolSizeIsExact`). The batch executor needs `stageQueueCapacity + maxBatchSize + 1`
  (`BatchPool.PoolSizeIsExact`). The session assembler gives the batch executor `stageQueueCapacity + 2`
  (`Service/src/session/sessionAssembler.cpp:248`), and by default a batch member per source: with batches of two or
  more a run can exhaust the pool, and with single ones it cannot
  (`BatchPool.SessionPoolIsEnoughForSingleBatches`). What tasks are given is therefore stated for every pool.
- **Neighbours in a batch.** A member has the serial answer if and only if its batch can be inferred
  (`BatchAnswers.MemberAnswer`); `BatchAnswers.HealthyMemberCanFail` is a run in which a healthy one fails. For
  batches of equal names, shapes and types that is if and only if every member can be inferred alone
  (`BatchInference.UniformBatchIsInferredIff`). Members that differ in a name or a byte size are refused as
  InvalidArgument, however healthy each of them is (`BatchInference.UnlikeInputsAreRefused`).
- **Cancellation.** A check that has seen a cancellation stops every later stage call, but a cancellation between a
  check and the call behind it does not: a stage can still be called for a cancelled task if and only if its thread is
  past its check (`ParallelCancellation.CallCanFollowIffPastItsCheck`), and that is one call at most
  (`ParallelTheorems.OnlyTheCallUnderWayFollows`).
- **Queue close.** A close can leave an accepted item behind if and only if it is stored while the producer is past
  its own test of it (`RingClose.CloseCanLoseIffLate`), and then one item at most
  (`RingTheorems.AnyCloseLosesAtMostOne`).
- **Serial executor.** An immediate stop reaches into a moved-from task if and only if it comes between the hand-over
  of a task and the reset of `runningTask_` (`SerialStop.MishapIffAMovedTaskIsStopped`; a run that does is
  `SerialStop.ImmediateStopCanHitAMovedTask`). Outside that window it cancels exactly the accepted tasks whose last
  check is still to come (`SerialStop.ImmediateStopDecidesAll`).
- **Concatenation** compares byte sizes where its documentation speaks of names and shapes. A sample comes back
  from the batch as it went in if and only if it is contiguous and has the first sample's shape and type
  (`BatchInference.ConcatThenSplit`).
- **Timed trigger.** A second error is delivered if and only if a software trigger fails, without a response, after
  the source was terminal (`TriggerRuns.TwoErrorsIffATriggerFailedLate`, `TriggerTheorems.TwoErrorsCanBeDelivered`). A
  frame from before the first trigger is not waited for: its callback can be overtaken by that trigger, and exactly
  then a success callback can start after a terminal error (`SuccessCanFollowIffOvertaken`,
  `SuccessAfterTerminalCanHappen`). Such a frame, and it alone, can also be closer to the next accepted frame than the
  interval, if and only if the first trigger comes less than the interval after it
  (`TriggerRuns.SpacingCanBreakIffEarlyFrameIsNear`, `TriggerTheorems.EarlyFrameBreaksSpacing`).

## Model

| member | source | states |
|---|---|---|
| RingTheorems.RingIsBoundedFifo | Runtime/include/common/boundedBlockingQueue.hpp:37-138 | in every reachable state popped ++ contents == pushed, at most capacity items, and a slot is occupied iff an index in the window uses it |
| RingTheorems.StepRefinesFifo | Runtime/include/common/boundedBlockingQueue.hpp:37-138 | with closers that come after the producer's last push, every atomic step is one push, pop or close of the bounded FIFO or changes nothing in it; the consumer is told to stop only when closed and drained |
| RingTheorems.OrderedCloseLosesNothing | Runtime/include/common/boundedBlockingQueue.hpp:53-76 | when close follows the producer's last push, every offered item has been popped when the consumer ends |
| RingTheorems.AnyCloseLosesAtMostOne | Runtime/include/common/boundedBlockingQueue.hpp:109-122 | with any closer at most one pushed item is left behind |
| RingTheorems.ThirdPartyCloseCanLoseOne | Runtime/include/common/boundedBlockingQueue.hpp:109-122 | for every capacity a run in which a close between the producer's check and its store loses an accepted item |
| RingClose.TimelyCloseLosesNothing | Runtime/include/common/boundedBlockingQueue.hpp:53-76 | over every run, whoever closes: if `closed` is never stored while the producer is past its test of it, the consumer ends with everything accepted |
| RingClose.CloseCanLoseIffLate | Runtime/include/common/boundedBlockingQueue.hpp:109-123 | for every capacity and every reachable state about to store `closed`: some run from there leaves an accepted item behind iff the producer is past its test |
| RingTheorems.NoLostProducerWakeup | Runtime/include/common/boundedBlockingQueue.hpp:41-51 | a producer parked on the current epoch has a full open ring or a thread about to raise the epoch; on an old epoch a notification is still to come |
| RingTheorems.NoLostConsumerWakeup | Runtime/include/common/boundedBlockingQueue.hpp:53-67 | the same for the consumer |
| RingTheorems.BlockedOnlyForAReason | Runtime/include/common/boundedBlockingQueue.hpp:37-76 | when no thread can move, a blocked producer faces a full open ring, a blocked consumer an empty open one, and not both are blocked |
| RingTheorems.SlotsDistinct | Runtime/include/common/boundedBlockingQueue.hpp:115-131 | two indices closer than the capacity never share a slot |
| RingWaits.PushStores | Runtime/include/common/boundedBlockingQueue.hpp:37-53 | on an open ring with room a push has a run that ends with its item in the next slot, the tail and the data epoch one further |
| RingWaits.PushWaits | Runtime/include/common/boundedBlockingQueue.hpp:37-53 | on a full open ring a push has a run that ends asleep with its item and changes nothing else |
| RingWaits.PopWaits | Runtime/include/common/boundedBlockingQueue.hpp:55-68 | on an empty open ring a pop has a run that ends asleep and changes nothing else |
| RingWaits.TimedPopNeverSleeps | Runtime/include/common/boundedBlockingQueue.hpp:78-100 | over every run: a pop with a deadline is never asleep without one |
| RingWaits.TimedPopEnds | Runtime/include/common/boundedBlockingQueue.hpp:78-100 | such a pop on an empty open ring can end at its deadline with nothing changed |
| RingWaits.OrderedCloseGoesThrough | Runtime/include/common/boundedBlockingQueue.hpp:70-76 | a producer after its last push can close the ring, which keeps its contents and wakes whoever sleeps |
| RingWaits.DrainedPopEnds | Runtime/include/common/boundedBlockingQueue.hpp:55-68 | a pop on a closed and drained ring, with a deadline or without, can end the consumer |
| DispatcherRing.NothingIsLostIffNoOverlap | Runtime/include/common/boundedBlockingQueue.hpp:109-138 | with any number of producers: when all pushes are over and the consumer has caught up, it has taken exactly what was accepted iff no push stored the tail between another's load and store of it |
| DispatcherRing.OverlapLosesAnItem | Runtime/include/common/boundedBlockingQueue.hpp:109-138 | with all pushes over, the tail counts fewer items than were accepted iff two pushes have overlapped |
| DispatcherRing.WithoutOverlapItIsAFifo | Runtime/include/common/boundedBlockingQueue.hpp:109-138 | until two pushes overlap, the ring is a bounded FIFO for several producers too |
| DispatcherRing.OneProducerNeverOverlaps | Runtime/include/common/boundedBlockingQueue.hpp:25-26 | a single producer never overlaps with itself, in any run |
| DispatcherRing.TwoProducersLoseAnItem | Runtime/include/common/boundedBlockingQueue.hpp:109-123 | for every capacity a run in which two producers load the same tail and one of two accepted items is never popped |
| BlockingQueue.BoundedBlockingQueue.constructor | Runtime/include/common/boundedBlockingQueue.hpp:29-30 | an empty open FIFO of the given capacity |
| BlockingQueue.BoundedBlockingQueue.TryPush | Runtime/include/common/boundedBlockingQueue.hpp:109-123 | appends exactly when open and not full, and raises the data epoch then |
| BlockingQueue.BoundedBlockingQueue.TryPop | Runtime/include/common/boundedBlockingQueue.hpp:125-138 | removes and returns the oldest item exactly when there is one, and raises the space epoch then |
| BlockingQueue.BoundedBlockingQueue.Close | Runtime/include/common/boundedBlockingQueue.hpp:70-76 | the contents stay, the queue is closed, both epochs rise |
| BlockingQueue.BoundedBlockingQueue.Push | Runtime/include/common/boundedBlockingQueue.hpp:37-52 | one turn of a push appends exactly when open and not full, fails exactly on a closed or slotless queue, and otherwise waits for the space epoch it has seen |
| BlockingQueue.BoundedBlockingQueue.Pop | Runtime/include/common/boundedBlockingQueue.hpp:54-68 | one turn of a pop gives the oldest item exactly when there is one, ends exactly on a closed and drained queue, and otherwise waits for the data epoch it has seen |
| BlockingQueue.PushKeepsWindow | Runtime/include/common/boundedBlockingQueue.hpp:115-120 | writing slot tail mod capacity appends to the window and disturbs no other item |
| BlockingQueue.PopKeepsWindow | Runtime/include/common/boundedBlockingQueue.hpp:131-134 | clearing slot head mod capacity drops the first item of the window and no other |
| Tasks.ExecutorTask.constructor | Runtime/include/executor/taskHandle.hpp:30-38 | a task starts queued, not cancelled, without a result |
| Tasks.ExecutorTask.Cancel | Runtime/include/executor/taskHandle.hpp:55-68 | true exactly for the call that turns the flag on before the task is terminal |
| Tasks.ExecutorTask.Complete | Runtime/include/executor/executorTask.hpp:48-63 | the promise is set to the result, and the state is Completed iff it is a value, Cancelled iff its code is Cancelled, and Failed for every other failure |
| Stages.RunPipeline | Runtime/include/pipeline/pipeline.hpp:84-94 | the first stage that fails decides the result, with its own status; without a failure it is what the last stage gives |
| ParallelTheorems.ExactlyOnceInOrder | Runtime/include/executor/parallelPipelineExecutor.hpp:83-89 | delivered ids, hands and queues from back to front are the accepted ids in increasing order; a promise is set iff its task was delivered, and is unset when it is about to be set |
| ParallelTheorems.DeliveredIsDecided | Runtime/include/executor/parallelPipelineExecutor.hpp:206-223 | for every pool: a delivered task has the Cancelled result if its last check saw a cancellation, and otherwise the serial result, or the exhaustion of a pool that is too small; its state agrees |
| ParallelTheorems.PipelinedRefinesSerial | Runtime/include/executor/parallelPipelineExecutor.hpp:155-223 | without cancellations the delivered answers are those of Pipeline::run on the accepted packets, in submission order |
| ParallelTheorems.VerdictIsFinal | Runtime/include/executor/parallelPipelineExecutor.hpp:217-221 | for every pool: the last check alone decides; along every run the promise is what its verdict says of what the stages gave |
| ParallelTheorems.CancelledInTime | Runtime/include/executor/parallelPipelineExecutor.hpp:151-153 | for every pool: a task cancelled before its last check is delivered as Cancelled, whatever the stages returned |
| ParallelTheorems.NoCallAfterASeenCancellation | Runtime/include/executor/parallelPipelineExecutor.hpp:172-219 | along every run no stage is called for a task after one of its checks has seen a cancellation |
| ParallelCancellation.CallCanFollowIffPastItsCheck | Runtime/include/executor/parallelPipelineExecutor.hpp:172-219 | after a cancellation some run calls a stage not yet called for the task iff the stage's thread is already past its check; for all three stages |
| ParallelTheorems.OnlyTheCallUnderWayFollows | Runtime/include/executor/parallelPipelineExecutor.hpp:172-219 | after a cancellation the only stage call that can follow is the one whose thread is already past its check, and there is at most one |
| ParallelCancellation.CallCanFollowACancellation | Runtime/include/executor/parallelPipelineExecutor.hpp:172-174 | a run in which a stage is called for a task that has been cancelled since its check |
| ParallelStop.CancelledIffAsked | Runtime/include/executor/parallelPipelineExecutor.hpp:92-105 | over every run: a task comes to be cancelled iff `cancel` was called on it or an immediate stop was requested; a graceful stop and all other steps cancel nobody |
| ParallelStop.AnswerByCalls | Runtime/include/executor/parallelPipelineExecutor.hpp:151-219 | a delivered task nobody asked to cancel has the answer of Pipeline::run, or with a pool that is too small that it was exhausted; another one has that or Cancelled |
| ParallelStop.CancelDecides | Runtime/include/executor/taskHandle.hpp:55-68 | along every run from a call of `cancel` before the task's last check it is delivered as Cancelled; nobody else is concerned |
| ParallelStop.ImmediateStopFlagsTheQueue | Runtime/include/executor/parallelPipelineExecutor.hpp:97-102 | an immediate stop turns on the flag of every task in the entry queue and no other |
| ParallelStop.ImmediateStopDecidesAll | Runtime/include/executor/parallelPipelineExecutor.hpp:92-105 | along every run from an immediate stop: tasks whose last check was to come are delivered as Cancelled, the others keep what their check decided, none is accepted any more, and at the end all are delivered |
| ParallelStop.GracefulStopCompletesAll | Runtime/include/executor/parallelPipelineExecutor.hpp:92-105 | along every run from a graceful stop a task nobody asked to cancel is delivered with the answer of Pipeline::run, none is accepted any more, and at the end all are delivered |
| ParallelSubmit.SubmissionIsDecided | Runtime/include/executor/parallelPipelineExecutor.hpp:53-90 | the entry queue is bounded; on an open executor with room the packet becomes the last, queued task; on a full one its submitter sleeps iff so configured; every refusal changes nothing |
| ParallelSubmit.BlockingRefusesNothing | Runtime/include/executor/parallelPipelineExecutor.hpp:69-77 | over every run up to a stop: a blocking executor has accepted, or holds asleep, exactly the packets it was offered |
| ParallelSubmit.OnlyBlockingSleeps | Runtime/include/executor/parallelPipelineExecutor.hpp:53-80 | over every run: without blocking nobody sleeps, and an executor without queues accepts nothing |
| ParallelSubmit.QuietMeansServed | Runtime/include/executor/parallelPipelineExecutor.hpp:53-250 | stopped or not, when no executor step is left every accepted task has been delivered in order and nobody sleeps |
| ParallelSubmit.EverySubmissionIsServed | Runtime/include/executor/parallelPipelineExecutor.hpp:53-250 | a quiet blocking executor that was not stopped has delivered exactly the packets it was offered |
| ParallelTheorems.TaskStateAdvances | Runtime/include/executor/executorTask.hpp:41-57 | for every pool: every step keeps a task's state or moves it Queued, Running, one terminal state |
| ParallelDrain.SomeoneCanMove | Runtime/include/executor/parallelPipelineExecutor.hpp:108-116 | with an undelivered task, or after a stop short of rest, a thread of the executor has an enabled step, whatever is full or blocked |
| ParallelDrain.StepsAfterStopAreBounded | Runtime/include/executor/parallelPipelineExecutor.hpp:92-106 | after a stop every step of the executor lowers an explicit measure and nothing from outside raises it |
| ParallelDrain.StopDrains | Runtime/include/executor/parallelPipelineExecutor.hpp:92-116 | after a stop every run has boundedly many executor steps and, when it can take no more, rests with every accepted task completed |
| ParallelDrain.RestMeansAllCompleted | Runtime/include/executor/parallelPipelineExecutor.hpp:108-116 | at rest all accepted tasks were delivered in order and every promise is set |
| ParallelPool.EnoughSlots | Runtime/src/preprocess/frameNodes/toTensorNode.cpp:79-82 | before an acquire at most stageQueueCapacity + 1 tensors are alive |
| ParallelPool.PoolSizeIsExact | Runtime/include/runtime/presets/anomalyPreset.hpp:87-91 | the pool never reports exhaustion in any run iff it has at least stageQueueCapacity + 2 slots |
| ParallelLeases.ExhaustionFailsTheTask | Runtime/include/executor/parallelPipelineExecutor.hpp:172-180 | along every run: a task that found the pool full is delivered as ResourceExhausted unless it is cancelled |
| ParallelLeases.SlotsAreNeeded | Runtime/include/executor/parallelPipelineExecutor.hpp:172-219 | in every reachable state a slot is held only by a task whose tensor is being filled, waits for inference or is in its hands before the call |
| SerialExecutor.SerialDelivery | Runtime/include/executor/serialPipelineExecutor.hpp:135-167 | tasks are delivered in submission order, each with the serial result or, by its last check, Cancelled |
| SerialExecutor.TaskStateIsShown | Runtime/include/executor/serialPipelineExecutor.hpp:140-166 | a waiting task is Queued, and the one whose stages run is Running |
| SerialSubmit.SubmissionIsDecided | Runtime/include/executor/serialPipelineExecutor.hpp:52-89 | the queue is bounded; room accepts, a full queue puts to sleep or refuses as configured, and a refusal changes nothing |
| SerialSubmit.BlockingRefusesNothing | Runtime/include/executor/serialPipelineExecutor.hpp:68-76 | over every run up to a stop: a blocking executor has accepted, or holds asleep, exactly the packets it was offered |
| SerialSubmit.EverySubmissionIsServed | Runtime/include/executor/serialPipelineExecutor.hpp:52-170 | a quiet blocking executor that was not stopped has delivered exactly the packets it was offered |
| SerialDrain.StopDrains | Runtime/include/executor/serialPipelineExecutor.hpp:91-119 | after a stop every run has boundedly many executor steps and can end only with every accepted task delivered, in order |
| SerialStop.MishapIffAMovedTaskIsStopped | Runtime/include/executor/serialPipelineExecutor.hpp:91-101 | over every run: a moved-from task is reached into iff some immediate stop comes between the hand-over of a task and the reset of runningTask_ |
| SerialStop.ImmediateStopDecidesAll | Runtime/include/executor/serialPipelineExecutor.hpp:91-165 | along every run from an immediate stop outside that window: each accepted task is delivered with the serial answer if its last check was over and saw no flag, and as Cancelled otherwise; none is accepted any more, and at the end all are delivered |
| SerialStop.CancelledInTime | Runtime/include/executor/serialPipelineExecutor.hpp:153-162 | a task flagged before its last check is delivered as Cancelled, along every run |
| SerialStop.FlaggedIffAsked | Runtime/include/executor/serialPipelineExecutor.hpp:91-107 | over every run: a task comes to be flagged iff `cancel` was called on it or an immediate stop came before its last check |
| SerialStop.AnswerByCalls | Runtime/include/executor/serialPipelineExecutor.hpp:91-166 | a delivered task has the answer of Pipeline::run or Cancelled, and the former if nobody asked to cancel it |
| SerialStop.CancelDecides | Runtime/include/executor/taskHandle.hpp:55-68 | along every run from a call of `cancel` before the task's last check it is delivered as Cancelled; nobody else is concerned |
| SerialStop.GracefulStopCompletesAll | Runtime/include/executor/serialPipelineExecutor.hpp:91-119 | along every run from a graceful stop a task nobody asks to cancel is delivered with the answer of Pipeline::run, none is accepted any more, and at the end all are delivered |
| SerialStop.ImmediateStopCanHitAMovedTask | Runtime/include/executor/serialPipelineExecutor.hpp:97-99 | a run in which an immediate stop reaches into a task already moved to the dispatcher |
| ExecutorEquivalence.SameAnswers | Runtime/include/executor/parallelPipelineExecutor.hpp:155-223 | on the same accepted packets the two executors deliver the same answers, task by task, for any pair of interleavings |
| BatchTheorems.EachTaskIsInOnePlace | Runtime/include/executor/batchPipelineExecutor.hpp:177-302 | with a dispatcher queue that takes completions one at a time: each accepted task is in exactly one place, once, and its promise is set iff it was delivered |
| BatchTheorems.BatchesCutTheStream | Runtime/include/executor/batchPipelineExecutor.hpp:206-291 | for every pool: the batches and the one under collection are the tasks that were given a prepared input and not cancelled, cut in order into pieces of size 1 to maxBatchSize |
| BatchTheorems.DeliveredAnswer | Runtime/include/executor/batchPipelineExecutor.hpp:266-302 | for every pool: a delivered task has its early failure, its cancellation, or what its own output of its own batch gives; what preprocessing gave is the serial result or, for a pool that is too small, its exhaustion; the state agrees |
| BatchStop.CancelledIffAsked | Runtime/include/executor/batchPipelineExecutor.hpp:109-122 | over every run: a task comes to be cancelled iff `cancel` was called on it or an immediate stop was requested |
| BatchStop.CancelledInTime | Runtime/include/executor/batchPipelineExecutor.hpp:212-264 | a task cancelled before the batching thread examines it is delivered as Cancelled, along every run |
| BatchStop.VerdictByCalls | Runtime/include/executor/batchPipelineExecutor.hpp:173-264 | the batching thread finds a task cancelled only if somebody asked to cancel it |
| BatchStop.CancelDecides | Runtime/include/executor/taskHandle.hpp:55-68 | along every run from a call of `cancel` before the task is examined it is delivered as Cancelled; nobody else is concerned |
| BatchStop.ImmediateStopFlagsTheQueue | Runtime/include/executor/batchPipelineExecutor.hpp:114-119 | an immediate stop turns on the flag of every task in the entry queue and no other |
| BatchStop.ImmediateStopDecidesAll | Runtime/include/executor/batchPipelineExecutor.hpp:109-122 | along every run from an immediate stop: a delivered task that was still to be examined is Cancelled, an examined one has its own early failure, its cancellation or its batch's answer, and none is accepted any more |
| BatchStop.GracefulStopCancelsNobody | Runtime/include/executor/batchPipelineExecutor.hpp:109-122 | along every run from a graceful stop a task nobody asks to cancel is not found cancelled, and none is accepted any more |
| BatchSubmit.SubmissionIsDecided | Runtime/include/executor/batchPipelineExecutor.hpp:70-107 | the entry queue is bounded; room accepts, a full queue puts to sleep or refuses as configured, and a refusal changes nothing |
| BatchSubmit.BlockingRefusesNothing | Runtime/include/executor/batchPipelineExecutor.hpp:86-94 | over every run up to a stop: a blocking executor has accepted, or holds asleep, exactly the packets it was offered |
| BatchSubmit.EverySubmissionIsServed | Runtime/include/executor/batchPipelineExecutor.hpp:70-302 | with a dispatcher queue that takes completions one at a time: a quiet blocking executor that was not stopped has completed exactly the packets it was offered |
| BatchLeases.ExhaustionFailsTheTask | Runtime/include/executor/batchPipelineExecutor.hpp:194-202 | along every run: a task that found the pool full is delivered as ResourceExhausted unless it is cancelled |
| BatchLeases.SlotsAreNeeded | Runtime/include/executor/batchPipelineExecutor.hpp:194-275 | in every reachable state a slot is held only by a task whose tensor is being filled, waits, or belongs to the batch being collected |
| BatchAnswers.BatchOfATaskIsUnique | Runtime/include/executor/batchPipelineExecutor.hpp:206-264 | a task is in at most one batch, at one index |
| BatchAnswers.MemberAnswer | Runtime/include/executor/batchPipelineExecutor.hpp:266-291 | for every pool, and every batch that, if inferred, gives each sample what it gets alone: a delivered member has the serial answer iff its batch can be inferred, apart from members whose own serial answer is that failure; otherwise it has the batch's failure |
| BatchAnswers.PreparedWasInABatch | Runtime/include/executor/batchPipelineExecutor.hpp:206-264 | every delivered task that was prepared and not cancelled was in a batch of prepared tasks |
| BatchAnswers.HealthyMemberCanFail | Runtime/include/executor/batchPipelineExecutor.hpp:266-291 | for every two packets that cannot be inferred together: a run in which the first, which the serial run answers, is given the failure of the batch |
| BatchAnswers.BatchedRefinesSerial | Runtime/include/executor/batchPipelineExecutor.hpp:206-302 | where no batch of the run failed and the pool is large enough, a delivered task has the serial answer unless its check saw a cancellation, however flush timing cut the stream |
| BatchDrain.SomeoneCanMove | Runtime/include/executor/batchPipelineExecutor.hpp:125-133 | with a dispatcher queue that takes completions one at a time: after a stop, short of rest, a thread of the executor has an enabled step |
| BatchDrain.StepsAfterStopAreBounded | Runtime/include/executor/batchPipelineExecutor.hpp:109-133 | with a dispatcher queue that takes completions one at a time: after a stop every step of the executor lowers an explicit measure |
| BatchDrain.StopDrains | Runtime/include/executor/batchPipelineExecutor.hpp:237-249 | with such a queue a stopped executor comes to rest, with every accepted task completed iff no step of the run took a closed non-empty queue for a drained one |
| BatchDrain.RestLeavesOnlyTheQueue | Runtime/include/executor/batchPipelineExecutor.hpp:206-235 | with such a queue, at rest a task is completed or still in the preprocessed queue |
| BatchDrain.SingleBatchesMissNothing | Runtime/include/executor/batchPipelineExecutor.hpp:238-249 | with a batch size of 1 the two reads never happen, so nothing is left behind |
| BatchDispatch.HandOverIsARun | Runtime/include/executor/batchPipelineExecutor.hpp:341-348 | handing a completion to the ring and the dispatcher's work behind it are a run of the executor with such a queue |
| BatchDispatchTheorems.EachTaskIsAcceptedOnce | Runtime/include/executor/batchPipelineExecutor.hpp:177-302 | with the real ring, overlapping or not: each accepted task is still on its way or was accepted by the ring, once |
| BatchDispatchTheorems.WithoutOverlapEachTaskIsInOnePlace | Runtime/include/executor/batchPipelineExecutor.hpp:177-302 | with the real ring, until two dispatches overlap: each accepted task is in exactly one place, once |
| BatchDispatchTheorems.RestCompletesAllIff | Runtime/include/executor/batchPipelineExecutor.hpp:213-302 | with the real ring, at rest: every accepted task is completed iff none is left in the preprocessed queue and no two dispatches overlapped |
| BatchDispatchTheorems.SomeoneCanMove | Runtime/include/executor/batchPipelineExecutor.hpp:125-133 | with the real ring, after a stop, short of rest and without overlap, a thread of the executor has an enabled step |
| BatchDispatchTheorems.StopDrains | Runtime/include/executor/batchPipelineExecutor.hpp:109-133 | with the real ring: without overlap the steps after a stop are bounded and end only at rest; a rest has completed every task iff no second read missed an item and no two dispatches overlapped |
| BatchDispatchRun.DispatchesCanOverlap | Runtime/include/executor/batchPipelineExecutor.hpp:341-348 | a run in which the postprocess thread and the batching thread dispatch at once and one of two accepted tasks is never completed |
| BatchDispatchSafety.NobodyIsCompletedTwice | Runtime/include/executor/batchPipelineExecutor.hpp:341-348 | overlapping or not, no task is completed twice |
| BatchDispatchSafety.AnswersAreRight | Runtime/include/executor/batchPipelineExecutor.hpp:213-302 | overlapping or not, a completed task has its own right answer |
| BatchPool.PoolSizeIsExact | Runtime/include/executor/batchPipelineExecutor.hpp:206-291 | the pool never reports exhaustion in any run iff it has at least stageQueueCapacity + maxBatchSize + 1 slots |
| BatchPool.SessionPoolIsEnoughForSingleBatches | Service/src/session/sessionAssembler.cpp:248 | with stageQueueCapacity + 2 slots the pool is never exhausted iff the batch size is 1 |
| BatchPool.TimeoutCanLeaveATask | Runtime/include/executor/batchPipelineExecutor.hpp:246-249 | a run in which a timeout, a push and a close make the collector leave a task |
| TensorLayout.ElementCount | Runtime/include/core/tensor.hpp:289-299 | the exact product of a concrete shape when it fits 64 bits, otherwise 0; nothing wraps on the way |
| TensorLayout.ContiguousByteStrides | Runtime/include/core/tensor.hpp:301-315 | row-major strides when shape and size fit, otherwise none |
| TensorLayout.RequiredBytes | Runtime/include/core/tensor.hpp:276-285 | the exact span of a strided layout, or nothing exactly when it exceeds 64 bits |
| TensorLayout.ValidateMetadata | Runtime/include/core/tensor.hpp:255-287 | the 64-bit code answers what exact arithmetic answers |
| TensorLayout.SizesInBytes | Runtime/include/core/dataType.hpp:20-40 | which types take one, two, four and eight bytes |
| TensorLayout.SpanIsExact | Runtime/include/core/tensor.hpp:276-285 | no element reaches past the span and the last one ends where it ends |
| TensorLayout.RowMajorReach | Runtime/include/core/tensor.hpp:301-315 | with default strides the span is the product of the dimensions times the element size |
| TensorLayout.RowMajorElementsAreDisjoint | Runtime/include/core/tensor.hpp:301-315 | with default strides different elements share no byte |
| TensorLayout.LinearAndUnravel | Runtime/include/core/tensor.hpp:301-315 | row-major positions and in-range indices correspond one to one |
| Tensors.Create | Runtime/include/core/tensor.hpp:229-253 | a tensor is created iff the buffer exists, the layout is admissible and offset plus span is within capacity |
| Tensors.Subview | Runtime/include/core/tensor.hpp:133-149 | a subview is created iff it lies inside the parent's own bytes, in the parent's buffer; the offset sum never wraps |
| Tensors.ElementsAreInside | Runtime/include/core/tensor.hpp:133-149 | every in-range index of a tensor or subview addresses bytes inside the view and its buffer |
| Tensors.ContiguousCoversItsBytes | Runtime/include/core/tensor.hpp:179-181 | a contiguous tensor has count times size bytes, elements in row-major order, none overlapping |
| Tensors.EveryByteIsInAnElement | Runtime/include/core/tensor.hpp:179-181 | every byte of a contiguous tensor belongs to an element |
| BatchTensors.CopyBytes | Runtime/include/pipeline/batchTensors.hpp:50-51 | the copied bytes stand at their place and all others are unchanged |
| BatchTensors.CopySamples | Runtime/include/pipeline/batchTensors.hpp:42-52 | all inputs have a tensor of that name and size iff true; then the buffer is the inputs' bytes joined, every byte written |
| BatchTensors.ConcatOne | Runtime/include/pipeline/batchTensors.hpp:30-63 | one batch tensor is built iff batch dimension is 1, sizes agree and the packed sample fits, in new storage, with the joined bytes |
| BatchTensors.ConcatBatchTensors | Runtime/include/pipeline/batchTensors.hpp:22-65 | a batch is built iff every name of the first input can be joined, and means what ConcatViews says |
| BatchTensors.WrappedSizeFallsShort | Runtime/include/pipeline/batchTensors.hpp:38-52 | the 64-bit product that sizes the storage is smaller than the samples copied into it iff the exact product exceeds 64 bits |
| BatchTensors.SplitOne | Runtime/include/pipeline/batchTensors.hpp:77-97 | one tensor is sliced iff its leading dimension is the count, its bytes divide evenly and a packed sample fits a part |
| BatchTensors.SplitBatchOutputs | Runtime/include/pipeline/batchTensors.hpp:71-100 | the slices exist iff every tensor can be cut, and slice i is a view of the batch's own storage |
| BatchTensors.SampleMeaning | Runtime/include/pipeline/batchTensors.hpp:86-96 | a slice reads as sample i of the batch's bytes |
| BatchInference.JoinedAt | Runtime/include/pipeline/batchTensors.hpp:50-51 | sample i is at bytes [i*s, (i+1)*s) of the joined storage |
| BatchInference.ConcatThenSplit | Runtime/include/pipeline/batchTensors.hpp:22-100 | cutting the batch gives back sample i, layout tag apart, iff it is contiguous with the first sample's shape and type |
| BatchInference.BatchLooksLikeTheFirst | Runtime/include/pipeline/batchTensors.hpp:53-60 | the batch tensor has the first sample's type, layout tag and trailing dimensions, the number of samples in front, and the joined bytes |
| BatchInference.UniformSurvives | Runtime/include/pipeline/batchTensors.hpp:22-100 | a list with equal names, shapes and types of packed samples is joined, and cutting gives every sample back |
| BatchInference.BatchGivesEachItsOwn | Runtime/include/pipeline/pipeline.hpp:96-132 | inferBatch with a sample-by-sample backend gives, at index i, packet i and context i with the bytes, shape and type infer gives input i |
| BatchInference.UniformBatchIsInferredIff | Runtime/include/pipeline/pipeline.hpp:96-132 | a batch of equal names, shapes and types goes through iff each of its inputs can be inferred alone |
| BatchInference.FailuresKeepTheirCode | Runtime/include/pipeline/pipeline.hpp:96-111 | a backend failure is passed on with its own code, alone and for a batch, and a success keeps packet and context |
| BatchInference.UnlikeInputsAreRefused | Runtime/include/pipeline/batchTensors.hpp:42-48 | inputs that differ in a name of the first or in its byte size are refused as InvalidArgument, for every backend |
| BatchInference.BatchCutsDoNotMatter | Runtime/include/pipeline/pipeline.hpp:96-132 | however a stream is cut into batches: it goes through iff every input can be inferred alone, and then every input gets what infer gives it alone |
| BatchInference.PassThroughIsSampleBySample | Runtime/include/pipeline/pipeline.hpp:47-63 | the sample-by-sample contract of a backend, failures included, can be met |
| BatchPipeline.RunInferBatch | Runtime/include/pipeline/pipeline.hpp:96-132 | inferBatch on tensors and buffers: it joins, calls the backend once, cuts and appends; its results exist iff those on the views do, carry packet i and context i and mean the same; failures have the same code |
| BufferPool.SlotsArePartitioned | Runtime/include/memory/detail/bufferPool.hpp:95-130 | in every reachable state free and held slots partition the pool, the stack has no duplicate, no two leases share a slot, and an empty stack means all are held |
| BufferPool.SlotsAreReusedAfterReturn | Runtime/include/memory/detail/bufferPool.hpp:119-126 | a lease is issued once and returned at most once, never while a view is left, and a slot is issued again only after its return |
| BufferPool.NothingLeaks | Runtime/include/memory/detail/bufferPool.hpp:119-126 | with all leases gone every slot is free |
| BufferPool.PoolState.AcquireImpl | Runtime/include/memory/detail/bufferPool.hpp:95-130 | a lease on the top slot iff one is free; otherwise exhausted, or for a blocking call cancelled once stopped, and until then it waits and changes nothing |
| BufferPool.PoolState.CopyView | Runtime/include/memory/detail/bufferPool.hpp:118-129 | one more view of a live lease |
| BufferPool.PoolState.DropView | Runtime/include/memory/detail/bufferPool.hpp:118-129 | one view less; true for the last, after which the deleter may run |
| BufferPool.PoolState.RunDeleter | Runtime/include/memory/detail/bufferPool.hpp:120-126 | the slot is pushed back and the lease ends |
| BufferPool.Create | Runtime/include/memory/detail/bufferPool.hpp:25-56 | a pool with slot 0 on top iff sizes are positive, there is an allocator and no allocation fails; the first failure is reported |
| Frames.CreateFrame | Runtime/include/vision/frame.hpp:52-94 | a frame is created iff stride covers a row and offset plus span is within capacity, in exact arithmetic |
| Frames.PixelsAreInside | Runtime/include/vision/frame.hpp:67-93 | every pixel is inside the view and its buffer |
| Frames.CentringIsBalanced | Runtime/src/preprocess/frameNodes/cvCenterCropNode.cpp:29-40 | half-even rounding stays within the margin, shares it out to within one pixel and is even on a tie |
| Frames.CenterCrop | Runtime/src/preprocess/frameNodes/cvCenterCropNode.cpp:58-94 | a crop iff it fits a Gray8, Bgr8 or Bgra8 frame, as a view of the same buffer inside the parent's bytes; it lies in the middle to within one pixel on both axes, with an even part first when the margin is odd; Unsupported and InvalidArgument are told apart |
| Frames.CropOffset | Runtime/src/preprocess/frameNodes/cvCenterCropNode.cpp:75-79 | the byte offset of the crop does not wrap and its view ends inside the parent |
| Frames.CropKeepsPixels | Runtime/src/preprocess/frameNodes/cvCenterCropNode.cpp:71-79 | pixel (x, y) of a crop is pixel (x + left, y + top) of the frame |
| Preprocess.PlanarIndexIsOneToOne | Runtime/src/preprocess/frameNodes/toTensorNode.cpp:96-111 | the positions the loops write are in range and pairwise different |
| Preprocess.PlanarIndexIsTheTensorIndex | Runtime/src/preprocess/frameNodes/toTensorNode.cpp:83-87 | they are the row-major positions of the tensor index [0, c, y, x] |
| Preprocess.TensorFitsItsBuffer | Runtime/src/preprocess/frameNodes/toTensorNode.cpp:45-54 | a pool buffer of the size computed at build time takes the tensor exactly |
| Preprocess.ToTensor | Runtime/src/preprocess/frameNodes/toTensorNode.cpp:61-120 | accepted iff size and format fit, and nothing is written otherwise; then element (c * height + y) * width + x is the grey byte, or byte 2 - c of the three or four of pixel (x, y), by its address in the buffer |
| Preprocess.WritePixel | Runtime/src/preprocess/frameNodes/toTensorNode.cpp:103-108 | one pixel goes to its place in every plane, with its channels reversed, and no other element changes |
| Preprocess.Normalize | Runtime/src/preprocess/tensorNodes/normalizeNode.cpp:37-66 | on a matching tensor every element is mapped once by its own channel's parameters; on another nothing changes |
| Preprocess.Prepare | Runtime/include/runtime/presets/anomalyPreset.hpp:96-101 | crop, planarise and normalise: the crop is central, and element (c * height + y) * width + x is (byte * scale - mean[c]) / deviation[c] of byte 2 - c, or grey, of source pixel (x + left, y + top), by its address in the buffer |
| StreamTheorems.FramesAreAccountedFor | Service/src/endpoints/endpointRegistry.cpp:349-411 | accepted == taken + dropped + discarded + pending, taken frames in order and each handed to the worker |
| StreamTheorems.NewestIsTaken | Service/src/endpoints/endpointRegistry.cpp:396-403 | a dispatch takes the newest accepted frame |
| StreamTheorems.PendingIsOnItsWay | Service/src/endpoints/endpointRegistry.cpp:367-381 | a pending frame is scheduled and its dispatch is about to be posted, queued or popped, or was refused by a stopping dispatcher |
| StreamTheorems.DispatchesAreCoalesced | Service/src/endpoints/endpointRegistry.cpp:374-381 | at most one dispatch of a stream is on its way, and one more per removal of its name |
| StreamTheorems.NothingIsForgotten | Service/src/endpoints/endpointRegistry.cpp:349-411 | with nothing on its way nothing is pending |
| StreamTheorems.ShutdownDrainsTheQueue | Service/src/endpoints/endpointDispatcher.cpp:12-53 | tasks run in the order posted, and a worker that left has run them all |
| StreamTheorems.DeliveryIsOrdered | Service/src/endpoints/endpointRegistry.cpp:404-409 | the callbacks of a stream come in publication order with the published frames, and nobody sees one twice |
| StreamTheorems.SubscribersAreServed | Service/src/endpoints/endpointRegistry.cpp:402-409 | everybody subscribed when a frame is taken is called with it |
| StreamUse.RegisterAddsAnEmptyStream | Service/src/endpoints/endpointRegistry.cpp:100-110 | a registration succeeds iff the name is not empty and free, and gives it a slot with nobody and nothing in it; the two failures are told apart |
| StreamUse.RegisterOtherTakesTheName | Service/src/endpoints/endpointRegistry.cpp:37-98 | a parameter, command or state is registered iff its name is not empty and free, and takes the name and no slot |
| StreamUse.SubscribeAddsOne | Service/src/endpoints/endpointRegistry.cpp:274-289 | a subscription succeeds iff the stream is registered, enters one token that nobody has in its slot, and changes nothing else |
| StreamUse.UnsubscribeRemovesOne | Service/src/endpoints/endpointRegistry.cpp:291-301 | a cancelled subscription is in no slot any more, and every other one stays |
| StreamUse.PublishOffersTheFrame | Service/src/endpoints/endpointRegistry.cpp:353-381 | a publication to somebody becomes the pending, accepted frame and the one it replaces counts as dropped; one to nobody is not accepted and lets go of the pending frame uncounted |
| StreamUse.RemoveLetsGo | Service/src/endpoints/endpointRegistry.cpp:112-122 | a removed stream keeps no pending frame and its name is free; the others stay |
| StreamUse.ClearForgetsAll | Service/src/endpoints/endpointRegistry.cpp:124-131 | after `clear` there is no name and no pending frame, and no earlier dispatch finds anything |
| StreamUse.SubscriberIsCalled | Service/src/endpoints/endpointRegistry.cpp:274-411 | from every reachable state with a free worker and an empty queue: subscribe, publish, and there is a run in which the new and every earlier subscriber is called with that frame |
| StreamUse.OnlySubscribersAreCalled | Service/src/endpoints/endpointRegistry.cpp:402-409 | every callback goes to somebody who was subscribed when its frame was taken, with that frame |
| StreamUse.TakeIsOfItsMoment | Service/src/endpoints/endpointRegistry.cpp:386-404 | a take has the subscribers and the newest accepted frame of its stream at that moment |
| StreamUse.OtherTaskRuns | Service/src/endpoints/endpointDispatcher.cpp:12-53 | a task of another kind takes its turn in the same queue |
| StreamUse.ShutdownEndsTheWorker | Service/src/endpoints/endpointDispatcher.cpp:12-53 | after `shutdown` a post is let fall, and a worker with nothing left leaves |
| EndpointObjects.EndpointRegistry.RegisterStream | Service/src/endpoints/endpointRegistry.cpp:100-110 | a new slot iff the name is not empty and free among all four kinds of endpoints, or a failure that changes nothing |
| EndpointObjects.EndpointRegistry.Remove | Service/src/endpoints/endpointRegistry.cpp:112-122 | whatever kind of endpoint has the name goes, a stream with its pending frame, or a failure that changes nothing |
| EndpointObjects.EndpointRegistry.SubscribeStream | Service/src/endpoints/endpointRegistry.cpp:274-289 | the registry after a subscription and its token, or a failure that changes nothing |
| EndpointObjects.EndpointRegistry.Unsubscribe | Service/src/endpoints/endpointRegistry.cpp:291-301 | the registry without the token |
| StreamRegistry.NamesAreUnique | Service/src/endpoints/endpointRegistry.cpp:37-122 | the four kinds of endpoints share one name space: a taken name cannot be registered again, can be removed, and is free then |
| EndpointObjects.EndpointRegistry.PublishFrame | Service/src/endpoints/endpointRegistry.cpp:353-381 | the registry after a publication, and a task to post exactly when none was scheduled |
| EndpointObjects.EndpointRegistry.TakeFrame | Service/src/endpoints/endpointRegistry.cpp:386-404 | the registry after a dispatch, and the frame and subscribers it took |
| EndpointObjects.EndpointDispatcher.Post | Service/src/endpoints/endpointDispatcher.cpp:12-21 | appended, or let fall when stopping |
| EndpointObjects.EndpointDispatcher.NextTask | Service/src/endpoints/endpointDispatcher.cpp:38-48 | the oldest task; nothing only when stopped and empty |
| TriggerTheorems.AcceptedFramesAreSpaced | Runtime/src/camera/timedTriggerSource.cpp:125-200 | frames accepted after the first trigger are at least triggerInterval apart, for every device |
| TriggerTheorems.OneTriggerInFlight | Runtime/src/camera/timedTriggerSource.cpp:129-167 | a trigger is issued only when the callbacks of all earlier frames have returned, except that the first one may overtake the callback of a frame from before it, and after that |
| TriggerTheorems.TriggersKeepTheInterval | Runtime/src/camera/timedTriggerSource.cpp:158-167 | every trigger after the first is issued at least the interval after the last accepted frame |
| TriggerTheorems.OnlyTheFirstTriggerOvertakes | Runtime/src/camera/timedTriggerSource.cpp:125-167 | what first overtakes a callback is the first trigger, and the callback that of a frame from before it |
| TriggerTheorems.NoSuccessAfterTerminal | Runtime/src/camera/timedTriggerSource.cpp:174-200 | after a terminal error no frame is accepted, and no success callback starts unless a trigger has overtaken a callback |
| TriggerTheorems.SuccessCanFollowIffOvertaken | Runtime/src/camera/timedTriggerSource.cpp:129-200 | for a trigger before which none has overtaken a callback: from there some run starts a success callback after a terminal error iff the trigger is issued while the callback of a frame is open |
| TriggerTheorems.FirstTriggerCanOvertake | Runtime/src/camera/timedTriggerSource.cpp:125-134 | a run whose first trigger is issued while the callback of a frame is open |
| TriggerTheorems.SuccessAfterTerminalCanHappen | Runtime/src/camera/timedTriggerSource.cpp:134-200 | a run in which a success callback starts after the terminal error of a failed trigger |
| TriggerTheorems.ErrorsDelivered | Runtime/src/camera/timedTriggerSource.cpp:136-157 | one error for a terminal source, and a second for a trigger that failed in a terminal source |
| TriggerRuns.TwoErrorsIffATriggerFailedLate | Runtime/src/camera/timedTriggerSource.cpp:134-157 | over every run: a source that has ended has delivered one error if terminal, and a second iff in some step a trigger failed in a terminal source without a response |
| TriggerTheorems.TwoErrorsCanBeDelivered | Runtime/src/camera/timedTriggerSource.cpp:134-143 | a run that delivers two errors |
| TriggerRuns.SpacingCanBreakIffEarlyFrameIsNear | Runtime/src/camera/timedTriggerSource.cpp:125-187 | from the first trigger on, some run accepts two consecutive frames closer than the interval iff a frame came before that trigger and less than the interval before it |
| TriggerTheorems.EarlyFrameBreaksSpacing | Runtime/src/camera/timedTriggerSource.cpp:176-187 | a run whose first two accepted frames are closer than the interval, one having come before the first trigger |
| TriggerTheorems.TimeoutIsReal | Runtime/src/camera/timedTriggerSource.cpp:145-158 | a missing response is reported only after the whole timeout passed without one |
| TriggerRuns.TimeoutRunsFromTheTrigger | Runtime/src/camera/timedTriggerSource.cpp:145-158 | along every run of a cycle: a scheduler still waiting can time out iff the whole timeout has passed since the trigger call returned, without a response |
| TriggerRuns.MissingResponseEndsTheSource | Runtime/src/camera/timedTriggerSource.cpp:145-158 | a cycle without a response can end the source, terminal and with one error delivered |
| TriggerRuns.FailedTriggerEndsTheSource | Runtime/src/camera/timedTriggerSource.cpp:136-143 | so can a trigger that fails before there is a response; a failure behind one is ignored |
| TriggerRuns.LeavesAfterTheCallback | Runtime/src/camera/timedTriggerSource.cpp:145-163 | over every run: a scheduler waiting when the source becomes terminal leaves, unless stopped, only after a callback was completed |
| TriggerRuns.CycleDeliversAFrame | Runtime/src/camera/timedTriggerSource.cpp:125-167 | a cycle whose device answers at once: one trigger, one frame accepted, one callback, no error, back at the pause |
| TriggerRuns.HealthySourceGoesOn | Runtime/src/camera/timedTriggerSource.cpp:125-167 | for every n a run from the start with n + 1 triggers, frames and callbacks exactly the interval apart and no error |
| TriggerRuns.StopEndsTheSource | Runtime/src/camera/timedTriggerSource.cpp:125-200 | along every run from `requestStop`: no trigger, no frame accepted, and a bounded number of steps of the two threads |
| TriggerRuns.StoppedSchedulerLeaves | Runtime/src/camera/timedTriggerSource.cpp:125-167 | a stopped scheduler leaves each of its waits with its next step |
| TriggerTheorems.EndingSourceFinishes | Runtime/src/camera/timedTriggerSource.cpp:125-200 | over every run from a stop or a terminal error on: no trigger is issued, no frame accepted, and the two threads take no more steps than an explicit measure of the work left |
| TriggerTheorems.EndingSourceIsNotStuck | Runtime/src/camera/timedTriggerSource.cpp:125-200 | until the scheduler has ended one of the two threads has a step |
| SessionAccounting.AccountsBalance | Runtime/include/runtime/multiCameraSession.hpp:203-268 | at every step received == source failures + submitted + dropped + refused + frames inside onFrame, per-source counts sum to the totals, and completed is bounded by the accepted submissions |
| SessionAccounting.WaitClosesTheAccounts | Runtime/include/runtime/multiCameraSession.hpp:128-153 | after wait every received frame is counted and submitted == completed + the tasks the executor left undone, whatever the executor |
| SessionRun.SessionCompletesEverything | Runtime/include/runtime/multiCameraSession.hpp:128-153 | over every run of a session with the parallel executor: when wait has returned, completed == submitted == accepted tasks |
| BatchSessionRun.SessionCompletesAllIff | Service/src/session/sessionAssembler.cpp:316-326 | over every run of a session with the batch executor: when wait has returned, completed == submitted iff the executor left no task in its queue and no two of its dispatches overlapped |
| SessionAccounting.FinishedIsFinal | Runtime/include/runtime/multiCameraSession.hpp:162-180 | after wait nothing changes the counters or flags |
| SessionAccounting.FrameCountStops | Runtime/include/executor/frameExecutor.hpp:172-237 | once the frame count is reached and the frames have left, a stop has been requested |
| SessionAccounting.RefusalStops | Runtime/include/runtime/multiCameraSession.hpp:255-267 | a frame the executor refuses for good ends the session |
| SessionCalls.CountersCountCalls | Runtime/include/runtime/multiCameraSession.hpp:203-268 | over every run: each counter, total or per source, rises by exactly the number of its own calls; `failed` by the completions that failed |
| SessionCalls.StopsIffThereIsAReason | Runtime/include/executor/frameExecutor.hpp:172-237 | over every run, once the frames have left: the session has stopped iff requestStop was called, the frame count was reached, a frame was refused for good, or a source failed and the policy is to stop |
| SessionCalls.FrameGoesThrough | Runtime/include/runtime/multiCameraSession.hpp:203-242 | until the sources are joined a good frame of any source can be received, submitted and completed |
| SessionCalls.WaitReturns | Runtime/include/runtime/multiCameraSession.hpp:128-153 | a stopped session whose sources are quiet can be waited for to the end |
| SessionAnswers.FailedCountsTheFailures | Runtime/include/runtime/multiCameraSession.hpp:226-236 | over every run of a session with the parallel executor: when it has finished, every task has its answer and `failed` is the number of failures among them |
| SessionAnswers.FailedCountsTheCallbacks | Runtime/include/runtime/multiCameraSession.hpp:226-236 | over every run of a session with the batch executor: `failed` is the number of callbacks that were given a failure |
| SessionAccounting.SessionCounters.FrameReceived | Runtime/include/executor/frameExecutor.hpp:172-180 | total and per-source count rise together, and the frame count test is exact |
| SessionAccounting.SessionCounters.FrameDropped | Runtime/include/runtime/multiCameraSession.hpp:248-254 | total and per-source count rise together |

## Left out

- The executors and the ring are state machines over values, not classes: their point is the interleaving of several threads, which a sequential method cannot show. Updating in place is modelled by the new value of a field; `BlockingQueue`, `BufferPool.PoolState`, `EndpointObjects`, `Tasks.ExecutorTask` and `SessionAccounting.SessionCounters` are the objects.
- Weak memory orders, wrap-around of indices and epochs after 2^64 operations, spurious wake-ups of condition variables (a wait is a step enabled by its predicate), and thread creation failures.
- What the batch executor does once the dispatcher takes from an empty slot, or a producer finds a tail behind the head (both need an overlap first): the source leaves the one undefined and never ends waiting in the other; the model stops that thread. No global order is claimed for early failures and cancellations.
- `DispatcherRing` has no epochs: waiting ends as soon as there is room or a close. That no wake-up is lost is proved for one producer (`RingTheorems`).
- In `BatchDispatch` and `BatchSessionRun` the dispatcher's own stores for a popped completion are one with the pop; `BatchExecutor` has them one by one.
- What a serial executor does after its immediate stop has reached into a moved-from task: undefined in the source; the model notes it and goes on. When that is, is proved (SerialStop.MishapIffAMovedTaskIsStopped).
- `popFor` inside the executors: its polling is one blocking step that ends with an item, with closed-and-drained, or with a timeout at any time.
- finishExecution, finishBatch, completion callbacks' own effects, frame observers and logging: calls out of the runtime that change none of the modelled state. Calling `wait` or a blocking `submit` from a callback is forbidden use.
- `cancel` on a task that is already completed does nothing in the source; in the executors' models it turns on a flag that nothing reads any more (`Tasks.ExecutorTask.Cancel` has the source's branch).
- BatchStop.GracefulStopCancelsNobody: says that no such task is found cancelled; what a stopped batch executor completes is in BatchDrain.StopDrains and BatchDispatchTheorems.StopDrains, and its answers in BatchAnswers.MemberAnswer.
- Exceptions thrown by stages: the executors turn them into failed results, so a stage that throws is a stage that fails.
- ParallelTheorems.PipelinedRefinesSerial: stated for a pool that is large enough, because with a smaller one preprocessing of the parallel executor can fail where the serial one's does not; ParallelPool says exactly when that is, and ParallelTheorems.DeliveredIsDecided holds for every pool.
- BatchAnswers.BatchedRefinesSerial: a corollary for pools that are large enough and runs in which no batch failed; BatchAnswers.MemberAnswer holds for every pool and has the exact condition.
- BatchAnswers.MemberAnswer: takes as a property of the batch that, if it is inferred, each sample gets what it gets alone. BatchInference derives that from the code of inferBatch for a backend that acts sample by sample and for batches of equal names, shapes and types, up to the layout tag, which slices do not carry; samples of equal byte size and different shapes are joined under the first one's shape.
- BatchTensors.ConcatOne: requires the joined size to fit 64 bits. The source multiplies unchecked and copies past its storage otherwise, and only then (BatchTensors.WrappedSizeFallsShort); inputs may share one storage, so callers have to keep from it. Host memory only.
- BatchTensors.ConcatBatchTensors: requires the same for every name.
- BatchPipeline.RunInferBatch: the backend is a function of what the batch shows, and its outputs are put into buffers of their own; a backend whose outputs share storage with its inputs is not covered.
- The stream dispatcher has no bound on the steps until a task runs: that depends on how many subscribers the tasks before it call. Tasks run in posting order (StreamTheorems.ShutdownDrainsTheQueue).
- Preprocess.Normalize: real arithmetic, no floating-point rounding. Frames.RoundHalfToEven: real arithmetic, exact for sizes below 2^53.
- OpenCV decoding, resizing and blur, TensorRT, OpenVINO, CUDA, MVS and plugin loading: foreign code; a backend is a total function.
- Parameter, command and state endpoints, and the order of state snapshots across concurrent publishers: their deliveries only take part as other tasks in the dispatcher's queue.
- Session start-up and its roll-back, the duration timer as a clock (its stop request is one of the stop requests), summaries' text and metrics.
- SessionController and VisionService, whose guarantees depend on thread timing; JSON, profiles, model packages, logging, CSV, user interface, samples and build code.
