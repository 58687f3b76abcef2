/** Pieces the executors share: the completion dispatcher's thread, the waiting thread, stage queues. */
module ExecutorParts {
  import opened Core
  import opened Stages
  import opened Tasks
  import opened BoundedFifo

  /** What the preprocessing thread passes on. Tasks are numbered from 0 in the order they were accepted. */
  datatype PreprocessedTask = PreprocessedTask(id: nat, prepared: Result<Prepared>)

  datatype PreprocessThread =
    | PreWaiting
    | PreTaken(id: nat)
    | PreCheck(id: nat)
    | PreAcquire(id: nat)
    | PreRun(id: nat)
    | PreRecheck(id: nat, prepared: Result<Prepared>)
    | PrePush(id: nat, prepared: Result<Prepared>)
    | PreClose
    | PreDone

  ghost predicate PreHolds(t: PreprocessThread) { !t.PreWaiting? && !t.PreClose? && !t.PreDone? }

  datatype Completion = Completion(id: nat, result: Result<Answer>)

  datatype DispatcherThread =
    | DispPop
    | DispStore(id: nat, result: Result<Answer>)
    | DispPromise(id: nat, result: Result<Answer>)
    | DispCallback
    | DispDone

  /** The thread that calls `wait`. */
  datatype Waiter = NotWaiting | JoiningStages | JoiningDispatcher | WaitReturned

  ghost predicate DispHolds(t: DispatcherThread) { t.DispStore? || t.DispPromise? }

  ghost function PreHand(t: PreprocessThread): seq<nat> { if PreHolds(t) then [t.id] else [] }

  ghost function DispHand(t: DispatcherThread): seq<nat> { if DispHolds(t) then [t.id] else [] }

  ghost function PreparedIds(q: seq<PreprocessedTask>): (r: seq<nat>)
    ensures |r| == |q| && forall i :: 0 <= i < |q| ==> r[i] == q[i].id
  {
    seq(|q|, i requires 0 <= i < |q| => q[i].id)
  }

  ghost function CompletionIds(q: seq<Completion>): (r: seq<nat>)
    ensures |r| == |q| && forall i :: 0 <= i < |q| ==> r[i] == q[i].id
  {
    seq(|q|, i requires 0 <= i < |q| => q[i].id)
  }

  /**
    What preprocessing makes of a packet that is not cancelled; if the pool can be exhausted, a packet
    that needs a slot may be told so.
   */
  ghost predicate Gives(st: Stages, poolIsEnough: bool, p: Packet, prepared: Result<Prepared>) {
    prepared == st.preprocess(p) || (prepared == PoolExhausted() && st.acquires(p) && !poolIsEnough)
  }

  ghost function One(b: bool): nat { if b then 1 else 0 }

  ghost function Upto(n: nat): (r: seq<nat>)
    ensures |r| == n && forall i :: 0 <= i < n ==> r[i] == i
  {
    seq(n, i => i)
  }

  /** A blocking push goes ahead once there is room; on a closed or slotless queue it gives up. */
  predicate PushReturns<T>(q: Fifo<T>) { q.CanPush() || q.closed || q.capacity == 0 }

  function PushOrDrop<T>(q: Fifo<T>, x: T): Fifo<T> { if q.CanPush() then q.Push(x) else q }

  /** An immediate stop sets the flag of every task still in the entry queue. */
  ghost function CancelQueued(tasks: seq<Task<Answer>>, entry: seq<nat>): seq<Task<Answer>> {
    seq(|tasks|, i requires 0 <= i < |tasks| => if i in entry then RequestCancellation(tasks[i]) else tasks[i])
  }

  // ---------------------------------------------------------------- work left, for the drain proofs

  /** Steps of the preprocessing thread with its task, where a queued task still needs `queued` steps. */
  ghost function PreWork(t: PreprocessThread, queued: nat): nat {
    match t
    case PreWaiting => 2
    case PreTaken(_) => queued + 8
    case PreCheck(_) => queued + 7
    case PreAcquire(_) => queued + 6
    case PreRun(_) => queued + 5
    case PreRecheck(_, _) => queued + 4
    case PrePush(_, _) => queued + 3
    case PreClose => 1
    case PreDone => 0
  }

  ghost function DispWork(t: DispatcherThread): nat {
    match t
    case DispPop => 1
    case DispStore(_, _) => 4
    case DispPromise(_, _) => 3
    case DispCallback => 2
    case DispDone => 0
  }

  ghost function WaiterWork(t: Waiter): nat {
    match t
    case NotWaiting => 2
    case JoiningStages => 2
    case JoiningDispatcher => 1
    case WaitReturned => 0
  }

  lemma IntervalCard(xs: set<nat>, low: nat, high: nat)
    requires low <= high
    requires forall x :: x in xs ==> low <= x < high
    ensures |xs| <= high - low
    decreases high - low
  {
    if low == high {
      assert xs == {};
    } else {
      IntervalCard(xs - {high - 1}, low, high - 1);
      if high - 1 in xs {
        assert xs == (xs - {high - 1}) + {high - 1};
      } else {
        assert xs == xs - {high - 1};
      }
    }
  }
}
