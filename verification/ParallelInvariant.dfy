/** What every step of the parallel executor keeps. */
module ParallelInvariant {
  import opened Core
  import opened Stages
  import opened Tasks
  import opened BoundedFifo
  import opened ExecutorParts
  import opened ParallelExecutor

  // ---------------------------------------------------------------- where the tasks are

  ghost predicate InfHolds(t: InferenceThread) { t.InfCheck? || t.InfRun? || t.InfRecheck? || t.InfPush? }
  ghost predicate PostHolds(t: PostprocessThread) { t.PostCheck? || t.PostRun? || t.PostRecheck? || t.PostDispatch? }

  // The number of tasks that are past each place, counted from the delivery end.
  ghost function PastDisp(s: State): nat { |s.delivered| }
  ghost function PastCompletions(s: State): nat { PastDisp(s) + One(DispHolds(s.disp)) }
  ghost function PastPost(s: State): nat { PastCompletions(s) + |s.completions.items| }
  ghost function PastInfQueue(s: State): nat { PastPost(s) + One(PostHolds(s.post)) }
  ghost function PastInf(s: State): nat { PastInfQueue(s) + |s.inferenceQueue.items| }
  ghost function PastPreQueue(s: State): nat { PastInf(s) + One(InfHolds(s.inf)) }
  ghost function PastPre(s: State): nat { PastPreQueue(s) + |s.preprocessQueue.items| }
  ghost function PastEntry(s: State): nat { PastPre(s) + One(PreHolds(s.pre)) }

  /** Read from the delivery end back to the entry queue, the tasks are 0, 1, 2, ... without a gap. */
  ghost predicate OrderInv(s: State) {
    && |s.packets| == |s.tasks| == PastEntry(s) + |s.entry|
    && (forall i :: 0 <= i < |s.delivered| ==> s.delivered[i] == i)
    && (DispHolds(s.disp) ==> s.disp.id == PastDisp(s))
    && (forall i :: 0 <= i < |s.completions.items| ==> s.completions.items[i].id == PastCompletions(s) + i)
    && (PostHolds(s.post) ==> s.post.id == PastPost(s))
    && (forall i :: 0 <= i < |s.inferenceQueue.items| ==> s.inferenceQueue.items[i].id == PastInfQueue(s) + i)
    && (InfHolds(s.inf) ==> s.inf.id == PastInf(s))
    && (forall i :: 0 <= i < |s.preprocessQueue.items| ==> s.preprocessQueue.items[i].id == PastPreQueue(s) + i)
    && (PreHolds(s.pre) ==> s.pre.id == PastPre(s))
    && (forall i :: 0 <= i < |s.entry| ==> s.entry[i] == PastEntry(s) + i)
  }

  /** Queues are bounded, are closed by the thread that fills them when it ends, and threads end in order. */
  ghost predicate ControlInv(c: Config, s: State) {
    && s.preprocessQueue.capacity == s.inferenceQueue.capacity == s.completions.capacity == c.stageQueueCapacity
    && |s.preprocessQueue.items| <= c.stageQueueCapacity
    && |s.inferenceQueue.items| <= c.stageQueueCapacity
    && |s.completions.items| <= c.stageQueueCapacity
    && |s.entry| <= c.queueCapacity
    && (|s.tasks| > 0 || |s.blocked| > 0 ==> c.queueCapacity > 0 && c.stageQueueCapacity > 0)
    && s.accepting == !s.stopRequested
    && (s.immediateStop ==> s.stopRequested)
    && (s.pre.PreClose? || s.pre.PreDone? ==> s.stopRequested && s.entry == [])
    && (s.preprocessQueue.closed <==> s.pre.PreDone?)
    && (s.inf.InfClose? || s.inf.InfDone? ==> s.preprocessQueue.Drained())
    && (s.inferenceQueue.closed <==> s.inf.InfDone?)
    && (s.post.PostDone? ==> s.inferenceQueue.Drained())
    && (s.completions.closed <==> s.waiter.JoiningDispatcher? || s.waiter.WaitReturned?)
    && (s.completions.closed ==> s.post.PostDone?)
    && (s.disp.DispDone? ==> s.completions.Drained())
    && (s.waiter.WaitReturned? ==> s.disp.DispDone?)
    && (!s.waiter.NotWaiting? ==> s.stopRequested)
  }

  // ---------------------------------------------------------------- what travels is right

  ghost predicate PoolIsEnough(c: Config) { c.poolSize >= c.stageQueueCapacity + 2 }

  /** Either what the stages give at this point, or a cancellation that is still in force. */
  ghost predicate Faithful<T>(s: State, id: nat, actual: Result<T>, serial: Result<T>) {
    actual == serial || (actual == CancelledResult<T>() && IsCancelled(s, id))
  }

  ghost predicate GivenOk(c: Config, s: State, id: nat, prepared: Result<Prepared>) {
    id < |s.packets| &&
    (Gives(c.stages, PoolIsEnough(c), s.packets[id], prepared) || (prepared == CancelledResult() && IsCancelled(s, id)))
  }

  /** The record is right; where the last check saw no cancellation, none is recorded either. */
  ghost predicate RecordInv(c: Config, s: State) {
    && |s.given| == PastPre(s) + One(s.pre.PrePush?) && |s.given| <= |s.packets| && |s.verdicts| <= |s.given|
    && (forall id :: 0 <= id < |s.given| ==> GivenOk(c, s, id, s.given[id]))
    && (forall id :: 0 <= id < |s.verdicts| && !s.verdicts[id] ==>
          Gives(c.stages, PoolIsEnough(c), s.packets[id], s.given[id]))
  }

  ghost predicate PreparedOk(s: State, id: nat, prepared: Result<Prepared>) {
    id < |s.given| && Faithful(s, id, prepared, s.given[id])
  }

  ghost predicate InferredOk(c: Config, s: State, id: nat, output: Result<Inferred>) {
    id < |s.given| && Faithful(s, id, output, InferNext(c.stages, s.given[id]))
  }

  /** What the remaining stages make of what preprocessing gave. */
  ghost function Outcome(c: Config, given: Result<Prepared>): Result<Answer> {
    PostprocessNext(c.stages, InferNext(c.stages, given))
  }

  ghost predicate AnswerOk(c: Config, s: State, id: nat, answer: Result<Answer>) {
    id < |s.given| && Faithful(s, id, answer, Outcome(c, s.given[id]))
  }

  ghost predicate PreHandOk(c: Config, s: State, t: PreprocessThread) {
    && (t.PreRecheck? ==> GivenOk(c, s, t.id, t.prepared))
    && (t.PrePush? ==> PreparedOk(s, t.id, t.prepared))
  }

  ghost predicate InfHandOk(c: Config, s: State, t: InferenceThread) {
    match t
    case InfCheck(id, prepared) => PreparedOk(s, id, prepared)
    case InfRun(id, input) => PreparedOk(s, id, Ok(input))
    case InfRecheck(id, output) => InferredOk(c, s, id, output)
    case InfPush(id, output) => InferredOk(c, s, id, output)
    case _ => true
  }

  ghost predicate PostHandOk(c: Config, s: State, t: PostprocessThread) {
    match t
    case PostCheck(id, output) => InferredOk(c, s, id, output)
    case PostRun(id, input) => InferredOk(c, s, id, Ok(input))
    case PostRecheck(id, result) => AnswerOk(c, s, id, result)
    case _ => true
  }

  ghost predicate PreparedQueueOk(s: State, items: seq<PreprocessedTask>) {
    forall i :: 0 <= i < |items| ==> PreparedOk(s, items[i].id, items[i].prepared)
  }

  ghost predicate InferredQueueOk(c: Config, s: State, items: seq<InferredTask>) {
    forall i :: 0 <= i < |items| ==> InferredOk(c, s, items[i].id, items[i].output)
  }

  ghost predicate FlowInv(c: Config, s: State) {
    && PreHandOk(c, s, s.pre)
    && PreparedQueueOk(s, s.preprocessQueue.items)
    && InfHandOk(c, s, s.inf)
    && InferredQueueOk(c, s, s.inferenceQueue.items)
    && PostHandOk(c, s, s.post)
  }

  /** What a decided task must be given: the verdict of its last check settles it. */
  ghost function Decided(c: Config, s: State, id: nat): Result<Answer>
    requires id < |s.verdicts| && id < |s.given|
  {
    if s.verdicts[id] then CancelledResult() else Outcome(c, s.given[id])
  }

  ghost predicate DecidedOk(c: Config, s: State, id: nat, answer: Result<Answer>) {
    id < |s.given| && id < |s.verdicts| && answer == Decided(c, s, id)
  }

  ghost predicate CompletionsOk(c: Config, s: State, items: seq<Completion>) {
    forall i :: 0 <= i < |items| ==> DecidedOk(c, s, items[i].id, items[i].result)
  }

  /** Verdicts are given in task order, and what is dispatched afterwards is what they decide. */
  ghost predicate VerdictInv(c: Config, s: State) {
    && |s.verdicts| == PastPost(s) + One(s.post.PostDispatch?)
    && (s.post.PostDispatch? ==> DecidedOk(c, s, s.post.id, s.post.result))
    && CompletionsOk(c, s, s.completions.items)
    && (DispHolds(s.disp) ==> DecidedOk(c, s, s.disp.id, s.disp.result))
    && (forall id :: 0 <= id < |s.verdicts| && s.verdicts[id] ==> IsCancelled(s, id))
  }

  /** Tasks that the preprocessing thread has marked running. */
  ghost function Started(s: State): int { |s.tasks| - |s.entry| - One(s.pre.PreTaken?) }

  /** A task's promise is set exactly when it is delivered, to its decided answer; its state follows. */
  ghost predicate OneTaskInv(c: Config, s: State, id: nat, t: Task<Answer>) {
    if id < |s.delivered| then
      id < |s.given| && id < |s.verdicts| &&
      t.promise == Some(Decided(c, s, id)) && t.state == TerminalFor(Decided(c, s, id))
    else
      && t.promise == None
      && t.state == if s.disp.DispPromise? && id == |s.delivered| then TerminalFor(s.disp.result)
                    else if id < Started(s) then Running
                    else Queued
  }

  ghost predicate TaskInv(c: Config, s: State) {
    forall id :: 0 <= id < |s.tasks| ==> OneTaskInv(c, s, id, s.tasks[id])
  }

  // ---------------------------------------------------------------- the tensor pool

  /** Only the inference thread's task, the preprocessed queue and the preprocessing thread's task hold slots. */
  ghost predicate LeaseInv(s: State) {
    && (forall id :: id in s.leased ==> PastInf(s) <= id < PastEntry(s))
    && (s.pre.PreTaken? || s.pre.PreCheck? || s.pre.PreAcquire? ==> s.pre.id !in s.leased)
  }

  /** The promise of a task is set exactly when it has been delivered. */
  ghost predicate PromiseInv(s: State) {
    forall id :: 0 <= id < |s.tasks| ==> (s.tasks[id].promise.Some? <==> id < |s.delivered|)
  }

  /** Where every task is, and what the threads may do. */
  ghost predicate PlacesInv(c: Config, s: State) {
    && OrderInv(s)
    && ControlInv(c, s)
    && LeaseInv(s)
    && PromiseInv(s)
  }

  ghost predicate Inv(c: Config, s: State) {
    && PlacesInv(c, s)
    && RecordInv(c, s)
    && FlowInv(c, s)
    && VerdictInv(c, s)
    && TaskInv(c, s)
  }

  /** Whenever preprocessing asks the pool for a slot, one is free. */
  lemma SlotIsFree(c: Config, s: State)
    requires PoolIsEnough(c) && PlacesInv(c, s) && s.pre.PreAcquire?
    ensures |s.leased| < c.poolSize
  {
    IntervalCard(s.leased, PastInf(s), PastPre(s));
  }

  lemma InitInv(c: Config)
    ensures Inv(c, Init(c))
  {
  }

  /** Submitting, stopping, cancelling, calling wait, waking a submitter, and the waiter's joins. */
  predicate Outside(a: Action) {
    a.Submit? || a.RequestStop? || a.Cancel? || a.StartWait? || a.WakeSubmitter? || a.WaiterStep?
  }

  // ---------------------------------------------------------------- order

  /** `t` has every task where `s` has it. */
  ghost predicate SamePlaces(s: State, t: State) {
    && |t.packets| == |s.packets| && |t.tasks| == |s.tasks|
    && t.entry == s.entry && t.delivered == s.delivered
    && t.preprocessQueue.items == s.preprocessQueue.items
    && t.inferenceQueue.items == s.inferenceQueue.items
    && t.completions.items == s.completions.items
    && PreHolds(t.pre) == PreHolds(s.pre) && (PreHolds(s.pre) ==> t.pre.id == s.pre.id)
    && InfHolds(t.inf) == InfHolds(s.inf) && (InfHolds(s.inf) ==> t.inf.id == s.inf.id)
    && PostHolds(t.post) == PostHolds(s.post) && (PostHolds(s.post) ==> t.post.id == s.post.id)
    && DispHolds(t.disp) == DispHolds(s.disp) && (DispHolds(s.disp) ==> t.disp.id == s.disp.id)
  }

  lemma SamePlacesKeepOrder(s: State, t: State)
    requires OrderInv(s) && SamePlaces(s, t)
    ensures OrderInv(t)
  {
  }

  /** What a step of the preprocessing thread may change. */
  ghost predicate OnlyPreSide(s: State, t: State) {
    && t == s.(pre := t.pre, entry := t.entry, tasks := t.tasks, leased := t.leased,
               preprocessQueue := t.preprocessQueue, given := t.given, calls := t.calls, seen := t.seen)
    && |t.tasks| == |s.tasks| && s.given <= t.given && s.calls <= t.calls && s.seen <= t.seen
    && forall id :: 0 <= id < |s.tasks| ==> SameFlags(s.tasks[id], t.tasks[id])
  }

  lemma PreTouches(c: Config, s: State)
    requires PreReady(s)
    ensures OnlyPreSide(s, PreNext(c, s))
  {
    if s.pre.PreWaiting? || s.pre.PreTaken? || s.pre.PreCheck? {
      PreStartTouches(c, s);
    } else if s.pre.PreAcquire? || s.pre.PreRun? {
      PreCallTouches(c, s);
    } else {
      PreEndTouches(c, s);
    }
  }

  lemma PreStartTouches(c: Config, s: State)
    requires PreReady(s) && (s.pre.PreWaiting? || s.pre.PreTaken? || s.pre.PreCheck?)
    ensures OnlyPreSide(s, PreNext(c, s))
  {
  }

  lemma PreCallTouches(c: Config, s: State)
    requires PreReady(s) && (s.pre.PreAcquire? || s.pre.PreRun?)
    ensures OnlyPreSide(s, PreNext(c, s))
  {
  }

  lemma PreEndTouches(c: Config, s: State)
    requires PreReady(s) && (s.pre.PreRecheck? || s.pre.PrePush? || s.pre.PreClose?)
    ensures OnlyPreSide(s, PreNext(c, s))
  {
  }

  /** What the steps between taking a task and passing it on leave as it is. */
  ghost predicate StaysInHand(s: State, t: State) {
    && SamePlaces(s, t) && t.preprocessQueue == s.preprocessQueue && !t.pre.PreClose? && !t.pre.PreDone?
    && PreWork(t.pre, 14) < PreWork(s.pre, 14)
  }

  lemma PreStaysInPlace(c: Config, s: State)
    requires PreReady(s) && !s.pre.PreWaiting? && !s.pre.PrePush? && !s.pre.PreClose?
    ensures StaysInHand(s, PreNext(c, s))
  {
    if s.pre.PreTaken? || s.pre.PreCheck? || s.pre.PreAcquire? {
      PreStaysBeforeTheCall(c, s);
    } else {
      PreStaysAfterTheCall(c, s);
    }
  }

  lemma PreStaysBeforeTheCall(c: Config, s: State)
    requires PreReady(s) && (s.pre.PreTaken? || s.pre.PreCheck? || s.pre.PreAcquire?)
    ensures StaysInHand(s, PreNext(c, s))
  {
    PreTouches(c, s);
    match s.pre
    case PreTaken(_) =>
    case PreCheck(_) =>
    case PreAcquire(_) =>
  }

  lemma PreStaysAfterTheCall(c: Config, s: State)
    requires PreReady(s) && (s.pre.PreRun? || s.pre.PreRecheck?)
    ensures StaysInHand(s, PreNext(c, s))
  {
    PreTouches(c, s);
    match s.pre
    case PreRun(_) =>
    case PreRecheck(_, _) =>
  }

  lemma PreKeepsOrder(c: Config, s: State)
    requires OrderInv(s) && ControlInv(c, s) && PreReady(s)
    ensures OrderInv(PreNext(c, s))
  {
    if !s.pre.PreWaiting? && !s.pre.PrePush? && !s.pre.PreClose? {
      PreStaysInPlace(c, s);
      SamePlacesKeepOrder(s, PreNext(c, s));
    } else {
      PreMoveKeepsOrder(c, s);
    }
  }

  lemma PreMoveKeepsOrder(c: Config, s: State)
    requires OrderInv(s) && ControlInv(c, s) && PreReady(s)
    requires s.pre.PreWaiting? || s.pre.PrePush? || s.pre.PreClose?
    ensures OrderInv(PreNext(c, s))
  {
    match s.pre
    case PreWaiting =>
    case PrePush(_, _) =>
    case PreClose =>
  }

  lemma InfKeepsOrder(c: Config, s: State)
    requires OrderInv(s) && ControlInv(c, s) && InfReady(s)
    ensures OrderInv(InfNext(c, s))
  {
    if !s.inf.InfPop? && !s.inf.InfPush? {
      SamePlacesKeepOrder(s, InfNext(c, s));
    } else {
      InfMoveKeepsOrder(c, s);
    }
  }

  lemma InfMoveKeepsOrder(c: Config, s: State)
    requires OrderInv(s) && ControlInv(c, s) && InfReady(s) && (s.inf.InfPop? || s.inf.InfPush?)
    ensures OrderInv(InfNext(c, s))
  {
    match s.inf
    case InfPop =>
    case InfPush(_, _) =>
  }

  lemma PostKeepsOrder(c: Config, s: State)
    requires OrderInv(s) && ControlInv(c, s) && PostReady(s)
    ensures OrderInv(PostNext(c, s))
  {
    if !s.post.PostPop? && !s.post.PostDispatch? {
      SamePlacesKeepOrder(s, PostNext(c, s));
    } else {
      PostMoveKeepsOrder(c, s);
    }
  }

  lemma PostMoveKeepsOrder(c: Config, s: State)
    requires OrderInv(s) && ControlInv(c, s) && PostReady(s) && (s.post.PostPop? || s.post.PostDispatch?)
    ensures OrderInv(PostNext(c, s))
  {
    match s.post
    case PostPop =>
    case PostDispatch(_, _) =>
  }

  lemma DispKeepsOrder(c: Config, s: State)
    requires OrderInv(s) && ControlInv(c, s) && DispReady(s)
    ensures OrderInv(DispNext(s))
  {
    if s.disp.DispPop? {
      DispPopKeepsOrder(c, s);
    } else {
      DispRestKeepsOrder(c, s);
    }
  }

  lemma DispPopKeepsOrder(c: Config, s: State)
    requires OrderInv(s) && ControlInv(c, s) && DispReady(s) && s.disp.DispPop?
    ensures OrderInv(DispNext(s))
  {
  }

  lemma DispRestKeepsOrder(c: Config, s: State)
    requires OrderInv(s) && ControlInv(c, s) && DispReady(s) && !s.disp.DispPop?
    ensures OrderInv(DispNext(s))
  {
  }

  // ---------------------------------------------------------------- flow

  /** Packets and cancellations are never taken back. */
  ghost predicate Later(s: State, t: State) {
    && |s.packets| <= |t.packets|
    && (forall i :: 0 <= i < |s.packets| ==> t.packets[i] == s.packets[i])
    && s.given <= t.given
    && (forall id :: IsCancelled(s, id) ==> IsCancelled(t, id))
  }

  lemma PreHandLater(c: Config, s: State, t: State, h: PreprocessThread)
    requires Later(s, t) && PreHandOk(c, s, h)
    ensures PreHandOk(c, t, h)
  {
  }

  lemma PreparedQueueLater(s: State, t: State, items: seq<PreprocessedTask>)
    requires Later(s, t) && PreparedQueueOk(s, items)
    ensures PreparedQueueOk(t, items)
  {
  }

  lemma InfHandLater(c: Config, s: State, t: State, h: InferenceThread)
    requires Later(s, t) && InfHandOk(c, s, h)
    ensures InfHandOk(c, t, h)
  {
  }

  lemma InferredQueueLater(c: Config, s: State, t: State, items: seq<InferredTask>)
    requires Later(s, t) && InferredQueueOk(c, s, items)
    ensures InferredQueueOk(c, t, items)
  {
  }

  lemma PostHandLater(c: Config, s: State, t: State, h: PostprocessThread)
    requires Later(s, t) && PostHandOk(c, s, h)
    ensures PostHandOk(c, t, h)
  {
  }

  /** Everything that travels in `s` is still right in a later state. */
  lemma FlowLater(c: Config, s: State, t: State)
    requires Later(s, t) && FlowInv(c, s)
    ensures PreHandOk(c, t, s.pre) && PreparedQueueOk(t, s.preprocessQueue.items)
    ensures InfHandOk(c, t, s.inf) && InferredQueueOk(c, t, s.inferenceQueue.items)
    ensures PostHandOk(c, t, s.post)
  {
    PreHandLater(c, s, t, s.pre);
    PreparedQueueLater(s, t, s.preprocessQueue.items);
    InfHandLater(c, s, t, s.inf);
    InferredQueueLater(c, s, t, s.inferenceQueue.items);
    PostHandLater(c, s, t, s.post);
  }

  lemma PreIsLater(c: Config, s: State)
    requires PreReady(s)
    ensures Later(s, PreNext(c, s))
  {
    PreTouches(c, s);
  }

  lemma PreKeepsItsHand(c: Config, s: State)
    requires PreReady(s) && PreHandOk(c, s, s.pre)
    requires s.pre.PreAcquire? && |s.leased| >= c.poolSize ==> !PoolIsEnough(c)
    requires s.pre.PreRecheck? ==> s.pre.id == |s.given|
    requires PreHolds(s.pre) ==> s.pre.id < |s.packets|
    ensures PreHandOk(c, PreNext(c, s), PreNext(c, s).pre)
  {
    if s.pre.PreAcquire? || s.pre.PreRun? || s.pre.PreRecheck? {
      PreCallKeepsItsHand(c, s);
    } else {
      PreMoveKeepsItsHand(c, s);
    }
  }

  lemma PreCallKeepsItsHand(c: Config, s: State)
    requires PreReady(s) && PreHandOk(c, s, s.pre) && (s.pre.PreAcquire? || s.pre.PreRun? || s.pre.PreRecheck?)
    requires s.pre.PreAcquire? && |s.leased| >= c.poolSize ==> !PoolIsEnough(c)
    requires s.pre.PreRecheck? ==> s.pre.id == |s.given|
    requires s.pre.id < |s.packets|
    ensures PreHandOk(c, PreNext(c, s), PreNext(c, s).pre)
  {
  }

  lemma PreMoveKeepsItsHand(c: Config, s: State)
    requires PreReady(s) && PreHandOk(c, s, s.pre) && !(s.pre.PreAcquire? || s.pre.PreRun? || s.pre.PreRecheck?)
    requires PreHolds(s.pre) ==> s.pre.id < |s.packets|
    ensures PreHandOk(c, PreNext(c, s), PreNext(c, s).pre)
  {
  }

  lemma PreKeepsFlow(c: Config, s: State)
    requires PlacesInv(c, s) && RecordInv(c, s) && FlowInv(c, s) && PreReady(s)
    ensures FlowInv(c, PreNext(c, s))
  {
    if s.pre.PreAcquire? && PoolIsEnough(c) { SlotIsFree(c, s); }
    PreIsLater(c, s);
    FlowLater(c, s, PreNext(c, s));
    PreKeepsItsHand(c, s);
  }

  lemma InfIsLater(c: Config, s: State)
    requires InfReady(s)
    ensures Later(s, InfNext(c, s))
  {
  }

  lemma InfKeepsItsHand(c: Config, s: State)
    requires InfReady(s) && InfHandOk(c, s, s.inf) && PreparedQueueOk(s, s.preprocessQueue.items)
    ensures InfHandOk(c, InfNext(c, s), InfNext(c, s).inf)
  {
  }

  lemma InfKeepsFlow(c: Config, s: State)
    requires FlowInv(c, s) && InfReady(s)
    ensures FlowInv(c, InfNext(c, s))
  {
    InfIsLater(c, s);
    FlowLater(c, s, InfNext(c, s));
    InfKeepsItsHand(c, s);
  }

  lemma PostIsLater(c: Config, s: State)
    requires PostReady(s)
    ensures Later(s, PostNext(c, s))
  {
  }

  lemma PostKeepsItsHand(c: Config, s: State)
    requires PostReady(s) && PostHandOk(c, s, s.post) && InferredQueueOk(c, s, s.inferenceQueue.items)
    ensures PostHandOk(c, PostNext(c, s), PostNext(c, s).post)
  {
  }

  lemma PostKeepsFlow(c: Config, s: State)
    requires FlowInv(c, s) && PostReady(s)
    ensures FlowInv(c, PostNext(c, s))
  {
    PostIsLater(c, s);
    FlowLater(c, s, PostNext(c, s));
    PostKeepsItsHand(c, s);
  }

  lemma DispIsLater(s: State)
    requires DispReady(s)
    ensures Later(s, DispNext(s))
  {
  }

  lemma DispKeepsFlow(c: Config, s: State)
    requires FlowInv(c, s) && DispReady(s)
    ensures FlowInv(c, DispNext(s))
  {
    DispIsLater(s);
    FlowLater(c, s, DispNext(s));
  }

  // ---------------------------------------------------------------- control and leases

  lemma PreMoveKeepsControl(c: Config, s: State)
    requires OrderInv(s) && ControlInv(c, s) && PreReady(s)
    requires s.pre.PreWaiting? || s.pre.PrePush? || s.pre.PreClose?
    ensures ControlInv(c, PreNext(c, s))
  {
    match s.pre
    case PreWaiting =>
    case PrePush(_, _) =>
    case PreClose =>
  }

  lemma PreKeepsControl(c: Config, s: State)
    requires OrderInv(s) && ControlInv(c, s) && PreReady(s)
    ensures ControlInv(c, PreNext(c, s))
  {
    PreTouches(c, s);
    if s.pre.PreWaiting? || s.pre.PrePush? || s.pre.PreClose? {
      PreMoveKeepsControl(c, s);
    } else {
      PreStaysInPlace(c, s);
    }
  }

  lemma InfKeepsControl(c: Config, s: State)
    requires OrderInv(s) && ControlInv(c, s) && InfReady(s)
    ensures ControlInv(c, InfNext(c, s))
  {
  }

  lemma PostKeepsControl(c: Config, s: State)
    requires OrderInv(s) && ControlInv(c, s) && PostReady(s)
    ensures ControlInv(c, PostNext(c, s))
  {
  }

  lemma DispKeepsControl(c: Config, s: State)
    requires OrderInv(s) && ControlInv(c, s) && DispReady(s)
    ensures ControlInv(c, DispNext(s))
  {
  }

  lemma WaiterKeepsControl(c: Config, s: State)
    requires OrderInv(s) && ControlInv(c, s) && WaiterReady(s)
    ensures ControlInv(c, WaiterNext(s))
  {
  }

  lemma PreKeepsLeases(c: Config, s: State)
    requires PlacesInv(c, s) && PreReady(s)
    ensures LeaseInv(PreNext(c, s))
  {
    if s.pre.PreWaiting? || s.pre.PrePush? || s.pre.PreClose? {
      PreMoveKeepsLeases(c, s);
    } else if s.pre.PreAcquire? {
      PreAcquireKeepsLeases(c, s);
    } else if s.pre.PreRun? || s.pre.PreRecheck? {
      PreCallKeepsLeases(c, s);
    } else {
      PreLookKeepsLeases(c, s);
    }
  }

  lemma PreLookKeepsLeases(c: Config, s: State)
    requires PlacesInv(c, s) && PreReady(s)
    requires s.pre.PreTaken? || s.pre.PreCheck?
    ensures LeaseInv(PreNext(c, s))
  {
    PreStaysBeforeTheCall(c, s);
  }

  lemma PreAcquireKeepsLeases(c: Config, s: State)
    requires LeaseInv(s) && PreReady(s) && s.pre.PreAcquire? && s.pre.id == PastPre(s)
    ensures LeaseInv(PreNext(c, s))
  {
    var t := PreNext(c, s);
    PreStaysBeforeTheCall(c, s);
    assert PastInf(t) == PastInf(s) && PastEntry(t) == PastEntry(s);
    forall id | id in t.leased
      ensures PastInf(t) <= id < PastEntry(t)
    {
      assert id == s.pre.id || id in s.leased;
    }
  }

  lemma PreMoveKeepsLeases(c: Config, s: State)
    requires PlacesInv(c, s) && PreReady(s) && (s.pre.PreWaiting? || s.pre.PrePush? || s.pre.PreClose?)
    ensures LeaseInv(PreNext(c, s))
  {
  }

  lemma PreCallKeepsLeases(c: Config, s: State)
    requires LeaseInv(s) && PreReady(s) && (s.pre.PreRun? || s.pre.PreRecheck?) && s.pre.id == PastPre(s)
    ensures LeaseInv(PreNext(c, s))
  {
  }

  lemma InfKeepsLeases(c: Config, s: State)
    requires PlacesInv(c, s) && InfReady(s)
    ensures LeaseInv(InfNext(c, s))
  {
    if s.inf.InfPush? || s.inf.InfRun? {
      InfReleasesItsLease(c, s);
    } else {
      LeasesElsewhere(s, InfNext(c, s));
    }
  }

  lemma InfReleasesItsLease(c: Config, s: State)
    requires PlacesInv(c, s) && InfReady(s) && (s.inf.InfPush? || s.inf.InfRun?)
    ensures LeaseInv(InfNext(c, s))
  {
  }

  /** A step that moves no task across the leaseholders keeps the leases. */
  lemma LeasesElsewhere(s: State, t: State)
    requires LeaseInv(s) && t.leased == s.leased && t.pre == s.pre
    requires PastInf(t) == PastInf(s) && PastEntry(t) == PastEntry(s)
    ensures LeaseInv(t)
  {
  }

  lemma PostKeepsLeases(c: Config, s: State)
    requires PlacesInv(c, s) && PostReady(s)
    ensures LeaseInv(PostNext(c, s))
  {
    LeasesElsewhere(s, PostNext(c, s));
  }

  lemma DispKeepsLeases(c: Config, s: State)
    requires PlacesInv(c, s) && DispReady(s)
    ensures LeaseInv(DispNext(s))
  {
    LeasesElsewhere(s, DispNext(s));
  }

  lemma PreKeepsPromises(c: Config, s: State)
    requires PromiseInv(s) && PreReady(s)
    ensures PromiseInv(PreNext(c, s))
  {
    PreTouches(c, s);
  }

  lemma InfKeepsPromises(c: Config, s: State)
    requires PromiseInv(s) && InfReady(s)
    ensures PromiseInv(InfNext(c, s))
  {
  }

  lemma PostKeepsPromises(c: Config, s: State)
    requires PromiseInv(s) && PostReady(s)
    ensures PromiseInv(PostNext(c, s))
  {
  }

  lemma DispKeepsPromises(s: State)
    requires OrderInv(s) && PromiseInv(s) && DispReady(s)
    ensures PromiseInv(DispNext(s))
  {
  }

  lemma OutsideKeepsPromises(c: Config, s: State, a: Action)
    requires Outside(a) && OrderInv(s) && PromiseInv(s) && Enabled(c, s, a)
    ensures PromiseInv(Next(c, s, a))
  {
  }

  // ---------------------------------------------------------------- verdicts

  /** Verdicts and packets are never taken back, so what was decided stays decided. */
  ghost predicate Extends(s: State, t: State) {
    && |s.packets| <= |t.packets|
    && (forall i :: 0 <= i < |s.packets| ==> t.packets[i] == s.packets[i])
    && s.given <= t.given
    && |s.verdicts| <= |t.verdicts|
    && (forall i :: 0 <= i < |s.verdicts| ==> t.verdicts[i] == s.verdicts[i])
  }

  /** The steps of the other threads leave the verdicts alone. */
  lemma VerdictsLater(c: Config, s: State, t: State)
    requires VerdictInv(c, s) && Later(s, t)
    requires t.verdicts == s.verdicts && t.completions.items == s.completions.items
    requires t.post == s.post || (!s.post.PostDispatch? && !t.post.PostDispatch?)
    requires t.disp == s.disp && t.delivered == s.delivered
    ensures VerdictInv(c, t)
  {
  }

  lemma PreKeepsVerdicts(c: Config, s: State)
    requires VerdictInv(c, s) && PreReady(s)
    ensures VerdictInv(c, PreNext(c, s))
  {
    PreTouches(c, s);
    PreIsLater(c, s);
    VerdictsLater(c, s, PreNext(c, s));
  }

  lemma InfKeepsVerdicts(c: Config, s: State)
    requires VerdictInv(c, s) && InfReady(s)
    ensures VerdictInv(c, InfNext(c, s))
  {
    InfIsLater(c, s);
    VerdictsLater(c, s, InfNext(c, s));
  }

  lemma CompletionsLater(c: Config, s: State, t: State, items: seq<Completion>)
    requires Extends(s, t) && CompletionsOk(c, s, items)
    ensures CompletionsOk(c, t, items)
  {
  }

  lemma PostKeepsVerdicts(c: Config, s: State)
    requires OrderInv(s) && ControlInv(c, s) && FlowInv(c, s) && VerdictInv(c, s) && PostReady(s)
    ensures VerdictInv(c, PostNext(c, s))
  {
    if s.post.PostRecheck? {
      PostDecides(c, s);
    } else if s.post.PostDispatch? {
      PostHandsOver(c, s);
    } else {
      PostIsLater(c, s);
      VerdictsLater(c, s, PostNext(c, s));
    }
  }

  /** The last cancellation check fixes the verdict and the answer together. */
  lemma PostDecides(c: Config, s: State)
    requires OrderInv(s) && FlowInv(c, s) && VerdictInv(c, s) && s.post.PostRecheck?
    ensures VerdictInv(c, PostNext(c, s))
  {
    CompletionsLater(c, s, PostNext(c, s), s.completions.items);
  }

  lemma PostHandsOver(c: Config, s: State)
    requires ControlInv(c, s) && VerdictInv(c, s) && PostReady(s) && s.post.PostDispatch?
    requires c.stageQueueCapacity > 0
    ensures VerdictInv(c, PostNext(c, s))
  {
    CompletionsLater(c, s, PostNext(c, s), s.completions.items);
  }

  lemma DispKeepsVerdicts(c: Config, s: State)
    requires VerdictInv(c, s) && DispReady(s)
    ensures VerdictInv(c, DispNext(s))
  {
    DispIsLater(s);
    CompletionsLater(c, s, DispNext(s), s.completions.items);
    if s.disp.DispPop? { DispPopKeepsVerdicts(c, s); }
  }

  lemma DispPopKeepsVerdicts(c: Config, s: State)
    requires VerdictInv(c, s) && DispReady(s) && s.disp.DispPop?
    ensures VerdictInv(c, DispNext(s))
  {
    DispIsLater(s);
    if s.completions.items != [] {
      FirstIsOk(c, s, s.completions.items);
      CompletionsLater(c, s, DispNext(s), s.completions.items[1..]);
    }
  }

  lemma FirstIsOk(c: Config, s: State, items: seq<Completion>)
    requires CompletionsOk(c, s, items) && items != []
    ensures DecidedOk(c, s, items[0].id, items[0].result) && CompletionsOk(c, s, items[1..])
  {
  }

  // ---------------------------------------------------------------- the record of preprocessing

  /** The other threads and the outside world leave the record alone. */
  lemma RecordLater(c: Config, s: State, t: State)
    requires RecordInv(c, s) && Later(s, t) && t.given == s.given && t.verdicts == s.verdicts && t.pre == s.pre
    requires OrderInv(s) && OrderInv(t) && |t.packets| - |t.entry| == |s.packets| - |s.entry|
    ensures RecordInv(c, t)
  {
    GivenLater(c, s, t);
  }

  lemma GivenLater(c: Config, s: State, t: State)
    requires RecordInv(c, s) && Later(s, t)
    ensures forall id :: 0 <= id < |s.given| ==> GivenOk(c, t, id, t.given[id])
    ensures forall id :: 0 <= id < |s.verdicts| && !s.verdicts[id] ==>
              Gives(c.stages, PoolIsEnough(c), t.packets[id], t.given[id])
  {
    forall id | 0 <= id < |s.given|
      ensures GivenOk(c, t, id, t.given[id])
    {
      assert GivenOk(c, s, id, s.given[id]);
    }
    forall id | 0 <= id < |s.verdicts| && !s.verdicts[id]
      ensures Gives(c.stages, PoolIsEnough(c), t.packets[id], t.given[id])
    {
      assert Gives(c.stages, PoolIsEnough(c), s.packets[id], s.given[id]);
    }
  }

  /** The second check is where a result is recorded. */
  lemma PreRecords(c: Config, s: State)
    requires PreReady(s)
    ensures
      var t := PreNext(c, s);
      && t.packets == s.packets && t.verdicts == s.verdicts
      && (t.pre.PrePush? <==> s.pre.PreRecheck?)
      && (!s.pre.PreRecheck? ==> t.given == s.given)
      && (s.pre.PreRecheck? ==>
            t.given == s.given + [if IsCancelled(s, s.pre.id) then CancelledResult() else s.pre.prepared])
  {
    match s.pre
    case PreWaiting =>
    case PreTaken(_) =>
    case PreCheck(_) =>
    case PreAcquire(_) =>
    case PreRun(_) =>
    case PreRecheck(_, _) =>
    case PrePush(_, _) =>
    case PreClose =>
  }

  /** How many tasks have left preprocessing, counted from the front. */
  lemma PastPreFromTheFront(s: State)
    requires OrderInv(s)
    ensures PastPre(s) == |s.packets| - |s.entry| - One(PreHolds(s.pre))
  {
  }

  lemma PreKeepsRecordLength(c: Config, s: State)
    requires PreReady(s) && OrderInv(s) && OrderInv(PreNext(c, s)) && RecordInv(c, s)
    ensures |PreNext(c, s).given| == PastPre(PreNext(c, s)) + One(PreNext(c, s).pre.PrePush?)
  {
    PreRecords(c, s);
    PastPreFromTheFront(s);
    PastPreFromTheFront(PreNext(c, s));
    PreLine(c, s);
  }

  lemma PreLine(c: Config, s: State)
    requires PreReady(s)
    ensures
      var t := PreNext(c, s);
      |t.entry| + One(PreHolds(t.pre)) == |s.entry| + One(PreHolds(s.pre)) - One(s.pre.PrePush?)
  {
  }

  lemma PreKeepsRecord(c: Config, s: State)
    requires PreReady(s) && PlacesInv(c, s) && OrderInv(PreNext(c, s)) && RecordInv(c, s) && FlowInv(c, s)
    ensures RecordInv(c, PreNext(c, s))
  {
    var t := PreNext(c, s);
    PreIsLater(c, s);
    PreRecords(c, s);
    PreKeepsRecordLength(c, s);
    GivenLater(c, s, t);
    if s.pre.PreRecheck? {
      assert t.given[|s.given|] == if IsCancelled(s, s.pre.id) then CancelledResult() else s.pre.prepared;
    }
  }

  lemma PostKeepsRecord(c: Config, s: State)
    requires PostReady(s) && PlacesInv(c, s) && OrderInv(PostNext(c, s)) && RecordInv(c, s) && VerdictInv(c, s)
    ensures RecordInv(c, PostNext(c, s))
  {
    PostIsLater(c, s);
    PastPreFromTheFront(s);
    PastPreFromTheFront(PostNext(c, s));
    if s.post.PostRecheck? {
      PostDecidesRecord(c, s);
    } else {
      RecordLater(c, s, PostNext(c, s));
    }
  }

  lemma PostDecidesRecord(c: Config, s: State)
    requires OrderInv(s) && RecordInv(c, s) && VerdictInv(c, s) && s.post.PostRecheck?
    ensures RecordInv(c, PostNext(c, s))
  {
    assert GivenOk(c, s, s.post.id, s.given[s.post.id]);
    PostIsLater(c, s);
    GivenLater(c, s, PostNext(c, s));
  }

  // ---------------------------------------------------------------- task states

  /** A step that leaves tasks, deliveries and the dispatcher alone. */
  lemma TasksLater(c: Config, s: State, t: State)
    requires TaskInv(c, s) && Extends(s, t) && |t.packets| == |s.packets|
    requires t.tasks == s.tasks && t.delivered == s.delivered && Started(t) == Started(s)
    requires t.disp == s.disp || (!t.disp.DispPromise? && !s.disp.DispPromise?)
    ensures TaskInv(c, t)
  {
    forall id | 0 <= id < |t.tasks|
      ensures OneTaskInv(c, t, id, t.tasks[id])
    {
      assert OneTaskInv(c, s, id, s.tasks[id]);
    }
  }

  lemma PreKeepsTasks(c: Config, s: State)
    requires OrderInv(s) && TaskInv(c, s) && PreReady(s)
    ensures TaskInv(c, PreNext(c, s))
  {
    if s.pre.PreTaken? {
      PreMarksRunning(c, s);
    } else {
      PreTouchesNoTask(c, s);
      TasksLater(c, s, PreNext(c, s));
    }
  }

  lemma PreStarts(c: Config, s: State)
    requires PreReady(s) && !s.pre.PreTaken?
    ensures
      var t := PreNext(c, s);
      t.tasks == s.tasks && |t.entry| + One(t.pre.PreTaken?) == |s.entry|
  {
    if s.pre.PreAcquire? || s.pre.PreRun? || s.pre.PreRecheck? {
      PreCallStarts(c, s);
    }
  }

  lemma PreCallStarts(c: Config, s: State)
    requires PreReady(s) && (s.pre.PreAcquire? || s.pre.PreRun? || s.pre.PreRecheck?)
    ensures
      var t := PreNext(c, s);
      t.tasks == s.tasks && t.entry == s.entry && !t.pre.PreTaken?
  {
  }

  lemma PreTouchesNoTask(c: Config, s: State)
    requires PreReady(s) && !s.pre.PreTaken?
    ensures
      var t := PreNext(c, s);
      && t.packets == s.packets && t.verdicts == s.verdicts && t.tasks == s.tasks
      && t.delivered == s.delivered && t.disp == s.disp && Started(t) == Started(s)
  {
    PreTouches(c, s);
    PreStarts(c, s);
  }

  lemma PreMarksRunning(c: Config, s: State)
    requires OrderInv(s) && TaskInv(c, s) && PreReady(s) && s.pre.PreTaken?
    ensures TaskInv(c, PreNext(c, s))
  {
    var t := PreNext(c, s);
    forall id | 0 <= id < |t.tasks|
      ensures OneTaskInv(c, t, id, t.tasks[id])
    {
      assert OneTaskInv(c, s, id, s.tasks[id]);
    }
  }

  lemma InfKeepsTasks(c: Config, s: State)
    requires TaskInv(c, s) && InfReady(s)
    ensures TaskInv(c, InfNext(c, s))
  {
    TasksLater(c, s, InfNext(c, s));
  }

  lemma PostKeepsTasks(c: Config, s: State)
    requires TaskInv(c, s) && PostReady(s)
    ensures TaskInv(c, PostNext(c, s))
  {
    TasksLater(c, s, PostNext(c, s));
  }

  lemma DispKeepsTasks(c: Config, s: State)
    requires OrderInv(s) && VerdictInv(c, s) && TaskInv(c, s) && DispReady(s)
    ensures TaskInv(c, DispNext(s))
  {
    if s.disp.DispPop? || s.disp.DispCallback? {
      TasksLater(c, s, DispNext(s));
    } else {
      DispCompletes(c, s);
    }
  }

  /** The dispatcher stores the terminal state and then sets the promise, once. */
  lemma DispCompletes(c: Config, s: State)
    requires OrderInv(s) && VerdictInv(c, s) && TaskInv(c, s) && DispReady(s) && DispHolds(s.disp)
    ensures TaskInv(c, DispNext(s))
  {
    var t := DispNext(s);
    forall id | 0 <= id < |t.tasks|
      ensures OneTaskInv(c, t, id, t.tasks[id])
    {
      assert OneTaskInv(c, s, id, s.tasks[id]);
    }
  }

  // ---------------------------------------------------------------- the outside world

  lemma OutsideIsLater(c: Config, s: State, a: Action)
    requires Outside(a) && Enabled(c, s, a) && |s.packets| == |s.tasks|
    ensures Later(s, Next(c, s, a)) && Extends(s, Next(c, s, a))
  {
  }

  lemma OutsideKeepsOrder(c: Config, s: State, a: Action)
    requires Outside(a) && Enabled(c, s, a) && OrderInv(s)
    ensures OrderInv(Next(c, s, a))
  {
    if a.Submit? {
      SubmitKeepsOrder(c, s, a.packet);
    } else if a.WakeSubmitter? {
      WakeKeepsOrder(s, a.which);
    } else {
      SamePlacesKeepOrder(s, Next(c, s, a));
    }
  }

  lemma SubmitKeepsOrder(c: Config, s: State, p: Packet)
    requires OrderInv(s)
    ensures OrderInv(SubmitNext(c, s, p))
  {
    AcceptKeepsOrder(s, p);
    SamePlacesKeepOrder(s, s.(blocked := s.blocked + [p]));
  }

  lemma WakeKeepsOrder(s: State, k: nat)
    requires OrderInv(s) && k < |s.blocked|
    ensures OrderInv(WakeNext(s, k))
  {
    var rest := s.(blocked := s.blocked[..k] + s.blocked[k + 1..]);
    SamePlacesKeepOrder(s, rest);
    AcceptKeepsOrder(rest, s.blocked[k]);
  }

  lemma AcceptKeepsOrder(s: State, p: Packet)
    requires OrderInv(s)
    ensures OrderInv(Accept(s, p))
  {
  }

  lemma OutsideKeepsControl(c: Config, s: State, a: Action)
    requires Outside(a) && Enabled(c, s, a) && OrderInv(s) && ControlInv(c, s)
    ensures ControlInv(c, Next(c, s, a))
  {
    if a.WaiterStep? { WaiterKeepsControl(c, s); }
  }

  lemma OutsideKeepsPlaces(c: Config, s: State, a: Action)
    requires Outside(a) && Enabled(c, s, a) && PlacesInv(c, s)
    ensures PlacesInv(c, Next(c, s, a))
  {
    OutsideKeepsControl(c, s, a);
    OutsideKeepsPromises(c, s, a);
    OutsideKeepsOrder(c, s, a);
    OutsideTouchesNoLease(c, s, a);
    LeasesElsewhere(s, Next(c, s, a));
  }

  lemma OutsideTouchesNoLease(c: Config, s: State, a: Action)
    requires Outside(a) && Enabled(c, s, a)
    ensures
      var t := Next(c, s, a);
      t.leased == s.leased && t.pre == s.pre && PastInf(t) == PastInf(s) && PastEntry(t) == PastEntry(s)
  {
    match a
    case Submit(_) =>
    case RequestStop(_) =>
    case Cancel(_) =>
    case StartWait =>
    case WakeSubmitter(_) =>
    case WaiterStep =>
    case _ =>
  }

  lemma AcceptKeepsTasks(c: Config, s: State, p: Packet)
    requires OrderInv(s) && TaskInv(c, s)
    ensures TaskInv(c, Accept(s, p))
  {
    var t := Accept(s, p);
    forall id | 0 <= id < |t.tasks|
      ensures OneTaskInv(c, t, id, t.tasks[id])
    {
      if id < |s.tasks| {
        assert OneTaskInv(c, s, id, s.tasks[id]);
      }
    }
  }

  lemma OutsideKeepsTasks(c: Config, s: State, a: Action)
    requires Outside(a) && Enabled(c, s, a) && OrderInv(s) && TaskInv(c, s)
    ensures TaskInv(c, Next(c, s, a))
  {
    if a.Submit? {
      SubmitKeepsTasks(c, s, a.packet);
    } else if a.WakeSubmitter? {
      WakeKeepsTasks(c, s, a.which);
    } else if a.WaiterStep? {
      TasksLater(c, s, WaiterNext(s));
    } else {
      FlagsKeepTasks(c, s, a);
    }
  }

  lemma SubmitKeepsTasks(c: Config, s: State, p: Packet)
    requires OrderInv(s) && TaskInv(c, s)
    ensures TaskInv(c, SubmitNext(c, s, p))
  {
    AcceptKeepsTasks(c, s, p);
    TasksLater(c, s, s.(blocked := s.blocked + [p]));
  }

  lemma WakeKeepsTasks(c: Config, s: State, k: nat)
    requires k < |s.blocked| && OrderInv(s) && TaskInv(c, s)
    ensures TaskInv(c, WakeNext(s, k))
  {
    var rest := s.(blocked := s.blocked[..k] + s.blocked[k + 1..]);
    TasksLater(c, s, rest);
    AcceptKeepsTasks(c, rest, s.blocked[k]);
  }

  lemma FlagsKeepTasks(c: Config, s: State, a: Action)
    requires (a.RequestStop? || a.Cancel? || a.StartWait?) && Enabled(c, s, a) && TaskInv(c, s)
    ensures TaskInv(c, Next(c, s, a))
  {
    var t := Next(c, s, a);
    forall id | 0 <= id < |t.tasks|
      ensures OneTaskInv(c, t, id, t.tasks[id])
    {
      assert OneTaskInv(c, s, id, s.tasks[id]);
    }
  }

  // ---------------------------------------------------------------- every step, every run

  lemma StepKeepsPlaces(c: Config, s: State, a: Action)
    requires PlacesInv(c, s) && Enabled(c, s, a)
    ensures PlacesInv(c, Next(c, s, a))
  {
    match a
    case PreStep => PreKeepsOrder(c, s); PreKeepsControl(c, s); PreKeepsLeases(c, s); PreKeepsPromises(c, s);
    case InfStep => InfKeepsOrder(c, s); InfKeepsControl(c, s); InfKeepsLeases(c, s); InfKeepsPromises(c, s);
    case PostStep => PostKeepsOrder(c, s); PostKeepsControl(c, s); PostKeepsLeases(c, s); PostKeepsPromises(c, s);
    case DispStep => DispKeepsOrder(c, s); DispKeepsControl(c, s); DispKeepsLeases(c, s); DispKeepsPromises(s);
    case _ => OutsideKeepsPlaces(c, s, a);
  }

  lemma StepKeepsFlow(c: Config, s: State, a: Action)
    requires Inv(c, s) && Enabled(c, s, a)
    ensures FlowInv(c, Next(c, s, a))
  {
    match a
    case PreStep => PreKeepsFlow(c, s);
    case InfStep => InfKeepsFlow(c, s);
    case PostStep => PostKeepsFlow(c, s);
    case DispStep => DispKeepsFlow(c, s);
    case _ => OutsideIsLater(c, s, a); FlowLater(c, s, Next(c, s, a));
  }

  lemma StepKeepsRecord(c: Config, s: State, a: Action)
    requires Inv(c, s) && Enabled(c, s, a) && OrderInv(Next(c, s, a))
    ensures RecordInv(c, Next(c, s, a))
  {
    if a.PreStep? {
      PreKeepsRecord(c, s);
    } else if a.InfStep? {
      InfKeepsRecord(c, s);
    } else if a.PostStep? {
      PostKeepsRecord(c, s);
    } else if a.DispStep? {
      DispKeepsRecord(c, s);
    } else {
      OutsideKeepsRecord(c, s, a);
    }
  }

  lemma InfKeepsRecord(c: Config, s: State)
    requires InfReady(s) && OrderInv(s) && OrderInv(InfNext(c, s)) && RecordInv(c, s)
    ensures RecordInv(c, InfNext(c, s))
  {
    InfIsLater(c, s);
    RecordLater(c, s, InfNext(c, s));
  }

  lemma DispKeepsRecord(c: Config, s: State)
    requires DispReady(s) && OrderInv(s) && OrderInv(DispNext(s)) && RecordInv(c, s)
    ensures RecordInv(c, DispNext(s))
  {
    DispIsLater(s);
    RecordLater(c, s, DispNext(s));
  }

  lemma OutsideKeepsRecord(c: Config, s: State, a: Action)
    requires Inv(c, s) && Enabled(c, s, a) && Outside(a) && OrderInv(Next(c, s, a))
    ensures RecordInv(c, Next(c, s, a))
  {
    OutsideIsLater(c, s, a);
    OutsideKeepsLine(c, s, a);
    RecordLater(c, s, Next(c, s, a));
  }

  lemma OutsideKeepsLine(c: Config, s: State, a: Action)
    requires Enabled(c, s, a) && Outside(a)
    ensures
      var t := Next(c, s, a);
      && |t.packets| - |t.entry| == |s.packets| - |s.entry|
      && t.given == s.given && t.verdicts == s.verdicts && t.pre == s.pre
  {
  }

  lemma StepKeepsVerdicts(c: Config, s: State, a: Action)
    requires Inv(c, s) && Enabled(c, s, a)
    ensures VerdictInv(c, Next(c, s, a))
  {
    if a.PreStep? {
      PreKeepsVerdicts(c, s);
    } else if a.InfStep? {
      InfKeepsVerdicts(c, s);
    } else if a.PostStep? {
      PostKeepsVerdicts(c, s);
    } else if a.DispStep? {
      DispKeepsVerdicts(c, s);
    } else {
      OutsideKeepsVerdicts(c, s, a);
    }
  }

  lemma OutsideKeepsVerdicts(c: Config, s: State, a: Action)
    requires |s.packets| == |s.tasks| && VerdictInv(c, s) && Enabled(c, s, a) && Outside(a)
    ensures VerdictInv(c, Next(c, s, a))
  {
    OutsideIsLater(c, s, a);
    OutsideTouchesNoVerdict(c, s, a);
    VerdictsLater(c, s, Next(c, s, a));
  }

  lemma OutsideTouchesNoVerdict(c: Config, s: State, a: Action)
    requires Enabled(c, s, a) && Outside(a)
    ensures
      var t := Next(c, s, a);
      && t.verdicts == s.verdicts && t.completions.items == s.completions.items && t.post == s.post
      && t.disp == s.disp && t.delivered == s.delivered
  {
    match a
    case Submit(_) =>
    case RequestStop(_) =>
    case Cancel(_) =>
    case StartWait =>
    case WakeSubmitter(_) =>
    case WaiterStep =>
    case _ =>
  }

  lemma StepKeepsTasks(c: Config, s: State, a: Action)
    requires Inv(c, s) && Enabled(c, s, a)
    ensures TaskInv(c, Next(c, s, a))
  {
    match a
    case PreStep => PreKeepsTasks(c, s);
    case InfStep => InfKeepsTasks(c, s);
    case PostStep => PostKeepsTasks(c, s);
    case DispStep => DispKeepsTasks(c, s);
    case _ => OutsideKeepsTasks(c, s, a);
  }

  lemma StepKeepsInv(c: Config, s: State, a: Action)
    requires Inv(c, s) && Enabled(c, s, a)
    ensures Inv(c, Next(c, s, a))
  {
    StepKeepsPlaces(c, s, a);
    StepKeepsRecord(c, s, a);
    StepKeepsFlow(c, s, a);
    StepKeepsVerdicts(c, s, a);
    StepKeepsTasks(c, s, a);
  }

  lemma RunKeepsPlaces(c: Config, s: State, run: seq<Action>)
    requires PlacesInv(c, s) && ValidRun(c, s, run)
    ensures PlacesInv(c, After(c, s, run))
    decreases |run|
  {
    if run != [] {
      StepKeepsPlaces(c, s, run[0]);
      RunKeepsPlaces(c, Next(c, s, run[0]), run[1..]);
    }
  }

  lemma RunKeepsInv(c: Config, s: State, run: seq<Action>)
    requires Inv(c, s) && ValidRun(c, s, run)
    ensures Inv(c, After(c, s, run))
    decreases |run|
  {
    if run != [] {
      StepKeepsInv(c, s, run[0]);
      RunKeepsInv(c, Next(c, s, run[0]), run[1..]);
    }
  }

  lemma ReachablePlaces(c: Config, s: State)
    requires Reachable(c, s)
    ensures PlacesInv(c, s)
  {
    var run :| ValidRun(c, Init(c), run) && After(c, Init(c), run) == s;
    InitInv(c);
    RunKeepsPlaces(c, Init(c), run);
  }

  lemma ReachableInv(c: Config, s: State)
    requires Reachable(c, s)
    ensures Inv(c, s)
  {
    var run :| ValidRun(c, Init(c), run) && After(c, Init(c), run) == s;
    InitInv(c);
    RunKeepsInv(c, Init(c), run);
  }
}
