/**
  Runs of the batch executor that reach its limits: the number of pool slots it can need, and the
  timeout that leaves a task behind.
 */
module BatchPool {
  import opened Core
  import opened Stages
  import opened Tasks
  import opened BoundedFifo
  import opened ExecutorParts
  import opened BatchExecutor
  import opened BatchInvariant
  import opened BatchFlow
  import opened BatchTheorems
  import opened BatchDrain

  ghost predicate Exhausted(c: Config, s: State) {
    s.pre.PreAcquire? && s.pre.id < |s.packets| && c.stages.acquires(s.packets[s.pre.id]) && |s.leased| >= c.poolSize
  }

  /** The preprocessing thread waits for work, nothing is cancelled or stopped. */
  ghost predicate Fresh(c: Config, s: State) {
    && Reachable(c, s)
    && s.pre.PreWaiting? && s.entry == [] && s.accepting && !s.immediateStop
    && (forall id :: 0 <= id < |s.tasks| ==> !s.tasks[id].cancelRequested)
  }

  /** A run that has piled up `k` live tensors: first in the batch in hand, then in the queue. */
  ghost predicate Loaded(c: Config, s: State, k: nat) {
    && Fresh(c, s) && |s.leased| == k
    && if k < c.maxBatchSize then s.batch.Collect? && |s.batch.members| == k && s.preprocessQueue.items == []
       else s.batch.Infer? && |s.preprocessQueue.items| == k - c.maxBatchSize
  }

  lemma Then(c: Config, s: State, a: Action) returns (t: State)
    requires Reachable(c, s) && Enabled(c, s, a)
    ensures t == Next(c, s, a) && Reachable(c, t)
  {
    t := Next(c, s, a);
    var first :| ValidRun(c, Init(c), first) && After(c, Init(c), first) == s;
    assert After(c, t, []) == t;
    assert [a][1..] == [];
    RunsCompose(c, Init(c), first, [a]);
  }

  /** The dispatcher takes the first completion and carries it out. */
  lemma DeliverFirst(c: Config, s: State) returns (t: State)
    requires Reachable(c, s) && s.completions.items != [] && s.disp.DispPop?
    requires s.completions.items[0].id < |s.tasks| && s.tasks[s.completions.items[0].id].promise.None?
    ensures Reachable(c, t)
    ensures
      var x := s.completions.items[0];
      t == s.(completions := s.completions.Pop(), delivered := s.delivered + [x.id],
              tasks := s.tasks[x.id := SetPromise(StoreTerminal(s.tasks[x.id], x.result), x.result)])
  {
    t := Then(c, s, DispStep);
    t := Then(c, t, DispStep);
    t := Then(c, t, DispStep);
    t := Then(c, t, DispStep);
  }

  lemma BringToAcquire(c: Config, s: State, p: Packet) returns (t: State)
    requires Usable(c) && c.queueCapacity > 0 && c.stageQueueCapacity > 0 && Fresh(c, s)
    ensures Reachable(c, t)
    ensures t == s.(packets := s.packets + [p], tasks := s.tasks + [MarkRunning(NewTask())],
        pre := PreAcquire(|s.tasks|))
  {
    ReachablePlaces(c, s);
    t := Then(c, s, Submit(p));
    t := Then(c, t, PreStep);
    t := Then(c, t, PreStep);
    t := Then(c, t, PreStep);
  }

  lemma AcquireAndQueue(c: Config, s: State, p: Packet) returns (t: State)
    requires Reachable(c, s) && s.pre.PreAcquire? && s.pre.id < |s.packets| && s.packets[s.pre.id] == p
    requires c.stages.acquires(p) && c.stages.preprocess(p).Ok?
    requires |s.leased| < c.poolSize && s.preprocessQueue.CanPush() && !IsCancelled(s, s.pre.id)
    ensures Reachable(c, t)
    ensures t == s.(pre := PreWaiting, leased := s.leased + {s.pre.id}, given := s.given + [c.stages.preprocess(p)],
                    preprocessQueue := s.preprocessQueue.Push(PreprocessedTask(s.pre.id, c.stages.preprocess(p))))
  {
    t := Then(c, s, PreStep);
    t := Then(c, t, PreStep);
    t := Then(c, t, PreStep);
    t := Then(c, t, PreStep);
  }

  /** One more packet, prepared and queued with its tensor. */
  lemma QueueOneMore(c: Config, s: State, p: Packet) returns (t: State)
    requires Usable(c) && c.queueCapacity > 0 && c.stageQueueCapacity > 0 && Fresh(c, s)
    requires c.stages.acquires(p) && c.stages.preprocess(p).Ok?
    requires |s.leased| < c.poolSize && |s.preprocessQueue.items| < c.stageQueueCapacity
    ensures Fresh(c, t) && |t.leased| == |s.leased| + 1
    ensures t == s.(packets := s.packets + [p], tasks := s.tasks + [MarkRunning(NewTask())],
                    leased := s.leased + {|s.tasks|}, given := s.given + [c.stages.preprocess(p)],
                    preprocessQueue := s.preprocessQueue.(
                      items := s.preprocessQueue.items + [PreprocessedTask(|s.tasks|, c.stages.preprocess(p))]))
  {
    ReachablePlaces(c, s);
    if |s.tasks| in s.leased && |s.tasks| in LeaseHand(s.batch) { HandWasTaken(s, |s.tasks|); }
    assert |s.tasks| !in s.leased;
    t := BringToAcquire(c, s, p);
    t := AcquireAndQueue(c, t, p);
  }

  lemma BatchTakesIt(c: Config, s: State) returns (t: State)
    requires Reachable(c, s) && s.batch.Collect? && s.preprocessQueue.CanPop()
    requires s.preprocessQueue.items[0].prepared.Ok? && !IsCancelled(s, s.preprocessQueue.items[0].id)
    ensures Reachable(c, t)
    ensures
      var grown := s.batch.members + [Member(s.preprocessQueue.items[0].id, s.preprocessQueue.items[0].prepared.value)];
      t == s.(preprocessQueue := s.preprocessQueue.Pop(), verdicts := s.verdicts + [false],
              batch := if |grown| >= c.maxBatchSize then Infer(grown, false) else Collect(grown))
  {
    t := Then(c, s, BatchStep);
    t := Then(c, t, BatchStep);
  }

  lemma LoadOneMore(c: Config, s: State, k: nat, p: Packet) returns (t: State)
    requires Usable(c) && c.queueCapacity > 0 && c.stageQueueCapacity > 0 && Loaded(c, s, k)
    requires k < c.poolSize && k < c.stageQueueCapacity + c.maxBatchSize
    requires c.stages.acquires(p) && c.stages.preprocess(p).Ok?
    ensures Loaded(c, t, k + 1)
  {
    t := QueueOneMore(c, s, p);
    if k < c.maxBatchSize {
      t := BatchTakesIt(c, t);
    }
  }

  lemma Start(c: Config) returns (s: State)
    ensures s == Init(c) && Fresh(c, s)
  {
    s := Init(c);
    var run: seq<Action> := [];
    assert ValidRun(c, s, run) && After(c, s, run) == s;
  }

  lemma Load(c: Config, k: nat, p: Packet) returns (s: State)
    requires Usable(c) && c.queueCapacity > 0 && c.stageQueueCapacity > 0
    requires k <= c.poolSize && k <= c.stageQueueCapacity + c.maxBatchSize
    requires c.stages.acquires(p) && c.stages.preprocess(p).Ok?
    ensures Loaded(c, s, k)
  {
    if k == 0 {
      s := Start(c);
    } else {
      s := Load(c, k - 1, p);
      s := LoadOneMore(c, s, k - 1, p);
    }
  }

  /** Exhaustion is impossible exactly if the pool has stageQueueCapacity + maxBatchSize + 1 slots. */
  lemma PoolSizeIsExact(c: Config, p: Packet)
    requires Usable(c) && c.queueCapacity > 0 && c.stageQueueCapacity > 0
    requires c.stages.acquires(p) && c.stages.preprocess(p).Ok?
    ensures PoolIsEnough(c) <==> forall s :: Reachable(c, s) ==> !Exhausted(c, s)
  {
    if PoolIsEnough(c) {
      forall s | Reachable(c, s)
        ensures !Exhausted(c, s)
      {
        ReachablePlaces(c, s);
        if s.pre.PreAcquire? { LiveTensors(c, s); }
      }
    } else {
      var s := Load(c, c.poolSize, p);
      var t := BringToAcquire(c, s, p);
      ReachablePlaces(c, s);
      assert Exhausted(c, t);
    }
  }

  /** The service configures stageQueueCapacity + 2 slots for its batch executor: enough for batches of one only. */
  lemma SessionPoolIsEnoughForSingleBatches(c: Config, p: Packet)
    requires Usable(c) && c.queueCapacity > 0 && c.stageQueueCapacity > 0 && c.poolSize == c.stageQueueCapacity + 2
    requires c.stages.acquires(p) && c.stages.preprocess(p).Ok?
    ensures (forall s :: Reachable(c, s) ==> !Exhausted(c, s)) <==> c.maxBatchSize == 1
  {
    PoolSizeIsExact(c, p);
  }

  /**
    Batches of two or more can leave a task behind: the deadline passes on an empty queue, a task is
    queued and the queue closed, and only then the second look is taken.
   */
  lemma TimeoutCanLeaveATask(c: Config, p: Packet) returns (s: State)
    requires Usable(c) && c.queueCapacity > 0 && c.stageQueueCapacity > 0 && c.maxBatchSize > 1 && c.poolSize > 1
    requires c.stages.acquires(p) && c.stages.preprocess(p).Ok?
    ensures Reachable(c, s) && Enabled(c, s, BatchStep) && MissesItems(s, BatchStep)
  {
    s := Load(c, 1, p);
    s := DeadlinePasses(c, s);
    s := QueueOneMore(c, s, p);
    s := Then(c, s, RequestStop(false));
    s := Then(c, s, PreStep);
    s := Then(c, s, PreStep);
  }

  lemma DeadlinePasses(c: Config, s: State) returns (t: State)
    requires Fresh(c, s) && s.batch.Collect? && s.batch.members != [] && s.preprocessQueue.items == []
    ensures Fresh(c, t) && t.batch.GotNothing? && t.leased == s.leased && t.preprocessQueue == s.preprocessQueue
  {
    t := Then(c, s, FlushTimeout(true));
  }
}
