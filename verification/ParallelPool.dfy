/**
  The tensor pool behind the parallel executor: stageQueueCapacity + 2 slots, the number the presets
  configure, is enough in every run and no smaller number is.
 */
module ParallelPool {
  import opened Core
  import opened Stages
  import opened Tasks
  import opened BoundedFifo
  import opened ExecutorParts
  import opened ParallelExecutor
  import opened ParallelInvariant
  import opened ParallelDrain
  import opened ParallelTheorems

  /** ToTensor asks for a slot and the pool has none. */
  ghost predicate Exhausted(c: Config, s: State) {
    s.pre.PreAcquire? && s.pre.id < |s.packets| && c.stages.acquires(s.packets[s.pre.id]) && |s.leased| >= c.poolSize
  }

  /** Before an acquire, only the queue and the task inference is working on hold slots. */
  lemma EnoughSlots(c: Config, s: State)
    requires Reachable(c, s) && s.pre.PreAcquire?
    ensures |s.leased| <= c.stageQueueCapacity + 1
  {
    ReachablePlaces(c, s);
    IntervalCard(s.leased, PastInf(s), PastPre(s));
  }

  // ---------------------------------------------------------------- the bound is met

  /** A run that has piled up `k` live tensors: one in inference, the others queued. */
  ghost predicate Loaded(c: Config, s: State, k: nat) {
    && Reachable(c, s)
    && s.pre.PreWaiting? && s.entry == [] && s.accepting && !s.immediateStop
    && (forall id :: 0 <= id < |s.tasks| ==> !s.tasks[id].cancelRequested)
    && |s.leased| == k
    && (if k == 0 then s.inf.InfPop? && s.preprocessQueue.items == []
        else s.inf.InfRun? && |s.preprocessQueue.items| == k - 1)
  }

  lemma Then(c: Config, s: State, a: Action) returns (t: State)
    requires Reachable(c, s) && Enabled(c, s, a)
    ensures t == Next(c, s, a) && Reachable(c, t)
  {
    t := Next(c, s, a);
    assert After(c, t, []) == t;
    assert [a][1..] == [];
    ReachableRun(c, s, [a]);
  }

  /** One more submission, brought up to its acquire. */
  lemma BringToAcquire(c: Config, s: State, k: nat, p: Packet) returns (t: State)
    requires c.queueCapacity > 0 && c.stageQueueCapacity > 0 && Loaded(c, s, k)
    ensures Reachable(c, t)
    ensures t == s.(packets := s.packets + [p], tasks := s.tasks + [MarkRunning(NewTask())],
                    pre := PreAcquire(|s.tasks|))
  {
    ReachablePlaces(c, s);
    t := Then(c, s, Submit(p));
    t := Then(c, t, PreStep);
    t := Then(c, t, PreStep);
    t := Then(c, t, PreStep);
  }

  /** The acquire succeeds and the prepared tensor is queued. */
  lemma AcquireAndQueue(c: Config, s: State, p: Packet) returns (t: State)
    requires Reachable(c, s) && s.pre.PreAcquire? && s.pre.id < |s.packets| && s.packets[s.pre.id] == p
    requires c.stages.acquires(p) && c.stages.preprocess(p).Ok?
    requires |s.leased| < c.poolSize && s.preprocessQueue.CanPush() && !IsCancelled(s, s.pre.id)
    ensures Reachable(c, t)
    ensures t == s.(pre := PreWaiting, leased := s.leased + {s.pre.id}, calls := t.calls, given := t.given,
                    preprocessQueue := s.preprocessQueue.Push(PreprocessedTask(s.pre.id, c.stages.preprocess(p))))
  {
    t := Then(c, s, PreStep);
    t := Then(c, t, PreStep);
    t := Then(c, t, PreStep);
    t := Then(c, t, PreStep);
  }

  lemma InferenceTakesIt(c: Config, s: State) returns (t: State)
    requires Reachable(c, s) && s.inf.InfPop? && s.preprocessQueue.CanPop()
    requires s.preprocessQueue.items[0].prepared.Ok? && !IsCancelled(s, s.preprocessQueue.items[0].id)
    ensures Reachable(c, t)
    ensures t == s.(preprocessQueue := s.preprocessQueue.Pop(), verdicts := t.verdicts,
                    inf := InfRun(s.preprocessQueue.items[0].id, s.preprocessQueue.items[0].prepared.value))
  {
    t := Then(c, s, InfStep);
    t := Then(c, t, InfStep);
  }

  lemma LoadOneMore(c: Config, s: State, k: nat, p: Packet) returns (t: State)
    requires c.queueCapacity > 0 && c.stageQueueCapacity > 0 && Loaded(c, s, k)
    requires k < c.poolSize && k <= c.stageQueueCapacity
    requires c.stages.acquires(p) && c.stages.preprocess(p).Ok?
    ensures Loaded(c, t, k + 1)
  {
    ReachablePlaces(c, s);
    assert |s.tasks| !in s.leased;
    t := BringToAcquire(c, s, k, p);
    t := AcquireAndQueue(c, t, p);
    if k == 0 {
      t := InferenceTakesIt(c, t);
    }
  }

  lemma Load(c: Config, k: nat, p: Packet) returns (s: State)
    requires c.queueCapacity > 0 && c.stageQueueCapacity > 0
    requires k <= c.poolSize && k <= c.stageQueueCapacity + 1
    requires c.stages.acquires(p) && c.stages.preprocess(p).Ok?
    ensures Loaded(c, s, k)
  {
    if k == 0 {
      s := Init(c);
      var run: seq<Action> := [];
      assert ValidRun(c, s, run) && After(c, s, run) == s;
    } else {
      s := Load(c, k - 1, p);
      s := LoadOneMore(c, s, k - 1, p);
    }
  }

  /**
    For every usable executor and every packet that needs a tensor: exhaustion is impossible iff the pool
    has capacity + 2 slots.
   */
  lemma PoolSizeIsExact(c: Config, p: Packet)
    requires c.queueCapacity > 0 && c.stageQueueCapacity > 0
    requires c.stages.acquires(p) && c.stages.preprocess(p).Ok?
    ensures PoolIsEnough(c) <==> forall s :: Reachable(c, s) ==> !Exhausted(c, s)
  {
    if PoolIsEnough(c) {
      forall s | Reachable(c, s)
        ensures !Exhausted(c, s)
      {
        if s.pre.PreAcquire? { EnoughSlots(c, s); }
      }
    } else {
      var s := Load(c, c.poolSize, p);
      var t := BringToAcquire(c, s, c.poolSize, p);
      ReachablePlaces(c, s);
      assert Exhausted(c, t);
    }
  }
}
