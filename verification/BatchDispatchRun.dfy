/**
  A run of the batch executor that loses a completion: its postprocess thread dispatches one task
  while its batching thread dispatches a cancelled one.
 */
module BatchDispatchRun {
  import opened Core
  import opened Stages
  import opened Tasks
  import opened BoundedFifo
  import opened ExecutorParts
  import opened BatchExecutor
  import opened BatchTheorems
  import opened BatchDispatch
  import opened BatchDispatchTheorems
  import R = DispatcherRing

  lemma MovesExtend(c: Config, w: Whole, run: seq<Move>, m: Move)
    requires Moves(c, w, run) && Possible(c, Ending(c, w, run), m)
    ensures Moves(c, w, run + [m]) && Ending(c, w, run + [m]) == Moved(c, Ending(c, w, run), m)
  {
    var v := Ending(c, w, run);
    var t := Moved(c, v, m);
    assert [m][0] == m && [m][1..] == [];
    assert Moves(c, t, []) && Ending(c, t, []) == t;
    assert Moves(c, v, [m]);
    assert Ending(c, v, [m]) == t;
    MovesCompose(c, w, run, [m]);
  }

  lemma Then(c: Config, w: Whole, m: Move) returns (v: Whole)
    requires Happens(c, w) && Possible(c, w, m)
    ensures v == Moved(c, w, m) && Happens(c, v)
  {
    v := Moved(c, w, m);
    var run :| Moves(c, Start(c), run) && Ending(c, Start(c), run) == w;
    MovesExtend(c, Start(c), run, m);
  }

  /** What the run needs: room in the queues, a slot, and a packet that goes through every stage. */
  ghost predicate Suitable(c: Config, p: Packet) {
    && Usable(c) && c.queueCapacity > 0 && c.stageQueueCapacity > 0 && c.poolSize > 0
    && c.stages.acquires(p) && c.stages.preprocess(p).Ok?
    && c.stages.inferBatch([c.stages.preprocess(p).value]).Ok?
  }

  ghost function PreparedValue(c: Config, p: Packet): Prepared
    requires Suitable(c, p)
  {
    c.stages.preprocess(p).value
  }

  /** The first task is at its acquire. */
  lemma FirstAtAcquire(c: Config, p: Packet) returns (w: Whole)
    requires Suitable(c, p)
    ensures Happens(c, w)
    ensures w == Start(c).(inner := Init(c).(packets := [p], tasks := [MarkRunning(NewTask())], pre := PreAcquire(0)))
  {
    w := Start(c);
    var run: seq<Move> := [];
    assert Moves(c, w, run) && Ending(c, w, run) == w;
    w := Then(c, w, Inner(Submit(p)));
    w := Then(c, w, Inner(PreStep));
    w := Then(c, w, Inner(PreStep));
    w := Then(c, w, Inner(PreStep));
  }

  /** The first task is prepared, and its second check is to come. */
  lemma FirstIsPrepared(c: Config, p: Packet) returns (w: Whole)
    requires Suitable(c, p)
    ensures Happens(c, w)
    ensures w == Start(c).(inner := Init(c).(packets := [p], tasks := [MarkRunning(NewTask())], leased := {0},
                                             pre := PreRecheck(0, Ok(PreparedValue(c, p)))))
  {
    w := FirstAtAcquire(c, p);
    w := Then(c, w, Inner(PreStep));
    w := Then(c, w, Inner(PreStep));
  }

  /** The first task is prepared and queued. */
  lemma FirstIsQueued(c: Config, p: Packet) returns (w: Whole)
    requires Suitable(c, p)
    ensures Happens(c, w)
    ensures w == Start(c).(inner := Init(c).(
                   packets := [p], tasks := [MarkRunning(NewTask())], leased := {0}, given := [Ok(PreparedValue(c, p))],
                   preprocessQueue := Init(c).preprocessQueue.(items :=
                       [PreprocessedTask(0, Ok(PreparedValue(c, p)))])))
  {
    w := FirstIsPrepared(c, p);
    w := Then(c, w, Inner(PreStep));
    w := Then(c, w, Inner(PreStep));
  }

  /** The batching thread has collected it alone. */
  lemma FirstIsCollected(c: Config, p: Packet) returns (w: Whole)
    requires Suitable(c, p)
    ensures Happens(c, w)
    ensures w == Start(c).(inner := Init(c).(
                   packets := [p], tasks := [MarkRunning(NewTask())], leased := {0}, given := [Ok(PreparedValue(c, p))],
                   verdicts := [false], batch := Infer([Member(0, PreparedValue(c, p))], false)))
  {
    w := FirstIsQueued(c, p);
    assert w.inner.preprocessQueue.items[1..] == [];
    w := Then(c, w, Inner(BatchStep));
    w := Then(c, w, Inner(BatchStep));
    assert w.inner.preprocessQueue == Init(c).preprocessQueue;
    assert w.inner.batch.members == [Member(0, PreparedValue(c, p))];
    assert w.inner.verdicts == [false];
    if w.inner.batch.Collect? {
      w := Then(c, w, Inner(FlushTimeout(false)));
    }
  }

  /** Inferred, postprocessed and taken by the postprocess thread; the others wait for work. */
  ghost predicate FirstAtDispatch(c: Config, p: Packet, w: Whole) {
    && Happens(c, w) && w.ring == Start(c).ring
    && w.inner.packets == [p] && |w.inner.tasks| == 1 && w.inner.entry == [] && w.inner.accepting
    && !w.inner.immediateStop && w.inner.pre.PreWaiting? && w.inner.preprocessQueue == Init(c).preprocessQueue
    && w.inner.batch == Collect([]) && w.inner.post.PostDispatch? && w.inner.post.id == 0
    && w.inner.completions == Init(c).completions
  }

  /** The first task's result is ready for the postprocess queue. */
  lemma FirstIsPostprocessed(c: Config, p: Packet) returns (w: Whole)
    requires Suitable(c, p)
    ensures Happens(c, w) && w.ring == Start(c).ring
    ensures w.inner.batch.PushResult? && w.inner.batch.index == 0 && !w.inner.batch.last
    ensures |w.inner.batch.members| == |w.inner.batch.outputs| == 1 && w.inner.batch.members[0].id == 0
    ensures w.inner == Init(c).(
              packets := [p], tasks := [MarkRunning(NewTask())], given := [Ok(PreparedValue(c, p))],
              verdicts := [false], batch := w.inner.batch, leased := w.inner.leased, batches := w.inner.batches)
  {
    w := FirstIsCollected(c, p);
    assert Inputs(w.inner.batch.members) == [PreparedValue(c, p)];
    assert |c.stages.inferBatch([PreparedValue(c, p)]).value| == 1;
    w := Then(c, w, Inner(BatchStep));
    w := Then(c, w, Inner(BatchStep));
  }

  lemma FirstReachesDispatch(c: Config, p: Packet) returns (w: Whole)
    requires Suitable(c, p)
    ensures FirstAtDispatch(c, p, w)
  {
    w := FirstIsPostprocessed(c, p);
    w := Then(c, w, Inner(BatchStep));
    w := Then(c, w, Inner(BatchStep));
    w := Then(c, w, Inner(PostStep));
  }

  /** A second task, cancelled at once, reaches the batching thread's dispatch. */
  lemma SecondReachesDispatch(c: Config, p: Packet, w: Whole) returns (v: Whole)
    requires Suitable(c, p) && FirstAtDispatch(c, p, w)
    ensures Happens(c, v) && v.ring == Start(c).ring && v.inner.packets == [p, p]
    ensures v.inner.batch.Early? && v.inner.batch.id == 1 && v.inner.post == w.inner.post
    ensures v.inner.completions == Init(c).completions
  {
    v := SecondIsQueued(c, p, w);
    v := Then(c, v, Inner(BatchStep));
    v := Then(c, v, Inner(BatchStep));
  }

  lemma SecondIsCancelled(c: Config, p: Packet, w: Whole) returns (v: Whole)
    requires Suitable(c, p) && FirstAtDispatch(c, p, w)
    ensures Happens(c, v) && v.ring == Start(c).ring && v.inner.packets == [p, p] && |v.inner.tasks| == 2
    ensures v.inner.pre == PreTaken(1) && IsCancelled(v.inner, 1)
    ensures v.inner.preprocessQueue == w.inner.preprocessQueue
    ensures v.inner.batch == w.inner.batch && v.inner.post == w.inner.post && v.inner.completions == w.inner.completions
  {
    v := Then(c, w, Inner(Submit(p)));
    v := Then(c, v, Inner(Cancel(1)));
    v := Then(c, v, Inner(PreStep));
  }

  lemma SecondIsQueued(c: Config, p: Packet, w: Whole) returns (v: Whole)
    requires Suitable(c, p) && FirstAtDispatch(c, p, w)
    ensures Happens(c, v) && v.ring == Start(c).ring && v.inner.packets == [p, p] && |v.inner.tasks| == 2
    ensures v.inner.preprocessQueue.items == [PreprocessedTask(1, CancelledResult())] && IsCancelled(v.inner, 1)
    ensures v.inner.batch == Collect([]) && v.inner.post == w.inner.post && v.inner.completions == w.inner.completions
  {
    v := SecondIsCancelled(c, p, w);
    v := CheckSeesIt(c, v);
    v := QueueIt(c, v);
  }

  lemma QueueIt(c: Config, w: Whole) returns (v: Whole)
    requires Happens(c, w) && w.inner.pre.PreRecheck? && IsCancelled(w.inner, w.inner.pre.id)
    requires w.inner.preprocessQueue.CanPush()
    ensures Happens(c, v) && v.ring == w.ring
    ensures v.inner == w.inner.(pre := PreWaiting, leased := v.inner.leased, given := v.inner.given,
                                preprocessQueue := w.inner.preprocessQueue.Push(
                                  PreprocessedTask(w.inner.pre.id, CancelledResult())))
  {
    v := Then(c, w, Inner(PreStep));
    v := Then(c, v, Inner(PreStep));
  }

  /** A cancelled task goes past preprocessing. */
  lemma CheckSeesIt(c: Config, w: Whole) returns (v: Whole)
    requires Happens(c, w) && w.inner.pre.PreTaken? && w.inner.pre.id < |w.inner.tasks|
    requires IsCancelled(w.inner, w.inner.pre.id)
    ensures Happens(c, v)
    ensures v == w.(inner := w.inner.(pre := PreRecheck(w.inner.pre.id, CancelledResult()), tasks := v.inner.tasks))
    ensures |v.inner.tasks| == |w.inner.tasks| && IsCancelled(v.inner, w.inner.pre.id)
  {
    v := Then(c, w, Inner(PreStep));
    v := Then(c, v, Inner(PreStep));
  }

  /** Both threads are inside `dispatch`, past their fullness tests, with the same tail. */
  lemma BothInsideDispatch(c: Config, p: Packet) returns (w: Whole)
    requires Suitable(c, p)
    ensures Happens(c, w) && w.inner.packets == [p, p]
    ensures Offered(w.inner, 0).Some? && Offered(w.inner, 0).value.id == 1
    ensures Offered(w.inner, 1).Some? && Offered(w.inner, 1).value.id == 0
    ensures w.ring == Start(c).ring.(pushers := [R.FillSlot(Offered(w.inner, 0).value, 0),
                                                 R.FillSlot(Offered(w.inner, 1).value, 0)])
  {
    w := FirstReachesDispatch(c, p);
    w := SecondReachesDispatch(c, p, w);
    w := GetsPastItsTests(c, w, 0);
    w := GetsPastItsTests(c, w, 1);
  }

  lemma GetsPastItsTests(c: Config, w: Whole, who: nat) returns (v: Whole)
    requires Happens(c, w) && who < 2 && Offered(w.inner, who).Some? && c.stageQueueCapacity > 0
    requires |w.ring.pushers| == 2 && w.ring.pushers[who].Idle?
    requires w.ring == Start(c).ring.(pushers := w.ring.pushers) && !R.SomeStale(w.ring)
    ensures Happens(c, v) && v.inner == w.inner
    ensures v.ring == w.ring.(pushers := w.ring.pushers[who := R.FillSlot(Offered(w.inner, who).value, 0)])
    ensures !R.SomeStale(v.ring)
  {
    forall k | 0 <= k < 2
      ensures !R.Stale(w.ring, w.ring.pushers[k])
    {
    }
    v := Then(c, w, Offer(who));
    v := Then(c, v, Push(who));
    v := Then(c, v, Push(who));
    v := Then(c, v, Push(who));
  }

  /**
    The executor's own losing run: both dispatches are over, the dispatcher has caught up, and one of
    the two accepted tasks has not been completed, nor will it be.
   */
  lemma DispatchesCanOverlap(c: Config, p: Packet) returns (w: Whole)
    requires Suitable(c, p)
    ensures Happens(c, w) && R.CaughtUp(w.ring) && w.ring.overlapped
    ensures CompletionIds(w.ring.accepted) == [1, 0] && |w.ring.popped| == 1
  {
    w := BothInsideDispatch(c, p);
    w := BothStore(c, w);
    w := Then(c, w, Pop);
    w := Then(c, w, Pop);
  }

  lemma BothStore(c: Config, w: Whole) returns (v: Whole)
    requires Happens(c, w) && c.stageQueueCapacity > 0
    requires Offered(w.inner, 0).Some? && Offered(w.inner, 1).Some?
    requires w.ring == Start(c).ring.(pushers := [R.FillSlot(Offered(w.inner, 0).value, 0),
                                                  R.FillSlot(Offered(w.inner, 1).value, 0)])
    ensures Happens(c, v) && R.NobodyPushes(v.ring) && v.ring.overlapped
    ensures v.ring.accepted == [Offered(w.inner, 0).value, Offered(w.inner, 1).value]
    ensures v.ring.popped == [] && v.ring.head == 0 && v.ring.tail == 1 && v.ring.popper.Looking?
    ensures |v.ring.slots| == c.stageQueueCapacity && v.ring.slots[0].Some?
  {
    v := Then(c, w, Push(0));
    v := Then(c, v, Push(1));
    v := Then(c, v, Push(0));
    assert R.Stale(v.ring, v.ring.pushers[1]);
    v := Then(c, v, Push(1));
  }
}
