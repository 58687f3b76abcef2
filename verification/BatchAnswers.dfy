/**
  What batching does to the answers: a member of a batch has the answer of the serial run exactly if
  its batch can be inferred.
 */
module BatchAnswers {
  import opened Core
  import opened Stages
  import opened Tasks
  import opened BoundedFifo
  import opened ExecutorParts
  import opened BatchExecutor
  import opened BatchInvariant
  import opened BatchFlow
  import opened BatchTheorems
  import opened BatchDrain
  import opened BatchPool

  // ---------------------------------------------------------------- a task has one place in the batches

  ghost predicate InBatch(s: State, b: nat, j: nat, id: nat) {
    b < |s.batches| && j < |s.batches[b]| && s.batches[b][j].id == id
  }

  ghost predicate Increasing(ids: seq<nat>) { forall i, k :: 0 <= i < k < |ids| ==> ids[i] < ids[k] }

  lemma EligibleIncreases(given: seq<Result<Prepared>>, verdicts: seq<bool>, n: nat)
    requires n <= |given| && n <= |verdicts|
    ensures Increasing(Eligible(given, verdicts, n))
    ensures forall i :: 0 <= i < |Eligible(given, verdicts, n)| ==> Eligible(given, verdicts, n)[i] < n
  {
    if n > 0 {
      EligibleIncreases(given, verdicts, n - 1);
    }
  }

  lemma MemberIsJoined(batches: seq<seq<Member>>, b: nat, j: nat)
    requires b < |batches| && j < |batches[b]|
    ensures batches[b][j].id in Joined(batches)
  {
    var last := |batches| - 1;
    if b == last {
      assert MemberIds(batches[last])[j] in MemberIds(batches[last]);
    } else {
      MemberIsJoined(batches[..last], b, j);
    }
  }

  lemma EarlierIsSmaller(batches: seq<seq<Member>>, b: nat, j: nat, k: nat)
    requires Increasing(Joined(batches))
    requires b < |batches| - 1 && j < |batches[b]| && k < |batches[|batches| - 1]|
    ensures batches[b][j].id < batches[|batches| - 1][k].id
  {
    var last := |batches| - 1;
    var front, ids := Joined(batches[..last]), MemberIds(batches[last]);
    MemberIsJoined(batches[..last], b, j);
    var i :| 0 <= i < |front| && front[i] == batches[b][j].id;
    assert Joined(batches)[i] == front[i] && Joined(batches)[|front| + k] == ids[k];
  }

  lemma {:induction false} PlaceIsUnique(batches: seq<seq<Member>>, b: nat, j: nat, b': nat, j': nat)
    requires Increasing(Joined(batches))
    requires b < |batches| && j < |batches[b]| && b' < |batches| && j' < |batches[b']|
    requires batches[b][j].id == batches[b'][j'].id
    ensures b == b' && j == j'
  {
    var last := |batches| - 1;
    var front, ids := Joined(batches[..last]), MemberIds(batches[last]);
    assert Joined(batches) == front + ids;
    if b < last && b' < last {
      assert forall i :: 0 <= i < |front| ==> front[i] == Joined(batches)[i];
      PlaceIsUnique(batches[..last], b, j, b', j');
    } else if b == last && b' == last {
      assert Joined(batches)[|front| + j] == ids[j] && Joined(batches)[|front| + j'] == ids[j'];
    } else if b == last {
      EarlierIsSmaller(batches, b', j', j);
    } else {
      EarlierIsSmaller(batches, b, j, j');
    }
  }

  lemma BatchOfATaskIsUnique(c: Config, s: State, id: nat, b: nat, j: nat, b': nat, j': nat)
    requires Usable(c) && Reachable(c, s) && InBatch(s, b, j, id) && InBatch(s, b', j', id)
    ensures b == b' && j == j'
  {
    BatchesCutTheStream(c, s);
    EligibleIncreases(s.given, s.verdicts, |s.verdicts|);
    var all := Joined(s.batches) + Collecting(s.batch);
    assert forall i :: 0 <= i < |Joined(s.batches)| ==> Joined(s.batches)[i] == all[i];
    PlaceIsUnique(s.batches, b, j, b', j');
  }

  // ---------------------------------------------------------------- the answer of a member

  /**
    The answer of a delivered member of a batch, whatever the pool. Exactly if its batch can be inferred
    it is the serial answer, apart from members whose own serial answer is that failure; and if samples
    that can be inferred alone can be inferred together, that is exactly if every member can be.
   */
  lemma MemberAnswer(c: Config, s: State, id: nat, b: nat, j: nat)
    requires Usable(c) && Reachable(c, s) && id in s.delivered && InBatch(s, b, j, id)
    requires GivesEachItsOwn(c.stages, Inputs(s.batches[b]))
    ensures id < |s.tasks| && id < |s.packets| && s.tasks[id].promise.Some?
    ensures
      var xs, promise := Inputs(s.batches[b]), s.tasks[id].promise.value;
      var outputs, serial := c.stages.inferBatch(xs), RunPipeline(c.stages, s.packets[id]);
      && (outputs.Ok? ==> promise == serial)
      && (outputs.Err? ==> promise == Err(outputs.status))
      && ((outputs.Err? && serial == Err(outputs.status)) || (promise == serial <==> outputs.Ok?))
      && ((AllInfer(c.stages, xs) ==> outputs.Ok?) ==> (outputs.Ok? <==> AllInfer(c.stages, xs)))
  {
    ReachableInv(c, s);
    DeliveredAnswer(c, s, id);
    MemberWasEligible(c, s, id, b, j);
    var r := s.tasks[id].promise.value;
    var b': nat, j': nat :| AnsweredAt(c, s.batches, b', j', id, r);
    assert InBatch(s, b', j', id);
    BatchOfATaskIsUnique(c, s, id, b, j, b', j');
    MemberGetsItsOwn(c, s, b, j, r);
  }

  lemma MemberWasEligible(c: Config, s: State, id: nat, b: nat, j: nat)
    requires Inv(c, s) && InBatch(s, b, j, id)
    ensures id < |s.verdicts| && !s.verdicts[id] && id < |s.given| && s.given[id].Ok?
  {
    MemberIsJoined(s.batches, b, j);
    EligibleMeans(s.given, s.verdicts, |s.verdicts|, id);
  }

  lemma {:induction false} EligibleMeans(given: seq<Result<Prepared>>, verdicts: seq<bool>, n: nat, id: nat)
    requires n <= |given| && n <= |verdicts|
    ensures id in Eligible(given, verdicts, n) <==> id < n && !verdicts[id] && given[id].Ok?
  {
    if n > 0 {
      EligibleMeans(given, verdicts, n - 1, id);
    }
  }

  lemma MemberGetsItsOwn(c: Config, s: State, b: nat, j: nat, r: Result<Answer>)
    requires b < |s.batches| && j < |s.batches[b]| && PreparedMembers(c, s.packets, s.batches[b])
    requires IsBatchAnswer(c, s.batches[b], j, r) && GivesEachItsOwn(c.stages, Inputs(s.batches[b]))
    ensures s.batches[b][j].id < |s.packets|
    ensures c.stages.inferBatch(Inputs(s.batches[b])).Ok? ==>
              r == RunPipeline(c.stages, s.packets[s.batches[b][j].id])
  {
    var members, xs := s.batches[b], Inputs(s.batches[b]);
    assert PreparedMember(c, s.packets, members[j]);
    if c.stages.inferBatch(xs).Ok? {
      assert Ok(c.stages.inferBatch(xs).value[j]) == c.stages.infer(xs[j]);
    }
  }

  /** Every delivered task whose check saw no cancellation, and that could be prepared, was in a batch. */
  lemma PreparedWasInABatch(c: Config, s: State, id: nat) returns (b: nat, j: nat)
    requires Usable(c) && Reachable(c, s) && id in s.delivered
    requires id < |s.verdicts| && !s.verdicts[id] && id < |s.given| && s.given[id].Ok?
    ensures InBatch(s, b, j, id) && PreparedMembers(c, s.packets, s.batches[b])
  {
    ReachableInv(c, s);
    DeliveredAnswer(c, s, id);
    b, j :| AnsweredAt(c, s.batches, b, j, id, s.tasks[id].promise.value);
  }

  /** Every batch of the run was inferred, and gave each sample what it gets alone. */
  ghost predicate BatchesSucceed(c: Config, s: State) {
    forall b :: 0 <= b < |s.batches| ==>
      c.stages.inferBatch(Inputs(s.batches[b])).Ok? && GivesEachItsOwn(c.stages, Inputs(s.batches[b]))
  }

  /**
    Where no batch fails and the pool is large enough, the cut of the stream does not show: every
    delivered task has the answer of the serial run, unless its check saw a cancellation.
   */
  lemma BatchedRefinesSerial(c: Config, s: State, id: nat)
    requires Usable(c) && PoolIsEnough(c) && Reachable(c, s) && id in s.delivered
    requires BatchesSucceed(c, s)
    ensures id < |s.tasks| && id < |s.packets| && id < |s.verdicts|
    ensures s.tasks[id].promise ==
            Some(if s.verdicts[id] then CancelledResult() else RunPipeline(c.stages, s.packets[id]))
  {
    ReachableInv(c, s);
    DeliveredAnswer(c, s, id);
    if !s.verdicts[id] && s.given[id].Ok? {
      var r := s.tasks[id].promise.value;
      var b: nat, j: nat :| AnsweredAt(c, s.batches, b, j, id, r);
      MemberGetsItsOwn(c, s, b, j, r);
    }
  }

  // ---------------------------------------------------------------- the neighbour's failure

  /** A batch of two, `p` and after it `q`, about to be inferred. */
  lemma BatchOfTwo(c: Config, p: Packet, q: Packet) returns (s: State)
    requires Usable(c) && c.queueCapacity > 0 && c.stageQueueCapacity > 0 && c.maxBatchSize > 1 && c.poolSize > 1
    requires c.stages.acquires(p) && c.stages.preprocess(p).Ok?
    requires c.stages.acquires(q) && c.stages.preprocess(q).Ok?
    ensures Reachable(c, s) && s.packets == [p, q] && |s.tasks| == 2 && s.tasks[0].promise.None? && s.delivered == []
    ensures s.batch.Infer?
    ensures s.batch.members == [Member(0, c.stages.preprocess(p).value), Member(1, c.stages.preprocess(q).value)]
    ensures s.batches == [] && s.verdicts == [false, false]
    ensures s.given == [c.stages.preprocess(p), c.stages.preprocess(q)]
    ensures s.completions.CanPush() && s.completions.items == [] && s.disp.DispPop?
  {
    s := Start(c);
    s := QueueOneMore(c, s, p);
    s := BatchTakesIt(c, s);
    s := QueueOneMore(c, s, q);
    s := BatchTakesIt(c, s);
    if s.batch.Collect? {
      s := Then(c, s, FlushTimeout(false));
    }
  }

  /**
    The run that shows what sharing a batch costs, whenever `p` and `q` cannot be inferred together: the
    serial run answers `p`, but the task is given the failure of the batch. `q` may be as healthy as `p`.
   */
  lemma HealthyMemberCanFail(c: Config, p: Packet, q: Packet) returns (s: State)
    requires Usable(c) && c.queueCapacity > 0 && c.stageQueueCapacity > 0 && c.maxBatchSize > 1 && c.poolSize > 1
    requires c.stages.acquires(p) && c.stages.preprocess(p).Ok? && RunPipeline(c.stages, p).Ok?
    requires c.stages.acquires(q) && c.stages.preprocess(q).Ok?
    requires c.stages.inferBatch([c.stages.preprocess(p).value, c.stages.preprocess(q).value]).Err?
    ensures Reachable(c, s) && s.packets == [p, q] && s.delivered == [0] && s.verdicts == [false, false]
    ensures
      var outputs := c.stages.inferBatch([c.stages.preprocess(p).value, c.stages.preprocess(q).value]);
      0 < |s.tasks| && s.tasks[0].promise == Some(Err(outputs.status))
  {
    s := BatchOfTwo(c, p, q);
    var xs := Inputs(s.batch.members);
    assert xs == [c.stages.preprocess(p).value, c.stages.preprocess(q).value];
    s := Then(c, s, BatchStep);
    s := Then(c, s, BatchStep);
    s := DeliverFirst(c, s);
  }
}
