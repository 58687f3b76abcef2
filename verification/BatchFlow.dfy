/** What travels through the batch executor, and what every task is given in the end. */
module BatchFlow {
  import opened Core
  import opened Stages
  import opened Tasks
  import opened BoundedFifo
  import opened ExecutorParts
  import opened BatchExecutor
  import opened BatchInvariant

  // ---------------------------------------------------------------- the tensor pool

  ghost predicate PoolIsEnough(c: Config) { c.poolSize >= c.stageQueueCapacity + c.maxBatchSize + 1 }

  ghost function Elements(ids: seq<nat>): set<nat> { set id | id in ids }

  lemma ElementsCard(ids: seq<nat>)
    ensures |Elements(ids)| <= |ids|
  {
    if ids == [] {
      assert Elements(ids) == {};
    } else {
      ElementsCard(ids[1..]);
      assert Elements(ids) == Elements(ids[1..]) + {ids[0]};
      assert ids[0] in Elements(ids[1..]) ==> Elements(ids) == Elements(ids[1..]);
    }
  }

  /** Before an acquire only the batch in hand and the preprocessed queue hold slots. */
  lemma LiveTensors(c: Config, s: State)
    requires ValidConfig(c) && PlacesInv(c, s) && s.pre.PreAcquire?
    ensures |s.leased| <= c.stageQueueCapacity + c.maxBatchSize
  {
    var hand := Elements(LeaseHand(s.batch));
    ElementsCard(LeaseHand(s.batch));
    var queued := s.leased - hand;
    assert |LeaseHand(s.batch)| <= c.maxBatchSize;
    assert hand !! queued;
    IntervalCard(queued, Taken(s), Taken(s) + |s.preprocessQueue.items|);
    assert s.leased <= hand + queued;
    SubsetCard(s.leased, hand + queued);
  }

  lemma SubsetCard(xs: set<nat>, ys: set<nat>)
    requires xs <= ys
    ensures |xs| <= |ys|
  {
    assert ys == xs + (ys - xs);
  }

  // ---------------------------------------------------------------- what travels is right

  ghost predicate GivenOk(c: Config, s: State, id: nat, prepared: Result<Prepared>) {
    id < |s.packets| &&
    (Gives(c.stages, PoolIsEnough(c), s.packets[id], prepared) || (prepared == CancelledResult() && IsCancelled(s, id)))
  }

  /** A queued result is the one that was recorded. */
  ghost predicate WasGiven(s: State, id: nat, prepared: Result<Prepared>) {
    id < |s.given| && s.given[id] == prepared
  }

  /** Members were prepared, and their check saw no cancellation. */
  ghost predicate MemberOk(c: Config, s: State, m: Member) {
    && m.id < |s.packets| && c.stages.preprocess(s.packets[m.id]) == Ok(m.prepared)
    && WasGiven(s, m.id, Ok(m.prepared)) && m.id < |s.verdicts| && !s.verdicts[m.id]
  }

  ghost predicate MembersOk(c: Config, s: State, members: seq<Member>) {
    forall i :: 0 <= i < |members| ==> MemberOk(c, s, members[i])
  }

  /** Member `j` of a batch gets the batch's failure, or output `j` postprocessed. */
  ghost predicate IsBatchAnswer(c: Config, members: seq<Member>, j: nat, r: Result<Answer>) {
    var outputs := c.stages.inferBatch(Inputs(members));
    if outputs.Err? then r == Err(outputs.status)
    else j < |outputs.value| && r == c.stages.postprocess(outputs.value[j])
  }

  ghost predicate AnsweredAt(c: Config, batches: seq<seq<Member>>, b: nat, j: nat, id: nat, r: Result<Answer>) {
    b < |batches| && j < |batches[b]| && batches[b][j].id == id && IsBatchAnswer(c, batches[b], j, r)
  }

  /** What a task that the batching thread has examined may be given. */
  ghost predicate DoneOk(c: Config, s: State, id: nat, r: Result<Answer>) {
    && id < |s.packets| && id < |s.verdicts| && id < |s.given|
    && if s.verdicts[id] then r == CancelledResult()
       else if s.given[id].Err? then r == s.given[id].PropagateErr()
       else exists b: nat, j: nat :: AnsweredAt(c, s.batches, b, j, id, r)
  }

  ghost predicate DoneQueueOk(c: Config, s: State, q: seq<Completion>) {
    forall i :: 0 <= i < |q| ==> DoneOk(c, s, q[i].id, q[i].result)
  }

  ghost predicate PreparedQueueOk(s: State, q: seq<PreprocessedTask>) {
    forall i :: 0 <= i < |q| ==> WasGiven(s, q[i].id, q[i].prepared)
  }

  ghost predicate PreHandOk(c: Config, s: State, t: PreprocessThread) {
    && (t.PreRecheck? ==> GivenOk(c, s, t.id, t.prepared))
    && (t.PrePush? ==> WasGiven(s, t.id, t.prepared))
  }

  /** The record is right; where the batching thread's check saw no cancellation, none is recorded either. */
  ghost predicate RecordOk(c: Config, s: State) {
    && |s.given| <= |s.packets| && |s.verdicts| <= |s.given|
    && (forall id :: 0 <= id < |s.given| ==> GivenOk(c, s, id, s.given[id]))
    && (forall id :: 0 <= id < |s.verdicts| && !s.verdicts[id] ==>
         Gives(c.stages, PoolIsEnough(c), s.packets[id], s.given[id]))
  }

  /** `members` is the batch that reached inference last. */
  ghost predicate JustInferred(s: State, members: seq<Member>) {
    s.batches != [] && s.batches[|s.batches| - 1] == members
  }

  ghost predicate BatchHandOk(c: Config, s: State, t: BatchThread) {
    match t
    case Collect(members) => MembersOk(c, s, members)
    case Examine(id, prepared, members) =>
      WasGiven(s, id, prepared) && id == |s.verdicts| && MembersOk(c, s, members)
    case Early(id, r, members) => DoneOk(c, s, id, r) && MembersOk(c, s, members)
    case GotNothing(members) => MembersOk(c, s, members)
    case Infer(members, _) => MembersOk(c, s, members)
    case FailMembers(members, _, status, _) =>
      MembersOk(c, s, members) && JustInferred(s, members) && c.stages.inferBatch(Inputs(members)) == Err(status)
    case Postprocess(members, _, outputs, _) =>
      MembersOk(c, s, members) && JustInferred(s, members) && c.stages.inferBatch(Inputs(members)) == Ok(outputs)
    case PushResult(members, index, outputs, r, _) =>
      && MembersOk(c, s, members) && JustInferred(s, members) && c.stages.inferBatch(Inputs(members)) == Ok(outputs)
      && index < |outputs| && r == c.stages.postprocess(outputs[index])
    case _ => true
  }

  ghost predicate FlowInv(c: Config, s: State) {
    && PreHandOk(c, s, s.pre)
    && PreparedQueueOk(s, s.preprocessQueue.items)
    && RecordOk(c, s)
    && |s.given| == Taken(s) + |s.preprocessQueue.items| + One(s.pre.PrePush?)
    && BatchHandOk(c, s, s.batch)
    && |s.verdicts| == Taken(s) - One(s.batch.Examine?)
    && DoneQueueOk(c, s, s.postprocessQueue.items)
    && (s.post.PostDispatch? ==> DoneOk(c, s, s.post.id, s.post.result))
    && DoneQueueOk(c, s, s.completions.items)
    && (DispHolds(s.disp) ==> DoneOk(c, s, s.disp.id, s.disp.result))
  }

  // ---------------------------------------------------------------- frames

  ghost predicate Later(s: State, t: State) {
    && s.packets <= t.packets && s.given <= t.given && s.verdicts <= t.verdicts && s.batches <= t.batches
    && (forall id :: IsCancelled(s, id) ==> IsCancelled(t, id))
  }

  lemma DoneLater(c: Config, s: State, t: State, id: nat, r: Result<Answer>)
    requires Later(s, t) && DoneOk(c, s, id, r)
    ensures DoneOk(c, t, id, r)
  {
    if !s.verdicts[id] && s.given[id].Ok? {
      var b: nat, j: nat :| AnsweredAt(c, s.batches, b, j, id, r);
      assert AnsweredAt(c, t.batches, b, j, id, r);
    }
  }

  lemma DoneQueueLater(c: Config, s: State, t: State, q: seq<Completion>)
    requires Later(s, t) && DoneQueueOk(c, s, q)
    ensures DoneQueueOk(c, t, q)
  {
    forall i | 0 <= i < |q|
      ensures DoneOk(c, t, q[i].id, q[i].result)
    {
      DoneLater(c, s, t, q[i].id, q[i].result);
    }
  }

  lemma MembersLater(c: Config, s: State, t: State, members: seq<Member>)
    requires Later(s, t) && MembersOk(c, s, members)
    ensures MembersOk(c, t, members)
  {
    forall i | 0 <= i < |members|
      ensures MemberOk(c, t, members[i])
    {
      assert MemberOk(c, s, members[i]);
    }
  }

  lemma BatchHandLater(c: Config, s: State, t: State, h: BatchThread)
    requires Later(s, t) && BatchHandOk(c, s, h) && t.batches == s.batches && t.verdicts == s.verdicts
    ensures BatchHandOk(c, t, h)
  {
    if h.Early? { DoneLater(c, s, t, h.id, h.result); }
    if !h.BatchClose? && !h.BatchDone? { MembersLater(c, s, t, h.members); }
  }

  lemma PreparedQueueLater(s: State, t: State, q: seq<PreprocessedTask>)
    requires Later(s, t) && PreparedQueueOk(s, q)
    ensures PreparedQueueOk(t, q)
  {
  }

  lemma RecordLater(c: Config, s: State, t: State)
    requires Later(s, t) && RecordOk(c, s) && t.given == s.given && t.verdicts == s.verdicts
    ensures RecordOk(c, t)
  {
    forall id | 0 <= id < |t.given|
      ensures GivenOk(c, t, id, t.given[id])
    {
      assert GivenOk(c, s, id, s.given[id]);
    }
    forall id | 0 <= id < |t.verdicts| && !t.verdicts[id]
      ensures Gives(c.stages, PoolIsEnough(c), t.packets[id], t.given[id])
    {
      assert Gives(c.stages, PoolIsEnough(c), s.packets[id], s.given[id]);
    }
  }

  /** Everything that travels stays right in a later state. */
  lemma FlowLater(c: Config, s: State, t: State)
    requires Later(s, t) && FlowInv(c, s)
    ensures PreHandOk(c, t, s.pre) && PreparedQueueOk(t, s.preprocessQueue.items)
    ensures t.given == s.given && t.verdicts == s.verdicts ==> RecordOk(c, t)
    ensures t.batches == s.batches && t.verdicts == s.verdicts ==> BatchHandOk(c, t, s.batch)
    ensures DoneQueueOk(c, t, s.postprocessQueue.items) && DoneQueueOk(c, t, s.completions.items)
    ensures s.post.PostDispatch? ==> DoneOk(c, t, s.post.id, s.post.result)
    ensures DispHolds(s.disp) ==> DoneOk(c, t, s.disp.id, s.disp.result)
  {
    PreparedQueueLater(s, t, s.preprocessQueue.items);
    if t.given == s.given && t.verdicts == s.verdicts { RecordLater(c, s, t); }
    DoneQueueLater(c, s, t, s.postprocessQueue.items);
    DoneQueueLater(c, s, t, s.completions.items);
    if t.batches == s.batches && t.verdicts == s.verdicts { BatchHandLater(c, s, t, s.batch); }
    if s.post.PostDispatch? { DoneLater(c, s, t, s.post.id, s.post.result); }
    if DispHolds(s.disp) { DoneLater(c, s, t, s.disp.id, s.disp.result); }
  }

  // ---------------------------------------------------------------- the preprocessing thread

  lemma PreIsLater(c: Config, s: State)
    requires PreReady(s)
    ensures Later(s, PreNext(c, s)) && PreNext(c, s).verdicts == s.verdicts && PreNext(c, s).batches == s.batches
    ensures PreNext(c, s).packets == s.packets
  {
    PreTouches(c, s);
  }

  lemma PreKeepsItsHand(c: Config, s: State)
    requires PreReady(s) && PreHandOk(c, s, s.pre)
    requires s.pre.PreAcquire? && |s.leased| >= c.poolSize ==> !PoolIsEnough(c)
    requires s.pre.PreRecheck? ==> s.pre.id == |s.given|
    requires PreHolds(s.pre) ==> s.pre.id < |s.packets|
    ensures PreHandOk(c, PreNext(c, s), PreNext(c, s).pre)
  {
    if s.pre.PreAcquire? || s.pre.PreRun? || s.pre.PreRecheck? {
      PreCallKeepsItsHand(c, s);
    } else {
      PreMoveKeepsItsHand(c, s);
    }
  }

  lemma PreCallKeepsItsHand(c: Config, s: State)
    requires PreReady(s) && PreHandOk(c, s, s.pre) && (s.pre.PreAcquire? || s.pre.PreRun? || s.pre.PreRecheck?)
    requires s.pre.PreAcquire? && |s.leased| >= c.poolSize ==> !PoolIsEnough(c)
    requires s.pre.PreRecheck? ==> s.pre.id == |s.given|
    requires s.pre.id < |s.packets|
    ensures PreHandOk(c, PreNext(c, s), PreNext(c, s).pre)
  {
    match s.pre
    case PreAcquire(_) =>
    case PreRun(_) =>
    case PreRecheck(_, _) =>
  }

  lemma PreMoveKeepsItsHand(c: Config, s: State)
    requires PreReady(s) && PreHandOk(c, s, s.pre) && !(s.pre.PreAcquire? || s.pre.PreRun? || s.pre.PreRecheck?)
    requires PreHolds(s.pre) ==> s.pre.id < |s.packets|
    ensures PreHandOk(c, PreNext(c, s), PreNext(c, s).pre)
  {
  }

  lemma PreQueues(c: Config, s: State)
    requires PreReady(s)
    ensures
      var q := PreNext(c, s).preprocessQueue.items;
      q == s.preprocessQueue.items ||
      (s.pre.PrePush? && q == s.preprocessQueue.items + [PreprocessedTask(s.pre.id, s.pre.prepared)])
  {
  }

  /** The second check is where a result is recorded. */
  lemma PreRecords(c: Config, s: State)
    requires PreReady(s)
    ensures
      var t := PreNext(c, s);
      if s.pre.PreRecheck? then
        t.pre.PrePush? && t.pre.id == s.pre.id && t.given == s.given + [t.pre.prepared]
        && t.pre.prepared == if IsCancelled(s, s.pre.id) then CancelledResult() else s.pre.prepared
      else t.given == s.given
  {
  }

  lemma PreKeepsRecord(c: Config, s: State)
    requires PreReady(s) && RecordOk(c, s) && PreHandOk(c, s, s.pre)
    requires s.pre.PreRecheck? ==> s.pre.id == |s.given|
    ensures RecordOk(c, PreNext(c, s))
  {
    PreIsLater(c, s);
    PreRecords(c, s);
    if !s.pre.PreRecheck? { RecordLater(c, s, PreNext(c, s)); }
  }

  lemma PreKeepsFlow(c: Config, s: State)
    requires ValidConfig(c) && PlacesInv(c, s) && FlowInv(c, s) && PreReady(s)
    ensures FlowInv(c, PreNext(c, s))
  {
    if s.pre.PreAcquire? { LiveTensors(c, s); }
    PreIsLater(c, s);
    FlowLater(c, s, PreNext(c, s));
    PreKeepsItsHand(c, s);
    PreKeepsRecord(c, s);
    PreKeepsRecordLength(c, s);
    PreLeavesBehind(c, s);
    PreKeepsFront(c, s);
    PreQueues(c, s);
    if s.pre.PrePush? { PreHandLater(c, s, PreNext(c, s), s.pre); }
  }

  lemma PreKeepsRecordLength(c: Config, s: State)
    requires PlacesInv(c, s) && FlowInv(c, s) && PreReady(s)
    ensures
      var t := PreNext(c, s);
      |t.given| == Taken(t) + |t.preprocessQueue.items| + One(t.pre.PrePush?)
  {
    PreKeepsFront(c, s);
    PreRecords(c, s);
    PreQueues(c, s);
    PrePushes(c, s);
  }

  lemma PrePushes(c: Config, s: State)
    requires ControlInv(c, s) && FrontInv(s) && PreReady(s)
    ensures PreNext(c, s).pre.PrePush? <==> s.pre.PreRecheck?
    ensures |PreNext(c, s).preprocessQueue.items| == |s.preprocessQueue.items| + One(s.pre.PrePush?)
  {
    match s.pre
    case PreWaiting =>
    case PreTaken(_) =>
    case PreCheck(_) =>
    case PreAcquire(_) =>
    case PreRun(_) =>
    case PreRecheck(_, _) =>
    case PrePush(_, _) =>
    case PreClose =>
  }

  lemma PreHandLater(c: Config, s: State, t: State, h: PreprocessThread)
    requires Later(s, t) && PreHandOk(c, s, h)
    ensures PreHandOk(c, t, h)
  {
  }

  // ---------------------------------------------------------------- the batching thread

  lemma BatchIsLater(c: Config, s: State)
    requires BatchReady(s)
    ensures Later(s, BatchNext(c, s))
  {
    BatchTouches(c, s);
  }

  /** The check of a fresh task: its verdict, and where it goes. */
  lemma ExamineIsRight(c: Config, s: State)
    requires FlowInv(c, s) && BatchReady(s) && s.batch.Examine?
    ensures BatchHandOk(c, BatchNext(c, s), BatchNext(c, s).batch)
  {
    BatchIsLater(c, s);
    MembersLater(c, s, BatchNext(c, s), s.batch.members);
  }

  lemma InferIsRight(c: Config, s: State)
    requires FlowInv(c, s) && BatchReady(s) && s.batch.Infer?
    ensures BatchHandOk(c, BatchNext(c, s), BatchNext(c, s).batch)
  {
    BatchIsLater(c, s);
    MembersLater(c, s, BatchNext(c, s), s.batch.members);
  }

  lemma OthersAreRight(c: Config, s: State)
    requires BatchHandOk(c, s, s.batch) && PreparedQueueOk(s, s.preprocessQueue.items) && BatchReady(s)
    requires !s.batch.Examine? && !s.batch.Infer?
    requires s.batch.Postprocess? ==> s.batch.index <= |s.batch.outputs| == |s.batch.members|
    requires Pops(s) ==> s.preprocessQueue.items[0].id == |s.verdicts|
    ensures BatchHandOk(c, BatchNext(c, s), BatchNext(c, s).batch)
  {
    if s.batch.Collect? || s.batch.Early? || s.batch.GotNothing? {
      CollectingIsRight(c, s);
    } else {
      EmittingIsRight(c, s);
    }
  }

  lemma CollectingIsRight(c: Config, s: State)
    requires BatchHandOk(c, s, s.batch) && PreparedQueueOk(s, s.preprocessQueue.items) && BatchReady(s)
    requires s.batch.Collect? || s.batch.Early? || s.batch.GotNothing?
    requires Pops(s) ==> s.preprocessQueue.items[0].id == |s.verdicts|
    ensures BatchHandOk(c, BatchNext(c, s), BatchNext(c, s).batch)
  {
    BatchIsLater(c, s);
    MembersLater(c, s, BatchNext(c, s), s.batch.members);
  }

  lemma EmittingIsRight(c: Config, s: State)
    requires BatchHandOk(c, s, s.batch) && BatchReady(s)
    requires s.batch.FailMembers? || s.batch.Postprocess? || s.batch.PushResult? || s.batch.BatchClose?
    requires s.batch.Postprocess? ==> s.batch.index <= |s.batch.outputs| == |s.batch.members|
    ensures BatchHandOk(c, BatchNext(c, s), BatchNext(c, s).batch)
  {
    BatchIsLater(c, s);
    if !s.batch.BatchClose? {
      MembersLater(c, s, BatchNext(c, s), s.batch.members);
    }
  }

  lemma BatchKeepsItsFlow(c: Config, s: State)
    requires FrontInv(s) && ControlInv(c, s) && FlowInv(c, s) && BatchReady(s)
    ensures BatchHandOk(c, BatchNext(c, s), BatchNext(c, s).batch)
  {
    if s.batch.Examine? {
      ExamineIsRight(c, s);
    } else if s.batch.Infer? {
      InferIsRight(c, s);
    } else {
      OthersAreRight(c, s);
    }
  }

  /** Each hand-over passes on a right answer. */
  lemma HandOverIsRight(c: Config, s: State)
    requires ControlInv(c, s) && BatchHandOk(c, s, s.batch) && HandsOver(s.batch)
    ensures s.batch.Early? ==> DoneOk(c, s, s.batch.id, s.batch.result)
    ensures s.batch.PushResult? ==> DoneOk(c, s, s.batch.members[s.batch.index].id, s.batch.result)
    ensures s.batch.FailMembers? ==> DoneOk(c, s, s.batch.members[s.batch.index].id, Err(s.batch.status))
  {
    if !s.batch.Early? {
      var r := if s.batch.PushResult? then s.batch.result else Err(s.batch.status);
      var m := s.batch.members[s.batch.index];
      assert MemberOk(c, s, m);
      assert AnsweredAt(c, s.batches, |s.batches| - 1, s.batch.index, m.id, r);
    }
  }

  /** A step of the batching thread appends at most what it holds, and to one queue only. */
  ghost predicate Emits(s: State, t: State) {
    && t.post == s.post && t.disp == s.disp && t.pre == s.pre
    && (t.postprocessQueue.items == s.postprocessQueue.items ||
        (s.batch.PushResult? && s.batch.index < |s.batch.members| &&
         t.postprocessQueue.items
         == s.postprocessQueue.items + [Completion(s.batch.members[s.batch.index].id, s.batch.result)]))
    && (t.completions.items == s.completions.items ||
        (s.batch.Early? && t.completions.items == s.completions.items + [Completion(s.batch.id, s.batch.result)]) ||
        (s.batch.FailMembers? && s.batch.index < |s.batch.members| &&
         t.completions.items
         == s.completions.items + [Completion(s.batch.members[s.batch.index].id, Err(s.batch.status))]))
  }

  lemma BatchQueues(c: Config, s: State)
    requires BatchReady(s)
    ensures Emits(s, BatchNext(c, s))
  {
    if HandsOver(s.batch) {
      HandOverEmits(c, s);
    } else {
      BatchLeavesOthers(c, s);
      BatchLeavesPre(c, s);
    }
  }

  lemma HandOverEmits(c: Config, s: State)
    requires BatchReady(s) && HandsOver(s.batch)
    ensures Emits(s, BatchNext(c, s))
  {
  }

  lemma BatchLeavesPre(c: Config, s: State)
    requires BatchReady(s)
    ensures BatchNext(c, s).pre == s.pre && BatchNext(c, s).packets == s.packets && BatchNext(c, s).given == s.given
  {
    BatchTouches(c, s);
  }

  lemma BatchTakes(c: Config, s: State)
    requires BatchReady(s)
    ensures BatchNext(c, s).preprocessQueue.items ==
            if Pops(s) then s.preprocessQueue.items[1..] else s.preprocessQueue.items
  {
  }

  lemma BatchVerdicts(c: Config, s: State)
    requires BatchReady(s)
    ensures |BatchNext(c, s).verdicts| == |s.verdicts| + One(s.batch.Examine?)
    ensures BatchNext(c, s).batch.Examine? <==> Pops(s)
    ensures Pops(s) ==> !s.batch.Examine?
  {
    match s.batch
    case Collect(_) =>
    case Examine(_, _, _) =>
    case Early(_, _, _) =>
    case GotNothing(_) =>
    case Infer(_, _) =>
    case FailMembers(_, _, _, _) =>
    case Postprocess(_, _, _, _) =>
    case PushResult(_, _, _, _, _) =>
    case BatchClose =>
  }

  /** The verdict of a check that saw no cancellation is about a result that records none. */
  lemma BatchKeepsRecord(c: Config, s: State)
    requires FlowInv(c, s) && BatchReady(s)
    ensures RecordOk(c, BatchNext(c, s)) && BatchNext(c, s).given == s.given
  {
    BatchIsLater(c, s);
    if s.batch.Examine? {
      assert GivenOk(c, s, s.batch.id, s.given[s.batch.id]);
    } else {
      BatchKeepsVerdicts(c, s);
      RecordLater(c, s, BatchNext(c, s));
    }
  }

  lemma BatchKeepsVerdicts(c: Config, s: State)
    requires BatchReady(s) && !s.batch.Examine?
    ensures BatchNext(c, s).verdicts == s.verdicts && BatchNext(c, s).given == s.given
  {
  }

  lemma BatchKeepsFlow(c: Config, s: State)
    requires PlacesInv(c, s) && FlowInv(c, s) && BatchReady(s)
    ensures FlowInv(c, BatchNext(c, s))
  {
    var t := BatchNext(c, s);
    BatchIsLater(c, s);
    FlowLater(c, s, t);
    BatchKeepsItsFlow(c, s);
    BatchKeepsRecord(c, s);
    BatchQueues(c, s);
    BatchTakes(c, s);
    BatchVerdicts(c, s);
    if Pops(s) { BatchPops(c, s); } else { BatchKeepsFront(c, s); }
    if HandsOver(s.batch) { HandOverStaysRight(c, s, t); }
  }

  lemma HandOverStaysRight(c: Config, s: State, t: State)
    requires ControlInv(c, s) && BatchHandOk(c, s, s.batch) && HandsOver(s.batch) && Later(s, t)
    ensures s.batch.Early? ==> DoneOk(c, t, s.batch.id, s.batch.result)
    ensures s.batch.PushResult? ==> DoneOk(c, t, s.batch.members[s.batch.index].id, s.batch.result)
    ensures s.batch.FailMembers? ==> DoneOk(c, t, s.batch.members[s.batch.index].id, Err(s.batch.status))
  {
    HandOverIsRight(c, s);
    var id := if s.batch.Early? then s.batch.id else s.batch.members[s.batch.index].id;
    DoneLater(c, s, t, id, if s.batch.FailMembers? then Err(s.batch.status) else s.batch.result);
  }

  // ---------------------------------------------------------------- the other threads

  lemma PostLeavesTheRest(s: State)
    requires PostReady(s)
    ensures
      var t := PostNext(s);
      && t == s.(post := t.post, completions := t.completions, postprocessQueue := t.postprocessQueue)
      && (t.postprocessQueue.items == s.postprocessQueue.items ||
          (s.postprocessQueue.CanPop() && t.postprocessQueue.items == s.postprocessQueue.items[1..]))
      && (t.completions.items == s.completions.items ||
          (s.post.PostDispatch? && t.completions.items == s.completions.items + [Completion(s.post.id, s.post.result)]))
      && (t.post.PostDispatch? ==> s.postprocessQueue.CanPop() && t.post.id == s.postprocessQueue.items[0].id &&
                                   t.post.result == s.postprocessQueue.items[0].result)
  {
  }

  lemma PostKeepsFlow(c: Config, s: State)
    requires FrontInv(s) && FlowInv(c, s) && PostReady(s)
    ensures FlowInv(c, PostNext(s))
  {
    PostLeavesTheRest(s);
    FlowLater(c, s, PostNext(s));
    SameFrontKept(s, PostNext(s));
    if s.post.PostDispatch? { DoneLater(c, s, PostNext(s), s.post.id, s.post.result); }
    if s.postprocessQueue.CanPop() {
      DoneLater(c, s, PostNext(s), s.postprocessQueue.items[0].id, s.postprocessQueue.items[0].result);
    }
  }

  lemma DispIsLater(s: State)
    requires DispReady(s)
    ensures Later(s, DispNext(s))
  {
  }

  lemma DispLeavesTheRest(s: State)
    requires DispReady(s)
    ensures
      var t := DispNext(s);
      && t == s.(disp := t.disp, completions := t.completions, tasks := t.tasks, delivered := t.delivered)
      && |t.tasks| == |s.tasks|
      && (t.completions.items == s.completions.items ||
          (s.completions.CanPop() && t.completions.items == s.completions.items[1..]))
      && (DispHolds(t.disp) ==>
            if s.disp.DispPop? then s.completions.CanPop() && t.disp.id == s.completions.items[0].id &&
                t.disp.result == s.completions.items[0].result
            else DispHolds(s.disp) && t.disp.id == s.disp.id && t.disp.result == s.disp.result)
  {
  }

  lemma DispKeepsFlow(c: Config, s: State)
    requires FrontInv(s) && FlowInv(c, s) && DispReady(s)
    ensures FlowInv(c, DispNext(s))
  {
    DispIsLater(s);
    DispLeavesTheRest(s);
    FlowLater(c, s, DispNext(s));
    SameFrontKept(s, DispNext(s));
  }

  lemma TimeoutKeepsFlow(c: Config, s: State, inside: bool)
    requires FrontInv(s) && FlowInv(c, s) && Enabled(c, s, FlushTimeout(inside))
    ensures FlowInv(c, TimeoutNext(s, inside))
  {
    FlowLater(c, s, TimeoutNext(s, inside));
    SameFrontKept(s, TimeoutNext(s, inside));
  }

  lemma OutsideIsLater(c: Config, s: State, a: Action)
    requires Outside(a) && Enabled(c, s, a) && |s.packets| == |s.tasks|
    ensures Later(s, Next(c, s, a))
    ensures Next(c, s, a).verdicts == s.verdicts && Next(c, s, a).batches == s.batches && Next(c, s, a).given == s.given
  {
  }

  lemma OutsideKeepsFlow(c: Config, s: State, a: Action)
    requires FrontInv(s) && FlowInv(c, s) && Outside(a) && Enabled(c, s, a)
    ensures FlowInv(c, Next(c, s, a))
  {
    OutsideIsLater(c, s, a);
    OutsideLeavesBehind(c, s, a);
    OutsideKeepsFront(c, s, a);
    FlowLater(c, s, Next(c, s, a));
  }

  lemma StepKeepsFlow(c: Config, s: State, a: Action)
    requires ValidConfig(c) && PlacesInv(c, s) && FlowInv(c, s) && Enabled(c, s, a)
    ensures FlowInv(c, Next(c, s, a))
  {
    if a.PreStep? {
      PreKeepsFlow(c, s);
    } else if a.BatchStep? {
      BatchKeepsFlow(c, s);
    } else if a.PostStep? {
      PostKeepsFlow(c, s);
    } else if a.DispStep? {
      DispKeepsFlow(c, s);
    } else if a.FlushTimeout? {
      TimeoutKeepsFlow(c, s, a.insidePopFor);
    } else {
      OutsideKeepsFlow(c, s, a);
    }
  }
}
