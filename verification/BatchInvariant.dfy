/** Where the tasks of the batch executor are, in every reachable state. */
module BatchInvariant {
  import opened Core
  import opened Stages
  import opened Tasks
  import opened BoundedFifo
  import opened ExecutorParts
  import opened BatchExecutor

  // ---------------------------------------------------------------- the census

  ghost function PreHandSize(s: State): nat { One(PreHolds(s.pre)) }

  /** How many tasks the batching thread has taken from the preprocessed queue. */
  ghost function Taken(s: State): int { |s.packets| - |s.entry| - PreHandSize(s) - |s.preprocessQueue.items| }

  /** Up to the preprocessed queue tasks are still in line: Taken, Taken + 1, ... */
  ghost predicate FrontInv(s: State) {
    && |s.packets| == |s.tasks|
    && Taken(s) >= 0
    && (forall i :: 0 <= i < |s.preprocessQueue.items| ==> s.preprocessQueue.items[i].id == Taken(s) + i)
    && (PreHolds(s.pre) ==> s.pre.id == Taken(s) + |s.preprocessQueue.items|)
    && (forall i :: 0 <= i < |s.entry| ==> s.entry[i] == |s.packets| - |s.entry| + i)
  }

  ghost function BatchHand(t: BatchThread): seq<nat> {
    match t
    case Collect(members) => MemberIds(members)
    case Examine(id, _, members) => MemberIds(members) + [id]
    case Early(id, _, members) => MemberIds(members) + [id]
    case GotNothing(members) => MemberIds(members)
    case Infer(members, _) => MemberIds(members)
    case FailMembers(members, index, _, _) => From(MemberIds(members), index)
    case Postprocess(members, index, _, _) => From(MemberIds(members), index)
    case PushResult(members, index, _, _, _) => From(MemberIds(members), index)
    case _ => []
  }

  ghost function From(ids: seq<nat>, index: nat): seq<nat> { if index <= |ids| then ids[index..] else [] }

  ghost function PostHand(t: PostThread): seq<nat> { if t.PostDispatch? then [t.id] else [] }

  ghost function Occurs(ids: seq<nat>, id: nat): nat {
    if ids == [] then 0 else (if ids[0] == id then 1 else 0) + Occurs(ids[1..], id)
  }

  /** How often a task occurs behind the preprocessed queue, all places together. */
  ghost function Census(s: State, id: nat): nat {
    Occurs(BatchHand(s.batch), id) + Occurs(CompletionIds(s.postprocessQueue.items), id) + Occurs(PostHand(s.post), id)
    + Occurs(CompletionIds(s.completions.items), id) + Occurs(DispHand(s.disp), id) + Occurs(s.delivered, id)
  }

  /** Every task that left the line is in exactly one place, once. */
  ghost predicate CensusInv(s: State) {
    forall id: nat :: Census(s, id) == if id < Taken(s) then 1 else 0
  }

  // ---------------------------------------------------------------- control and leases

  ghost predicate BatchSizesInv(c: Config, t: BatchThread) {
    match t
    case Collect(members) => |members| < c.maxBatchSize
    case Examine(_, _, members) => |members| < c.maxBatchSize
    case Early(_, _, members) => |members| < c.maxBatchSize
    case GotNothing(members) => 0 < |members| < c.maxBatchSize
    case Infer(members, _) => 0 < |members| <= c.maxBatchSize
    case FailMembers(members, index, _, _) => index <= |members|
    case Postprocess(members, index, outputs, _) => index <= |members| == |outputs|
    case PushResult(members, index, outputs, _, _) => index < |members| == |outputs|
    case _ => true
  }

  ghost predicate EndsAfter(t: BatchThread) {
    t.BatchClose? || t.BatchDone? ||
    ((t.Infer? || t.FailMembers? || t.Postprocess? || t.PushResult?) && t.last)
  }

  ghost predicate ControlInv(c: Config, s: State) {
    && s.preprocessQueue.capacity == s.postprocessQueue.capacity == s.completions.capacity == c.stageQueueCapacity
    && |s.preprocessQueue.items| <= c.stageQueueCapacity
    && |s.entry| <= c.queueCapacity
    && (|s.tasks| > 0 || |s.blocked| > 0 ==> c.queueCapacity > 0 && c.stageQueueCapacity > 0)
    && s.accepting == !s.stopRequested
    && (s.pre.PreClose? || s.pre.PreDone? ==> s.stopRequested && s.entry == [])
    && (s.preprocessQueue.closed <==> s.pre.PreDone?)
    && BatchSizesInv(c, s.batch)
    && (EndsAfter(s.batch) ==> s.preprocessQueue.closed)
    && (s.postprocessQueue.closed <==> s.batch.BatchDone?)
    && (s.post.PostDone? ==> s.postprocessQueue.Drained())
    && (s.completions.closed <==> s.waiter.JoiningDispatcher? || s.waiter.WaitReturned?)
    && (s.completions.closed ==> s.post.PostDone? && s.batch.BatchDone?)
    && (s.disp.DispDone? ==> s.completions.Drained())
    && (s.waiter.WaitReturned? ==> s.disp.DispDone?)
    && (!s.waiter.NotWaiting? ==> s.stopRequested)
    && (forall b :: 0 <= b < |s.batches| ==> 0 < |s.batches[b]| <= c.maxBatchSize)
  }

  /** The tasks of the batching thread whose input tensors are alive. */
  ghost function LeaseHand(t: BatchThread): seq<nat> {
    if t.Collect? || t.Examine? || t.Early? || t.GotNothing? || t.Infer? then BatchHand(t) else []
  }

  ghost predicate LeaseInv(s: State) {
    && (forall id :: id in s.leased ==>
          id in LeaseHand(s.batch) || Taken(s) <= id < Taken(s) + |s.preprocessQueue.items| + PreHandSize(s))
    && (s.pre.PreTaken? || s.pre.PreCheck? || s.pre.PreAcquire? ==> s.pre.id !in s.leased)
  }

  ghost predicate PromiseInv(s: State) {
    forall id :: 0 <= id < |s.tasks| ==> (s.tasks[id].promise.Some? <==> id in s.delivered)
  }

  ghost predicate PlacesInv(c: Config, s: State) {
    && FrontInv(s)
    && CensusInv(s)
    && ControlInv(c, s)
    && LeaseInv(s)
    && PromiseInv(s)
  }

  lemma InitInv(c: Config)
    requires ValidConfig(c)
    ensures PlacesInv(c, Init(c))
  {
  }

  // ---------------------------------------------------------------- counting

  lemma OccursAppend(ids: seq<nat>, x: nat, id: nat)
    ensures Occurs(ids + [x], id) == Occurs(ids, id) + (if x == id then 1 else 0)
  {
    if ids != [] {
      assert (ids + [x])[1..] == ids[1..] + [x];
      OccursAppend(ids[1..], x, id);
    } else {
      assert [x][1..] == [];
    }
  }

  lemma OccursMember(ids: seq<nat>, id: nat)
    ensures Occurs(ids, id) > 0 <==> id in ids
  {
    if ids != [] {
      OccursMember(ids[1..], id);
      assert id in ids <==> id == ids[0] || id in ids[1..];
    }
  }

  lemma IdsPush(q: seq<Completion>, x: Completion, id: nat)
    ensures Occurs(CompletionIds(q + [x]), id) == Occurs(CompletionIds(q), id) + (if x.id == id then 1 else 0)
  {
    assert CompletionIds(q + [x]) == CompletionIds(q) + [x.id];
    OccursAppend(CompletionIds(q), x.id, id);
  }

  lemma IdsPop(q: seq<Completion>, id: nat)
    requires q != []
    ensures Occurs(CompletionIds(q), id) == Occurs(CompletionIds(q[1..]), id) + (if q[0].id == id then 1 else 0)
  {
    assert CompletionIds(q)[1..] == CompletionIds(q[1..]);
  }

  lemma MemberIdsGrow(members: seq<Member>, m: Member)
    ensures MemberIds(members + [m]) == MemberIds(members) + [m.id]
  {
  }

  lemma FromNext(ids: seq<nat>, index: nat, id: nat)
    requires index < |ids|
    ensures Occurs(From(ids, index), id) == Occurs(From(ids, index + 1), id) + (if ids[index] == id then 1 else 0)
  {
    assert ids[index..][1..] == ids[index + 1..];
  }

  lemma OccursOne(x: nat, id: nat)
    ensures Occurs([x], id) == if x == id then 1 else 0
  {
    assert [x][1..] == [];
  }

  // ---------------------------------------------------------------- the census is kept

  /** The places behind the preprocessed queue are the same in both states. */
  ghost predicate SameBehind(s: State, t: State) {
    && t.batch == s.batch && t.postprocessQueue.items == s.postprocessQueue.items && t.post == s.post
    && t.completions.items == s.completions.items && t.disp == s.disp && t.delivered == s.delivered
  }

  /** So are the places in front of the batching thread. */
  ghost predicate SameFront(s: State, t: State) {
    && |t.packets| == |s.packets| && |t.tasks| == |s.tasks| && t.entry == s.entry
    && t.preprocessQueue.items == s.preprocessQueue.items
    && PreHolds(t.pre) == PreHolds(s.pre) && (PreHolds(s.pre) ==> t.pre.id == s.pre.id)
  }

  lemma SameFrontKept(s: State, t: State)
    requires FrontInv(s) && SameFront(s, t)
    ensures FrontInv(t) && Taken(t) == Taken(s)
  {
  }

  lemma SameBehindKept(s: State, t: State)
    requires CensusInv(s) && SameBehind(s, t) && Taken(t) == Taken(s)
    ensures CensusInv(t)
  {
    forall id: nat
      ensures Census(t, id) == Census(s, id)
    {
    }
  }

  /** What a step of the preprocessing thread may change. */
  ghost predicate OnlyPreSide(s: State, t: State) {
    && t == s.(pre := t.pre, entry := t.entry, tasks := t.tasks, leased := t.leased,
               preprocessQueue := t.preprocessQueue, given := t.given)
    && |t.tasks| == |s.tasks| && s.given <= t.given
    && forall id :: 0 <= id < |s.tasks| ==> SameFlags(s.tasks[id], t.tasks[id])
  }

  lemma PreTouches(c: Config, s: State)
    requires PreReady(s)
    ensures OnlyPreSide(s, PreNext(c, s))
  {
    if s.pre.PreWaiting? || s.pre.PreTaken? || s.pre.PreCheck? {
      PreStartTouches(c, s);
    } else if s.pre.PreAcquire? || s.pre.PreRun? {
      PreCallTouches(c, s);
    } else {
      PreEndTouches(c, s);
    }
  }

  lemma PreStartTouches(c: Config, s: State)
    requires PreReady(s) && (s.pre.PreWaiting? || s.pre.PreTaken? || s.pre.PreCheck?)
    ensures OnlyPreSide(s, PreNext(c, s))
  {
  }

  lemma PreCallTouches(c: Config, s: State)
    requires PreReady(s) && (s.pre.PreAcquire? || s.pre.PreRun?)
    ensures OnlyPreSide(s, PreNext(c, s))
  {
  }

  lemma PreEndTouches(c: Config, s: State)
    requires PreReady(s) && (s.pre.PreRecheck? || s.pre.PrePush? || s.pre.PreClose?)
    ensures OnlyPreSide(s, PreNext(c, s))
  {
  }

  /** What a step of the batching thread may change. */
  ghost predicate OnlyBatchFields(s: State, t: State) {
    && t == s.(batch := t.batch, preprocessQueue := t.preprocessQueue, postprocessQueue := t.postprocessQueue,
               completions := t.completions, leased := t.leased, verdicts := t.verdicts, batches := t.batches)
    && s.verdicts <= t.verdicts && s.batches <= t.batches
  }

  lemma BatchTouches(c: Config, s: State)
    requires BatchReady(s)
    ensures OnlyBatchFields(s, BatchNext(c, s))
  {
    if s.batch.Collect? || s.batch.Examine? || s.batch.Early? || s.batch.GotNothing? {
      CollectingTouches(c, s);
    } else {
      FlushingTouches(c, s);
    }
  }

  lemma CollectingTouches(c: Config, s: State)
    requires BatchReady(s) && (s.batch.Collect? || s.batch.Examine? || s.batch.Early? || s.batch.GotNothing?)
    ensures OnlyBatchFields(s, BatchNext(c, s))
  {
  }

  lemma FlushingTouches(c: Config, s: State)
    requires BatchReady(s) && !(s.batch.Collect? || s.batch.Examine? || s.batch.Early? || s.batch.GotNothing?)
    ensures OnlyBatchFields(s, BatchNext(c, s))
  {
  }

  lemma PreKeepsFront(c: Config, s: State)
    requires FrontInv(s) && ControlInv(c, s) && PreReady(s)
    ensures FrontInv(PreNext(c, s)) && Taken(PreNext(c, s)) == Taken(s)
  {
    if s.pre.PreWaiting? || s.pre.PrePush? || s.pre.PreClose? {
      PreMoves(c, s);
    } else {
      PreStays(c, s);
      SameFrontKept(s, PreNext(c, s));
    }
  }

  /** What the steps between taking a task and passing it on leave as it is. */
  ghost predicate StaysInHand(s: State, t: State) {
    && SameFront(s, t) && t.preprocessQueue == s.preprocessQueue && !t.pre.PreClose? && !t.pre.PreDone?
    && PreWork(t.pre, 16) < PreWork(s.pre, 16)
  }

  lemma PreStartStays(c: Config, s: State)
    requires PreReady(s) && (s.pre.PreTaken? || s.pre.PreCheck? || s.pre.PreAcquire?)
    ensures StaysInHand(s, PreNext(c, s))
  {
  }

  lemma PreEndStays(c: Config, s: State)
    requires PreReady(s) && (s.pre.PreRun? || s.pre.PreRecheck?)
    ensures StaysInHand(s, PreNext(c, s))
  {
  }

  lemma PreStays(c: Config, s: State)
    requires PreReady(s) && !s.pre.PreWaiting? && !s.pre.PrePush? && !s.pre.PreClose?
    ensures StaysInHand(s, PreNext(c, s))
  {
    if s.pre.PreTaken? || s.pre.PreCheck? || s.pre.PreAcquire? {
      PreStartStays(c, s);
    } else {
      PreEndStays(c, s);
    }
  }

  lemma PreMoves(c: Config, s: State)
    requires FrontInv(s) && ControlInv(c, s) && PreReady(s) && (s.pre.PreWaiting? || s.pre.PrePush? || s.pre.PreClose?)
    ensures FrontInv(PreNext(c, s)) && Taken(PreNext(c, s)) == Taken(s)
  {
  }

  lemma PreLeavesBehind(c: Config, s: State)
    requires PreReady(s)
    ensures SameBehind(s, PreNext(c, s))
  {
    PreTouches(c, s);
  }

  ghost predicate Pops(s: State) { s.batch.Collect? && s.preprocessQueue.CanPop() }

  lemma BatchPops(c: Config, s: State)
    requires FrontInv(s) && CensusInv(s) && Pops(s)
    ensures FrontInv(BatchNext(c, s)) && CensusInv(BatchNext(c, s)) && Taken(BatchNext(c, s)) == Taken(s) + 1
  {
    var t := BatchNext(c, s);
    forall id: nat
      ensures Census(t, id) == if id < Taken(t) then 1 else 0
    {
      assert Census(s, id) == if id < Taken(s) then 1 else 0;
      OccursAppend(BatchHand(s.batch), Taken(s), id);
    }
  }

  ghost predicate HandsOver(t: BatchThread) {
    t.Early? || t.PushResult? || (t.FailMembers? && t.index < |t.members|)
  }

  lemma BatchKeepsFront(c: Config, s: State)
    requires FrontInv(s) && BatchReady(s) && !Pops(s)
    ensures FrontInv(BatchNext(c, s)) && Taken(BatchNext(c, s)) == Taken(s)
  {
    BatchLeavesFront(c, s);
    SameFrontKept(s, BatchNext(c, s));
  }

  lemma BatchTakesNothing(c: Config, s: State)
    requires BatchReady(s) && !Pops(s)
    ensures BatchNext(c, s).preprocessQueue == s.preprocessQueue
  {
  }

  lemma BatchLeavesFront(c: Config, s: State)
    requires BatchReady(s) && !Pops(s)
    ensures SameFront(s, BatchNext(c, s))
  {
    BatchTouches(c, s);
    BatchTakesNothing(c, s);
  }

  /** Deciding, collecting, inferring and postprocessing move no task. */
  lemma BatchKeepsItsHand(c: Config, s: State)
    requires BatchSizesInv(c, s.batch) && BatchReady(s) && !Pops(s) && !HandsOver(s.batch)
    ensures BatchHand(BatchNext(c, s).batch) == BatchHand(s.batch)
  {
    if s.batch.Examine? {
      ExamineKeepsItsHand(c, s);
    } else {
      OthersKeepTheirHand(c, s);
    }
  }

  lemma ExamineKeepsItsHand(c: Config, s: State)
    requires BatchReady(s) && s.batch.Examine?
    ensures BatchHand(BatchNext(c, s).batch) == BatchHand(s.batch)
  {
    if s.batch.prepared.Ok? {
      MemberIdsGrow(s.batch.members, Member(s.batch.id, s.batch.prepared.value));
    }
  }

  lemma OthersKeepTheirHand(c: Config, s: State)
    requires BatchSizesInv(c, s.batch) && BatchReady(s) && !Pops(s) && !HandsOver(s.batch) && !s.batch.Examine?
    ensures BatchHand(BatchNext(c, s).batch) == BatchHand(s.batch)
  {
  }

  lemma BatchLeavesOthers(c: Config, s: State)
    requires BatchReady(s) && !HandsOver(s.batch)
    ensures
      var t := BatchNext(c, s);
      && t.postprocessQueue.items == s.postprocessQueue.items && t.post == s.post
      && t.completions.items == s.completions.items && t.disp == s.disp && t.delivered == s.delivered
  {
    match s.batch
    case Collect(_) =>
    case Examine(_, _, _) =>
    case GotNothing(_) =>
    case Infer(_, _) =>
    case FailMembers(_, _, _, _) =>
    case Postprocess(_, _, _, _) =>
    case BatchClose =>
  }

  lemma EarlyKeepsCensus(c: Config, s: State, id: nat)
    requires BatchReady(s) && s.batch.Early? && s.completions.CanPush()
    ensures Census(BatchNext(c, s), id) == Census(s, id)
  {
    IdsPush(s.completions.items, Completion(s.batch.id, s.batch.result), id);
    OccursAppend(MemberIds(s.batch.members), s.batch.id, id);
  }

  lemma FailKeepsCensus(c: Config, s: State, id: nat)
    requires BatchReady(s) && s.batch.FailMembers? && s.batch.index < |s.batch.members| && s.completions.CanPush()
    ensures Census(BatchNext(c, s), id) == Census(s, id)
  {
    IdsPush(s.completions.items, Completion(s.batch.members[s.batch.index].id, Err(s.batch.status)), id);
    FromNext(MemberIds(s.batch.members), s.batch.index, id);
  }

  lemma PushKeepsCensus(c: Config, s: State, id: nat)
    requires BatchReady(s) && s.batch.PushResult? && s.postprocessQueue.CanPush()
    ensures Census(BatchNext(c, s), id) == Census(s, id)
  {
    IdsPush(s.postprocessQueue.items, Completion(s.batch.members[s.batch.index].id, s.batch.result), id);
    FromNext(MemberIds(s.batch.members), s.batch.index, id);
  }

  lemma BatchKeepsCount(c: Config, s: State, id: nat)
    requires ControlInv(c, s) && BatchReady(s) && !Pops(s) && c.stageQueueCapacity > 0
    ensures Census(BatchNext(c, s), id) == Census(s, id)
  {
    if s.batch.Early? {
      EarlyKeepsCensus(c, s, id);
    } else if s.batch.PushResult? {
      PushKeepsCensus(c, s, id);
    } else if HandsOver(s.batch) {
      FailKeepsCensus(c, s, id);
    } else {
      BatchKeepsItsHand(c, s);
      BatchLeavesOthers(c, s);
    }
  }

  lemma BatchKeepsCensus(c: Config, s: State)
    requires FrontInv(s) && CensusInv(s) && ControlInv(c, s) && BatchReady(s) && !Pops(s) && c.stageQueueCapacity > 0
    ensures CensusInv(BatchNext(c, s))
  {
    BatchKeepsFront(c, s);
    forall id: nat
      ensures Census(BatchNext(c, s), id) == Census(s, id)
    {
      BatchKeepsCount(c, s, id);
    }
  }

  lemma PostKeepsCount(c: Config, s: State, id: nat)
    requires ControlInv(c, s) && PostReady(s) && (s.post.PostDispatch? ==> c.stageQueueCapacity > 0)
    ensures Census(PostNext(s), id) == Census(s, id)
  {
    if s.post.PostPop? && s.postprocessQueue.CanPop() {
      IdsPop(s.postprocessQueue.items, id);
      OccursOne(s.postprocessQueue.items[0].id, id);
    } else if s.post.PostDispatch? {
      IdsPush(s.completions.items, Completion(s.post.id, s.post.result), id);
      OccursOne(s.post.id, id);
    }
  }

  lemma DispKeepsCount(s: State, id: nat)
    requires DispReady(s)
    ensures Census(DispNext(s), id) == Census(s, id)
  {
    if s.disp.DispPop? && s.completions.CanPop() {
      IdsPop(s.completions.items, id);
      OccursOne(s.completions.items[0].id, id);
    } else if s.disp.DispPromise? {
      OccursAppend(s.delivered, s.disp.id, id);
      OccursOne(s.disp.id, id);
    }
  }

  /** Whoever is in the batching thread's hand was accepted, so the queues have room for it. */
  lemma HandMeansCapacity(c: Config, s: State)
    requires CensusInv(s) && FrontInv(s) && ControlInv(c, s) && (BatchHand(s.batch) != [] || s.post.PostDispatch?)
    ensures c.stageQueueCapacity > 0
  {
    var id := if s.post.PostDispatch? then s.post.id else BatchHand(s.batch)[0];
    OccursOne(id, id);
    OccursMember(BatchHand(s.batch), id);
    assert Census(s, id) == if id < Taken(s) then 1 else 0;
  }

  lemma BatchStepKeepsCensus(c: Config, s: State)
    requires FrontInv(s) && CensusInv(s) && ControlInv(c, s) && BatchReady(s)
    ensures FrontInv(BatchNext(c, s)) && CensusInv(BatchNext(c, s))
  {
    if Pops(s) {
      BatchPops(c, s);
    } else {
      BatchKeepsFront(c, s);
      if BatchHand(s.batch) != [] {
        HandMeansCapacity(c, s);
        BatchKeepsCensus(c, s);
      } else {
        EmptyHandKeepsCensus(c, s);
      }
    }
  }

  lemma EmptyHandKeepsCensus(c: Config, s: State)
    requires FrontInv(s) && CensusInv(s) && ControlInv(c, s) && BatchReady(s) && !Pops(s) && BatchHand(s.batch) == []
    ensures CensusInv(BatchNext(c, s))
  {
    BatchKeepsFront(c, s);
    BatchKeepsItsHand(c, s);
    BatchLeavesOthers(c, s);
    forall id: nat
      ensures Census(BatchNext(c, s), id) == Census(s, id)
    {
    }
  }

  lemma PostKeepsCensus(c: Config, s: State)
    requires FrontInv(s) && CensusInv(s) && ControlInv(c, s) && PostReady(s)
    ensures FrontInv(PostNext(s)) && CensusInv(PostNext(s))
  {
    SameFrontKept(s, PostNext(s));
    if s.post.PostDispatch? { HandMeansCapacity(c, s); }
    forall id: nat
      ensures Census(PostNext(s), id) == Census(s, id)
    {
      PostKeepsCount(c, s, id);
    }
  }

  lemma DispKeepsCensus(s: State)
    requires FrontInv(s) && CensusInv(s) && DispReady(s)
    ensures FrontInv(DispNext(s)) && CensusInv(DispNext(s))
  {
    SameFrontKept(s, DispNext(s));
    forall id: nat
      ensures Census(DispNext(s), id) == Census(s, id)
    {
      DispKeepsCount(s, id);
    }
  }

  // ---------------------------------------------------------------- control, leases, promises

  lemma PreKeepsControl(c: Config, s: State)
    requires FrontInv(s) && ControlInv(c, s) && PreReady(s)
    ensures ControlInv(c, PreNext(c, s))
  {
    PreLeavesBehind(c, s);
    if !s.pre.PreWaiting? && !s.pre.PrePush? && !s.pre.PreClose? {
      PreStays(c, s);
      PreCallKeepsControl(c, s);
    }
  }

  lemma PreCallKeepsControl(c: Config, s: State)
    requires ControlInv(c, s) && PreReady(s) && !s.pre.PreWaiting? && !s.pre.PrePush? && !s.pre.PreClose?
    ensures ControlInv(c, PreNext(c, s))
  {
    PreTouches(c, s);
    PreStays(c, s);
  }

  lemma BatchKeepsSizes(c: Config, s: State)
    requires ValidConfig(c) && BatchContract(c.stages) && BatchSizesInv(c, s.batch) && BatchReady(s)
    ensures BatchSizesInv(c, BatchNext(c, s).batch)
  {
    if s.batch.FailMembers? || s.batch.Postprocess? || s.batch.PushResult? {
      EmittingKeepsSizes(c, s);
    }
  }

  lemma EmittingKeepsSizes(c: Config, s: State)
    requires ValidConfig(c) && BatchSizesInv(c, s.batch) && BatchReady(s)
    requires s.batch.FailMembers? || s.batch.Postprocess? || s.batch.PushResult?
    ensures BatchSizesInv(c, BatchNext(c, s).batch)
  {
  }

  lemma BatchKeepsControl(c: Config, s: State)
    requires ValidConfig(c) && BatchContract(c.stages) && ControlInv(c, s) && BatchReady(s)
    ensures ControlInv(c, BatchNext(c, s))
  {
    BatchKeepsSizes(c, s);
    BatchLeavesRest(c, s);
  }

  /** What a step of the batching thread may change. */
  ghost predicate OnlyBatchSide(s: State, t: State) {
    && t == s.(batch := t.batch, preprocessQueue := t.preprocessQueue, postprocessQueue := t.postprocessQueue,
               completions := t.completions, leased := t.leased, verdicts := t.verdicts, batches := t.batches)
    && t.preprocessQueue == s.preprocessQueue.(items := t.preprocessQueue.items)
    && |t.preprocessQueue.items| <= |s.preprocessQueue.items|
    && t.completions == s.completions.(items := t.completions.items)
    && t.postprocessQueue == s.postprocessQueue.(items := t.postprocessQueue.items, closed := t.postprocessQueue.closed)
    && (t.postprocessQueue.closed <==> s.postprocessQueue.closed || s.batch.BatchClose?)
    && (t.batches == s.batches || (s.batch.Infer? && t.batches == s.batches + [s.batch.members]))
  }

  ghost predicate Emitting(t: BatchThread) { t.FailMembers? || t.Postprocess? || t.PushResult? || t.Early? }

  lemma BatchLeavesRest(c: Config, s: State)
    requires BatchSizesInv(c, s.batch) && BatchReady(s) && (EndsAfter(s.batch) ==> s.preprocessQueue.closed)
    ensures OnlyBatchSide(s, BatchNext(c, s))
    ensures EndsAfter(BatchNext(c, s).batch) ==> s.preprocessQueue.closed
  {
    if Emitting(s.batch) {
      EmittingLeavesRest(c, s);
    } else {
      OthersLeaveRest(c, s);
    }
  }

  lemma EmittingLeavesRest(c: Config, s: State)
    requires BatchSizesInv(c, s.batch) && BatchReady(s) && Emitting(s.batch)
    ensures OnlyBatchSide(s, BatchNext(c, s))
    ensures EndsAfter(BatchNext(c, s).batch) ==> EndsAfter(s.batch)
  {
    match s.batch
    case Early(_, _, _) =>
    case FailMembers(_, _, _, _) =>
    case Postprocess(_, _, _, _) =>
    case PushResult(_, _, _, _, _) =>
  }

  lemma CollectingLeavesRest(c: Config, s: State)
    requires BatchReady(s) && (s.batch.Collect? || s.batch.Examine? || s.batch.GotNothing?)
    ensures OnlyBatchSide(s, BatchNext(c, s))
    ensures EndsAfter(BatchNext(c, s).batch) ==> s.preprocessQueue.closed
  {
  }

  lemma EndingLeavesRest(c: Config, s: State)
    requires BatchReady(s) && (s.batch.Infer? || s.batch.BatchClose?)
    ensures OnlyBatchSide(s, BatchNext(c, s))
    ensures EndsAfter(BatchNext(c, s).batch) ==> EndsAfter(s.batch)
  {
  }

  lemma OthersLeaveRest(c: Config, s: State)
    requires BatchReady(s) && !Emitting(s.batch)
    ensures OnlyBatchSide(s, BatchNext(c, s))
    ensures EndsAfter(BatchNext(c, s).batch) ==> EndsAfter(s.batch) || s.preprocessQueue.closed
  {
    if s.batch.Infer? || s.batch.BatchClose? {
      EndingLeavesRest(c, s);
    } else {
      CollectingLeavesRest(c, s);
    }
  }

  lemma PostKeepsControl(c: Config, s: State)
    requires ControlInv(c, s) && PostReady(s)
    ensures ControlInv(c, PostNext(s))
  {
  }

  lemma DispKeepsControl(c: Config, s: State)
    requires ControlInv(c, s) && DispReady(s)
    ensures ControlInv(c, DispNext(s))
  {
  }

  /** What the batching thread holds has left the line. */
  lemma HandWasTaken(s: State, id: nat)
    requires CensusInv(s) && id in BatchHand(s.batch)
    ensures id < Taken(s)
  {
    OccursMember(BatchHand(s.batch), id);
    assert Census(s, id) == if id < Taken(s) then 1 else 0;
  }

  lemma PreKeepsLeases(c: Config, s: State)
    requires FrontInv(s) && CensusInv(s) && ControlInv(c, s) && LeaseInv(s) && PreReady(s)
    ensures LeaseInv(PreNext(c, s))
  {
    var t := PreNext(c, s);
    PreKeepsFront(c, s);
    PreLeavesBehind(c, s);
    PreLeases(c, s);
    forall id | id in t.leased
      ensures id in LeaseHand(t.batch) || Taken(t) <= id < Taken(t) + |t.preprocessQueue.items| + PreHandSize(t)
    {
      assert id in s.leased || (s.pre.PreAcquire? && id == s.pre.id);
    }
    if s.pre.PreWaiting? && t.pre.PreTaken? && t.pre.id in LeaseHand(s.batch) {
      HandWasTaken(s, t.pre.id);
    }
  }

  lemma PreLeases(c: Config, s: State)
    requires PreReady(s)
    ensures PreNext(c, s).leased <= if s.pre.PreAcquire? then s.leased + {s.pre.id} else s.leased
    ensures s.pre.PreRecheck? || s.pre.PrePush? || s.pre.PreRun? || s.pre.PreClose? ==>
              !PreNext(c, s).pre.PreTaken? && !PreNext(c, s).pre.PreCheck? && !PreNext(c, s).pre.PreAcquire?
  {
    match s.pre
    case PreWaiting =>
    case PreTaken(_) =>
    case PreCheck(_) =>
    case PreAcquire(_) =>
    case PreRun(_) =>
    case PreRecheck(_, _) =>
    case PrePush(_, _) =>
    case PreClose =>
  }

  lemma BatchKeepsLeases(c: Config, s: State)
    requires FrontInv(s) && ControlInv(c, s) && LeaseInv(s) && BatchReady(s)
    ensures LeaseInv(BatchNext(c, s))
  {
    var t := BatchNext(c, s);
    BatchLeases(c, s);
    if Pops(s) {
      BatchTakesLease(c, s);
    } else {
      BatchKeepsFront(c, s);
      BatchKeepsLeaseHand(c, s);
    }
  }

  lemma BatchLeases(c: Config, s: State)
    requires BatchReady(s)
    ensures BatchNext(c, s).leased ==
            if s.batch.Early? then s.leased - {s.batch.id}
            else if s.batch.Infer? then s.leased - (set id | id in MemberIds(s.batch.members))
            else s.leased
    ensures BatchNext(c, s).pre == s.pre
  {
  }

  lemma BatchTakesLease(c: Config, s: State)
    requires FrontInv(s) && LeaseInv(s) && Pops(s)
    ensures LeaseInv(BatchNext(c, s))
  {
    assert LeaseHand(BatchNext(c, s).batch) == LeaseHand(s.batch) + [Taken(s)];
  }

  lemma BatchKeepsLeaseHand(c: Config, s: State)
    requires BatchSizesInv(c, s.batch) && BatchReady(s) && !Pops(s)
    ensures forall id :: id in LeaseHand(s.batch) && id in BatchNext(c, s).leased ==>
        id in LeaseHand(BatchNext(c, s).batch)
  {
    if s.batch.Examine? && s.batch.prepared.Ok? {
      MemberIdsGrow(s.batch.members, Member(s.batch.id, s.batch.prepared.value));
    }
  }

  lemma PromisesLater(s: State, t: State)
    requires PromiseInv(s) && t.delivered == s.delivered && |t.tasks| == |s.tasks|
    requires forall id :: 0 <= id < |s.tasks| ==> t.tasks[id].promise == s.tasks[id].promise
    ensures PromiseInv(t)
  {
  }

  lemma PreKeepsPromises(c: Config, s: State)
    requires PromiseInv(s) && PreReady(s)
    ensures PromiseInv(PreNext(c, s))
  {
    PreTouches(c, s);
    PromisesLater(s, PreNext(c, s));
  }

  lemma DispKeepsPromises(s: State)
    requires PromiseInv(s) && DispReady(s)
    ensures PromiseInv(DispNext(s))
  {
  }

  // ---------------------------------------------------------------- the outside world

  /** Everything but the steps of the four worker threads. */
  predicate Outside(a: Action) { !a.PreStep? && !a.BatchStep? && !a.PostStep? && !a.DispStep? && !a.FlushTimeout? }

  lemma AcceptKeepsFront(s: State, p: Packet)
    requires FrontInv(s)
    ensures FrontInv(Accept(s, p)) && Taken(Accept(s, p)) == Taken(s)
  {
  }

  lemma OutsideKeepsFront(c: Config, s: State, a: Action)
    requires FrontInv(s) && Outside(a) && Enabled(c, s, a)
    ensures FrontInv(Next(c, s, a)) && Taken(Next(c, s, a)) == Taken(s)
  {
    if a.Submit? {
      SubmitKeepsFront(c, s, a.packet);
    } else if a.WakeSubmitter? {
      var rest := s.(blocked := s.blocked[..a.which] + s.blocked[a.which + 1..]);
      SameFrontKept(s, rest);
      AcceptKeepsFront(rest, s.blocked[a.which]);
    } else {
      SameFrontKept(s, Next(c, s, a));
    }
  }

  lemma SubmitKeepsFront(c: Config, s: State, p: Packet)
    requires FrontInv(s)
    ensures FrontInv(SubmitNext(c, s, p)) && Taken(SubmitNext(c, s, p)) == Taken(s)
  {
    AcceptKeepsFront(s, p);
    SameFrontKept(s, s.(blocked := s.blocked + [p]));
  }

  lemma OutsideLeavesBehind(c: Config, s: State, a: Action)
    requires Outside(a) && Enabled(c, s, a)
    ensures SameBehind(s, Next(c, s, a)) && Next(c, s, a).leased == s.leased && Next(c, s, a).pre == s.pre
    ensures Next(c, s, a).preprocessQueue == s.preprocessQueue
  {
    match a
    case Submit(_) =>
    case RequestStop(_) =>
    case Cancel(_) =>
    case StartWait =>
    case WakeSubmitter(_) =>
    case WaiterStep =>
    case _ =>
  }

  lemma OutsideKeepsControl(c: Config, s: State, a: Action)
    requires FrontInv(s) && ControlInv(c, s) && Outside(a) && Enabled(c, s, a)
    ensures ControlInv(c, Next(c, s, a))
  {
    match a
    case Submit(_) =>
    case RequestStop(_) =>
    case Cancel(_) =>
    case StartWait =>
    case WakeSubmitter(_) =>
    case WaiterStep =>
    case _ =>
  }

  lemma OutsideKeepsPromises(c: Config, s: State, a: Action)
    requires CensusInv(s) && FrontInv(s) && PromiseInv(s) && Outside(a) && Enabled(c, s, a)
    ensures PromiseInv(Next(c, s, a))
  {
    var t := Next(c, s, a);
    OutsideLeavesBehind(c, s, a);
    if |t.tasks| > |s.tasks| {
      OccursMember(s.delivered, |s.tasks|);
      assert Census(s, |s.tasks|) == if |s.tasks| < Taken(s) then 1 else 0;
    }
    forall id | 0 <= id < |t.tasks|
      ensures t.tasks[id].promise.Some? <==> id in t.delivered
    {
      assert id < |s.tasks| ==> t.tasks[id].promise == s.tasks[id].promise;
    }
  }

  // ---------------------------------------------------------------- every step, every run

  lemma TimeoutKeepsPlaces(c: Config, s: State, inside: bool)
    requires ValidConfig(c) && PlacesInv(c, s) && Enabled(c, s, FlushTimeout(inside))
    ensures PlacesInv(c, TimeoutNext(s, inside))
  {
    var t := TimeoutNext(s, inside);
    SameFrontKept(s, t);
    assert BatchHand(t.batch) == BatchHand(s.batch);
    forall id: nat
      ensures Census(t, id) == Census(s, id)
    {
    }
    PromisesLater(s, t);
  }

  lemma PreStepKeepsPlaces(c: Config, s: State)
    requires PlacesInv(c, s) && PreReady(s)
    ensures PlacesInv(c, PreNext(c, s))
  {
    PreKeepsFront(c, s);
    PreLeavesBehind(c, s);
    SameBehindKept(s, PreNext(c, s));
    PreKeepsControl(c, s);
    PreKeepsLeases(c, s);
    PreKeepsPromises(c, s);
  }

  lemma StepKeepsPlaces(c: Config, s: State, a: Action)
    requires ValidConfig(c) && BatchContract(c.stages) && PlacesInv(c, s) && Enabled(c, s, a)
    ensures PlacesInv(c, Next(c, s, a))
  {
    if a.PreStep? {
      PreStepKeepsPlaces(c, s);
    } else if a.BatchStep? {
      BatchStepKeepsPlaces(c, s);
    } else if a.PostStep? {
      PostStepKeepsPlaces(c, s);
    } else if a.DispStep? {
      DispStepKeepsPlaces(c, s);
    } else if a.FlushTimeout? {
      TimeoutKeepsPlaces(c, s, a.insidePopFor);
    } else {
      OutsideKeepsPlaces(c, s, a);
    }
  }

  lemma DispStepKeepsPlaces(c: Config, s: State)
    requires PlacesInv(c, s) && DispReady(s)
    ensures PlacesInv(c, DispNext(s))
  {
    DispKeepsCensus(s);
    DispKeepsControl(c, s);
    DispKeepsPromises(s);
  }

  lemma OutsideKeepsPlaces(c: Config, s: State, a: Action)
    requires PlacesInv(c, s) && Enabled(c, s, a) && Outside(a)
    ensures PlacesInv(c, Next(c, s, a))
  {
    OutsideKeepsFront(c, s, a);
    OutsideLeavesBehind(c, s, a);
    SameBehindKept(s, Next(c, s, a));
    OutsideKeepsControl(c, s, a);
    OutsideKeepsPromises(c, s, a);
  }

  lemma BatchStepKeepsPlaces(c: Config, s: State)
    requires ValidConfig(c) && BatchContract(c.stages) && PlacesInv(c, s) && BatchReady(s)
    ensures PlacesInv(c, BatchNext(c, s))
  {
    BatchStepKeepsCensus(c, s);
    BatchKeepsControl(c, s);
    BatchKeepsLeases(c, s);
    BatchLeavesPromises(c, s);
    PromisesLater(s, BatchNext(c, s));
  }

  lemma BatchLeavesPromises(c: Config, s: State)
    requires BatchReady(s)
    ensures BatchNext(c, s).tasks == s.tasks && BatchNext(c, s).delivered == s.delivered
  {
    BatchTouches(c, s);
  }

  lemma PostStepKeepsPlaces(c: Config, s: State)
    requires PlacesInv(c, s) && PostReady(s)
    ensures PlacesInv(c, PostNext(s))
  {
    PostKeepsCensus(c, s);
    PostKeepsControl(c, s);
    PromisesLater(s, PostNext(s));
  }

  lemma RunKeepsPlaces(c: Config, s: State, run: seq<Action>)
    requires ValidConfig(c) && BatchContract(c.stages) && PlacesInv(c, s) && ValidRun(c, s, run)
    ensures PlacesInv(c, After(c, s, run))
    decreases |run|
  {
    if run != [] {
      StepKeepsPlaces(c, s, run[0]);
      RunKeepsPlaces(c, Next(c, s, run[0]), run[1..]);
    }
  }

  lemma ReachablePlaces(c: Config, s: State)
    requires ValidConfig(c) && BatchContract(c.stages) && Reachable(c, s)
    ensures PlacesInv(c, s)
  {
    var run :| ValidRun(c, Init(c), run) && After(c, Init(c), run) == s;
    InitInv(c);
    RunKeepsPlaces(c, Init(c), run);
  }
}
