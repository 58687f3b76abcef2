/**
  What the batch executor guarantees: conservation, the right answer for every member however the
  stream is cut, batches that are contiguous pieces of it, and what is done when it comes to rest.
 */
module BatchTheorems {
  import opened Core
  import opened Stages
  import opened Tasks
  import opened BoundedFifo
  import opened ExecutorParts
  import opened BatchExecutor
  import opened BatchInvariant
  import opened BatchFlow

  // ---------------------------------------------------------------- conservation

  /** How often a task occurs in all places of the executor together. */
  ghost function Places(s: State, id: nat): nat {
    Census(s, id) + Occurs(PreparedIds(s.preprocessQueue.items), id) + Occurs(PreHand(s.pre), id) + Occurs(s.entry, id)
  }

  lemma OccursInRange(ids: seq<nat>, low: nat, id: nat)
    requires forall i :: 0 <= i < |ids| ==> ids[i] == low + i
    ensures Occurs(ids, id) == if low <= id < low + |ids| then 1 else 0
  {
    if ids != [] {
      OccursInRange(ids[1..], low + 1, id);
    }
  }

  /** No accepted task is ever lost, duplicated or completed twice, whatever the interleaving and the pool. */
  lemma EachTaskIsInOnePlace(c: Config, s: State, id: nat)
    requires ValidConfig(c) && BatchContract(c.stages) && Reachable(c, s)
    ensures Places(s, id) == if id < |s.packets| then 1 else 0
    ensures |s.tasks| == |s.packets|
    ensures id < |s.tasks| ==> (s.tasks[id].promise.Some? <==> id in s.delivered)
    ensures s.disp.DispPromise? ==> s.disp.id < |s.tasks| && s.tasks[s.disp.id].promise.None?
  {
    ReachablePlaces(c, s);
    assert Census(s, id) == if id < Taken(s) then 1 else 0;
    OccursInRange(PreparedIds(s.preprocessQueue.items), Taken(s), id);
    OccursInRange(PreHand(s.pre), Taken(s) + |s.preprocessQueue.items|, id);
    OccursInRange(s.entry, |s.packets| - |s.entry|, id);
    if s.disp.DispPromise? {
      OccursOne(s.disp.id, s.disp.id);
      OccursMember(s.delivered, s.disp.id);
      assert Census(s, s.disp.id) == if s.disp.id < Taken(s) then 1 else 0;
    }
  }

  // ---------------------------------------------------------------- answers

  /** A delivered task has a right answer and the terminal state that reports it. */
  ghost predicate OneTaskInv(c: Config, s: State, id: nat, t: Task<Answer>) {
    if id in s.delivered then
      t.promise.Some? && DoneOk(c, s, id, t.promise.value) && t.state == TerminalFor(t.promise.value)
    else
      t.promise == None && (s.disp.DispPromise? && id == s.disp.id ==> t.state == TerminalFor(s.disp.result))
  }

  ghost predicate TaskInv(c: Config, s: State) {
    forall id :: 0 <= id < |s.tasks| ==> OneTaskInv(c, s, id, s.tasks[id])
  }

  /** Both states show the same of every task that has an answer or is about to get it. */
  ghost predicate SameAnswered(s: State, t: State) {
    && t.delivered == s.delivered && t.disp == s.disp && |s.tasks| <= |t.tasks|
    && (forall id :: 0 <= id < |s.tasks| ==> SameTask(s, id, s.tasks[id], t.tasks[id]))
    && (forall id :: |s.tasks| <= id < |t.tasks| ==> t.tasks[id] == NewTask())
  }

  ghost predicate SameTask(s: State, id: nat, before: Task<Answer>, after: Task<Answer>) {
    && after.promise == before.promise
    && (id in s.delivered || (s.disp.DispPromise? && id == s.disp.id) ==> after.state == before.state)
  }

  ghost predicate AnsweredWereTaken(s: State) {
    && (forall id :: id in s.delivered ==> id < Taken(s) && id < |s.tasks|)
    && (DispHolds(s.disp) ==> s.disp.id < Taken(s) && s.disp.id < |s.tasks|)
  }

  lemma TasksLater(c: Config, s: State, t: State)
    requires TaskInv(c, s) && Later(s, t) && SameAnswered(s, t)
    requires AnsweredWereTaken(s)
    ensures TaskInv(c, t)
  {
    forall id | 0 <= id < |t.tasks|
      ensures OneTaskInv(c, t, id, t.tasks[id])
    {
      if id < |s.tasks| {
        assert OneTaskInv(c, s, id, s.tasks[id]) && SameTask(s, id, s.tasks[id], t.tasks[id]);
        if id in s.delivered { DoneLater(c, s, t, id, s.tasks[id].promise.value); }
      }
    }
  }

  /** Delivered tasks, and the one in the dispatcher's hand, have left the line; the latter is not delivered yet. */
  lemma DeliveredWasTaken(s: State, id: nat)
    requires FrontInv(s) && CensusInv(s)
    ensures id in s.delivered || (DispHolds(s.disp) && id == s.disp.id) ==> id < Taken(s)
    ensures DispHolds(s.disp) && id == s.disp.id ==> id !in s.delivered
  {
    OccursMember(s.delivered, id);
    OccursOne(id, id);
    assert Census(s, id) == if id < Taken(s) then 1 else 0;
  }

  lemma AllAnsweredWereTaken(s: State)
    requires FrontInv(s) && CensusInv(s)
    ensures AnsweredWereTaken(s)
  {
    forall id | id in s.delivered
      ensures id < Taken(s) && id < |s.tasks|
    {
      DeliveredWasTaken(s, id);
    }
    if DispHolds(s.disp) { DeliveredWasTaken(s, s.disp.id); }
  }

  lemma PreKeepsTasks(c: Config, s: State)
    requires FrontInv(s) && CensusInv(s) && TaskInv(c, s) && PreReady(s)
    ensures TaskInv(c, PreNext(c, s))
  {
    var t := PreNext(c, s);
    AllAnsweredWereTaken(s);
    PreIsLater(c, s);
    PreLeavesBehind(c, s);
    PreMarksOnly(c, s);
    TasksLater(c, s, t);
  }

  lemma PreMarksOnly(c: Config, s: State)
    requires PreReady(s)
    ensures PreNext(c, s).tasks ==
            if s.pre.PreTaken? then s.tasks[s.pre.id := MarkRunning(s.tasks[s.pre.id])] else s.tasks
  {
  }

  lemma OthersKeepTasks(c: Config, s: State, a: Action)
    requires FrontInv(s) && CensusInv(s) && TaskInv(c, s) && Enabled(c, s, a) && !a.PreStep? && !a.DispStep?
    ensures TaskInv(c, Next(c, s, a))
  {
    AllAnsweredWereTaken(s);
    if a.BatchStep? {
      BatchIsLater(c, s);
      BatchLeavesPromises(c, s);
      BatchQueues(c, s);
    } else if a.PostStep? {
      PostLeavesTheRest(s);
    } else if !a.FlushTimeout? {
      OutsideIsLater(c, s, a);
      OutsideLeavesAnswers(c, s, a);
    }
    TasksLater(c, s, Next(c, s, a));
  }

  lemma OutsideLeavesAnswers(c: Config, s: State, a: Action)
    requires Outside(a) && Enabled(c, s, a)
    ensures SameAnswered(s, Next(c, s, a))
  {
  }

  lemma DispKeepsTasks(c: Config, s: State)
    requires FrontInv(s) && CensusInv(s) && FlowInv(c, s) && TaskInv(c, s) && DispReady(s)
    ensures TaskInv(c, DispNext(s))
  {
    var t := DispNext(s);
    DispIsLater(s);
    forall id | 0 <= id < |t.tasks|
      ensures OneTaskInv(c, t, id, t.tasks[id])
    {
      assert OneTaskInv(c, s, id, s.tasks[id]);
      DeliveredWasTaken(s, id);
      if id in s.delivered { DoneLater(c, s, t, id, s.tasks[id].promise.value); }
      if s.disp.DispPromise? && id == s.disp.id { DoneLater(c, s, t, id, s.disp.result); }
    }
  }

  lemma StepKeepsTasks(c: Config, s: State, a: Action)
    requires FrontInv(s) && CensusInv(s) && FlowInv(c, s) && TaskInv(c, s) && Enabled(c, s, a)
    ensures TaskInv(c, Next(c, s, a))
  {
    if a.PreStep? {
      PreKeepsTasks(c, s);
    } else if a.DispStep? {
      DispKeepsTasks(c, s);
    } else {
      OthersKeepTasks(c, s, a);
    }
  }

  // ---------------------------------------------------------------- the cut of the stream

  /** The prepared, not cancelled tasks among the first `n`, in order. */
  ghost function Eligible(given: seq<Result<Prepared>>, verdicts: seq<bool>, n: nat): seq<nat>
    requires n <= |given| && n <= |verdicts|
  {
    if n == 0 then []
    else
      var before := Eligible(given, verdicts, n - 1);
      if !verdicts[n - 1] && given[n - 1].Ok? then before + [n - 1] else before
  }

  lemma EligibleLater(s: State, t: State, n: nat)
    requires s.given <= t.given && s.verdicts <= t.verdicts && n <= |s.given| && n <= |s.verdicts|
    ensures Eligible(t.given, t.verdicts, n) == Eligible(s.given, s.verdicts, n)
  {
    if n > 0 { EligibleLater(s, t, n - 1); }
  }

  ghost function Joined(batches: seq<seq<Member>>): seq<nat> {
    if batches == [] then [] else Joined(batches[..|batches| - 1]) + MemberIds(batches[|batches| - 1])
  }

  /** The ids collected for the batch that has not reached inference yet. */
  ghost function Collecting(t: BatchThread): seq<nat> {
    if t.Collect? || t.Examine? || t.Early? || t.GotNothing? || t.Infer? then MemberIds(t.members) else []
  }

  ghost predicate PreparedMember(c: Config, packets: seq<Packet>, m: Member) {
    m.id < |packets| && c.stages.preprocess(packets[m.id]) == Ok(m.prepared)
  }

  ghost predicate PreparedMembers(c: Config, packets: seq<Packet>, members: seq<Member>) {
    forall i :: 0 <= i < |members| ==> PreparedMember(c, packets, members[i])
  }

  ghost predicate CutInv(c: Config, s: State) {
    && |s.verdicts| <= |s.given| <= |s.packets|
    && (forall b :: 0 <= b < |s.batches| ==> PreparedMembers(c, s.packets, s.batches[b]))
    && Joined(s.batches) + Collecting(s.batch) == Eligible(s.given, s.verdicts, |s.verdicts|)
  }

  lemma BatchKeepsCut(c: Config, s: State)
    requires FlowInv(c, s) && CutInv(c, s) && BatchReady(s)
    ensures CutInv(c, BatchNext(c, s))
  {
    var t := BatchNext(c, s);
    BatchIsLater(c, s);
    EligibleLater(s, t, |s.verdicts|);
    if s.batch.Examine? {
      ExamineKeepsCut(c, s);
    } else if s.batch.Infer? {
      InferKeepsCut(c, s);
    } else {
      OthersKeepCut(c, s);
    }
  }

  lemma ExamineKeepsCut(c: Config, s: State)
    requires FlowInv(c, s) && CutInv(c, s) && BatchReady(s) && s.batch.Examine?
    requires Eligible(s.given, BatchNext(c, s).verdicts, |s.verdicts|) == Eligible(s.given, s.verdicts, |s.verdicts|)
    ensures CutInv(c, BatchNext(c, s))
  {
    var t, n := BatchNext(c, s), |s.verdicts|;
    ExamineCollects(c, s);
    assert BatchHandOk(c, s, s.batch);
    assert t.verdicts[n] == IsCancelled(s, s.batch.id) && n == s.batch.id;
    assert Joined(t.batches) + Collecting(t.batch) == Eligible(t.given, t.verdicts, n + 1);
  }

  /** What looking at one preprocessed task adds to the batch under collection. */
  lemma ExamineCollects(c: Config, s: State)
    requires BatchReady(s) && s.batch.Examine?
    ensures
      var t, id := BatchNext(c, s), s.batch.id;
      && t.packets == s.packets && t.batches == s.batches && t.verdicts == s.verdicts + [IsCancelled(s, id)]
      && Collecting(t.batch)
         == Collecting(s.batch) + (if !IsCancelled(s, id) && s.batch.prepared.Ok? then [id] else [])
  {
    if s.batch.prepared.Ok? {
      MemberIdsGrow(s.batch.members, Member(s.batch.id, s.batch.prepared.value));
    }
  }

  lemma InferKeepsCut(c: Config, s: State)
    requires FlowInv(c, s) && CutInv(c, s) && BatchReady(s) && s.batch.Infer?
    ensures CutInv(c, BatchNext(c, s))
  {
    assert (s.batches + [s.batch.members])[..|s.batches|] == s.batches;
    forall i | 0 <= i < |s.batch.members|
      ensures PreparedMember(c, s.packets, s.batch.members[i])
    {
      assert MemberOk(c, s, s.batch.members[i]);
    }
  }

  lemma CollectedStays(c: Config, s: State)
    requires BatchReady(s) && !s.batch.Examine? && !s.batch.Infer?
    ensures
      var t := BatchNext(c, s);
      t.batches == s.batches && t.verdicts == s.verdicts && Collecting(t.batch) == Collecting(s.batch)
  {
    if s.batch.Collect? || s.batch.Early? || s.batch.GotNothing? {
      CollectingStays(c, s);
    } else {
      FlushingStays(c, s);
    }
  }

  lemma CollectingStays(c: Config, s: State)
    requires BatchReady(s) && (s.batch.Collect? || s.batch.Early? || s.batch.GotNothing?)
    ensures
      var t := BatchNext(c, s);
      t.batches == s.batches && t.verdicts == s.verdicts && Collecting(t.batch) == Collecting(s.batch)
  {
  }

  lemma FlushingStays(c: Config, s: State)
    requires BatchReady(s) && (Emitting(s.batch) || s.batch.BatchClose?) && !s.batch.Early?
    ensures
      var t := BatchNext(c, s);
      t.batches == s.batches && t.verdicts == s.verdicts && Collecting(t.batch) == Collecting(s.batch)
  {
  }

  lemma OthersKeepCut(c: Config, s: State)
    requires CutInv(c, s) && BatchReady(s) && !s.batch.Examine? && !s.batch.Infer?
    ensures CutInv(c, BatchNext(c, s))
  {
    BatchTouches(c, s);
    CollectedStays(c, s);
  }

  lemma StepKeepsCut(c: Config, s: State, a: Action)
    requires FrontInv(s) && FlowInv(c, s) && CutInv(c, s) && Enabled(c, s, a)
    ensures CutInv(c, Next(c, s, a))
  {
    if a.BatchStep? {
      BatchKeepsCut(c, s);
    } else if a.PreStep? {
      PreKeepsCut(c, s);
    } else if a.PostStep? {
      PostLeavesTheRest(s);
    } else if a.DispStep? {
      DispLeavesTheRest(s);
    } else if !a.FlushTimeout? {
      OutsideIsLater(c, s, a);
      OutsideLeavesBehind(c, s, a);
      EligibleLater(s, Next(c, s, a), |s.verdicts|);
      PacketsStay(c, s, Next(c, s, a));
    }
  }

  lemma PreKeepsCut(c: Config, s: State)
    requires FrontInv(s) && FlowInv(c, s) && CutInv(c, s) && PreReady(s)
    ensures CutInv(c, PreNext(c, s))
  {
    PreIsLater(c, s);
    PreRecords(c, s);
    PreLeavesBehind(c, s);
    EligibleLater(s, PreNext(c, s), |s.verdicts|);
  }

  lemma PacketsStay(c: Config, s: State, t: State)
    requires CutInv(c, s) && s.packets <= t.packets
    ensures forall b :: 0 <= b < |s.batches| ==> PreparedMembers(c, t.packets, s.batches[b])
  {
    forall b, i | 0 <= b < |s.batches| && 0 <= i < |s.batches[b]|
      ensures PreparedMember(c, t.packets, s.batches[b][i])
    {
      assert PreparedMembers(c, s.packets, s.batches[b]);
    }
  }

  // ---------------------------------------------------------------- every run

  ghost predicate Inv(c: Config, s: State) {
    PlacesInv(c, s) && FlowInv(c, s) && TaskInv(c, s) && CutInv(c, s)
  }

  ghost predicate Usable(c: Config) { ValidConfig(c) && BatchContract(c.stages) }

  lemma InitHolds(c: Config)
    requires Usable(c)
    ensures Inv(c, Init(c))
  {
  }

  lemma StepKeepsInv(c: Config, s: State, a: Action)
    requires Usable(c) && Inv(c, s) && Enabled(c, s, a)
    ensures Inv(c, Next(c, s, a))
  {
    StepKeepsPlaces(c, s, a);
    StepKeepsFlow(c, s, a);
    StepKeepsTasks(c, s, a);
    StepKeepsCut(c, s, a);
  }

  lemma RunKeepsInv(c: Config, s: State, run: seq<Action>)
    requires Usable(c) && Inv(c, s) && ValidRun(c, s, run)
    ensures Inv(c, After(c, s, run))
    decreases |run|
  {
    if run != [] {
      StepKeepsInv(c, s, run[0]);
      RunKeepsInv(c, Next(c, s, run[0]), run[1..]);
    }
  }

  lemma ReachableInv(c: Config, s: State)
    requires Usable(c) && Reachable(c, s)
    ensures Inv(c, s)
  {
    var run :| ValidRun(c, Init(c), run) && After(c, Init(c), run) == s;
    InitHolds(c);
    RunKeepsInv(c, Init(c), run);
  }

  /**
    Whatever the flush timing: the batches in order, followed by the one being collected, are exactly
    the prepared and not cancelled tasks in order, cut into pieces of 1 to maxBatchSize.
   */
  lemma BatchesCutTheStream(c: Config, s: State)
    requires Usable(c) && Reachable(c, s)
    ensures |s.verdicts| <= |s.given| <= |s.packets|
    ensures Joined(s.batches) + Collecting(s.batch) == Eligible(s.given, s.verdicts, |s.verdicts|)
    ensures forall b :: 0 <= b < |s.batches| ==> 0 < |s.batches[b]| <= c.maxBatchSize
    ensures |Collecting(s.batch)| <= c.maxBatchSize
  {
    ReachableInv(c, s);
  }

  /**
    Member `j` of a batch gets output `j` of that batch; the others get their own failure or
    cancellation. What preprocessing gave a task whose check saw no cancellation is the serial
    result, or, if the pool is too small, that it is exhausted.
   */
  lemma DeliveredAnswer(c: Config, s: State, id: nat)
    requires Usable(c) && Reachable(c, s) && id in s.delivered
    ensures id < |s.tasks| && s.tasks[id].promise.Some? && DoneOk(c, s, id, s.tasks[id].promise.value)
    ensures s.tasks[id].state == Completed <==> s.tasks[id].promise.value.Ok?
    ensures s.tasks[id].state == WasCancelled <==>
              s.tasks[id].promise.value.Err? && s.tasks[id].promise.value.status.code == Cancelled
    ensures s.tasks[id].state == Failed <==>
              s.tasks[id].promise.value.Err? && s.tasks[id].promise.value.status.code != Cancelled
    ensures !s.verdicts[id] ==> Gives(c.stages, PoolIsEnough(c), s.packets[id], s.given[id])
  {
    ReachableInv(c, s);
    DeliveredWasTaken(s, id);
    assert OneTaskInv(c, s, id, s.tasks[id]);
  }
}
