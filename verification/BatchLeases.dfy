/**
  What a full tensor pool does to a task of the batch executor, and that a slot is held only as long as its
  tensor is needed.
 */
module BatchLeases {
  import opened Core
  import opened Stages
  import opened Tasks
  import opened BoundedFifo
  import opened ExecutorParts
  import opened BatchExecutor
  import opened BatchInvariant
  import opened BatchFlow
  import opened BatchTheorems
  import opened BatchPool
  import opened BatchStop

  // ---------------------------------------------------------------- an acquire from a full pool

  /** Preprocessing of the task has ended, or is about to, because the pool was full. */
  ghost predicate WasExhausted(s: State, id: nat) {
    || (s.pre == PreRecheck(id, PoolExhausted()) && |s.given| == id)
    || (id < |s.given| && (s.given[id] == PoolExhausted() || IsCancelled(s, id)))
  }

  lemma PreKeepsExhausted(c: Config, s: State, id: nat)
    requires WasExhausted(s, id) && PreReady(s)
    ensures WasExhausted(PreNext(c, s), id)
  {
    match s.pre
    case PreWaiting =>
    case PreTaken(_) =>
    case PreCheck(_) =>
    case PreAcquire(_) =>
    case PreRun(_) =>
    case PreRecheck(_, _) =>
    case PrePush(_, _) =>
    case PreClose =>
  }

  lemma StepKeepsExhausted(c: Config, s: State, a: Action, id: nat)
    requires PlacesInv(c, s) && WasExhausted(s, id) && Enabled(c, s, a)
    ensures WasExhausted(Next(c, s, a), id)
  {
    StepIsLater(c, s, a);
    if a.PreStep? {
      PreKeepsExhausted(c, s, id);
    } else {
      OthersLeavePre(c, s, a);
    }
  }

  lemma OthersLeavePre(c: Config, s: State, a: Action)
    requires Enabled(c, s, a) && !a.PreStep?
    ensures Next(c, s, a).pre == s.pre && Next(c, s, a).given == s.given
  {
    match a
    case Submit(_) =>
    case RequestStop(_) =>
    case Cancel(_) =>
    case StartWait =>
    case WakeSubmitter(_) =>
    case BatchStep => BatchLeavesGiven(c, s);
    case FlushTimeout(_) =>
    case PostStep =>
    case DispStep =>
    case WaiterStep =>
    case _ =>
  }

  lemma BatchLeavesGiven(c: Config, s: State)
    requires BatchReady(s)
    ensures BatchNext(c, s).pre == s.pre && BatchNext(c, s).given == s.given
  {
    match s.batch
    case Collect(_) =>
    case Examine(_, _, _) =>
    case Early(_, _, _) =>
    case GotNothing(_) =>
    case Infer(_, _) =>
    case FailMembers(_, _, _, _) =>
    case Postprocess(_, _, _, _) =>
    case PushResult(_, _, _, _, _) =>
    case BatchClose =>
  }

  lemma {:induction false} RunKeepsExhausted(c: Config, s: State, run: seq<Action>, id: nat)
    requires Usable(c) && Inv(c, s) && WasExhausted(s, id) && ValidRun(c, s, run)
    ensures WasExhausted(After(c, s, run), id) && Inv(c, After(c, s, run))
    decreases |run|
  {
    if run != [] {
      StepKeepsExhausted(c, s, run[0], id);
      StepKeepsInv(c, s, run[0]);
      RunKeepsExhausted(c, Next(c, s, run[0]), run[1..], id);
    }
  }

  /** A task that finds the pool full is not preprocessed: uncancelled, it is delivered as exhausted. */
  lemma ExhaustionFailsTheTask(c: Config, s: State, run: seq<Action>)
    requires Usable(c) && Reachable(c, s) && Exhausted(c, s) && ValidRun(c, Next(c, s, PreStep), run)
    ensures
      var t, id := After(c, Next(c, s, PreStep), run), s.pre.id;
      id in t.delivered && !IsCancelled(t, id) ==>
        && id < |t.tasks| && t.tasks[id].promise == Some(PoolExhausted())
        && t.tasks[id].promise.value.Err? && t.tasks[id].promise.value.status.code == ResourceExhausted
  {
    ReachableInv(c, s);
    var u := Next(c, s, PreStep);
    StepKeepsInv(c, s, PreStep);
    RunKeepsExhausted(c, u, run, s.pre.id);
    var t := After(c, u, run);
    VerdictsAlongARun(c, u, run, s.pre.id);
    if s.pre.id in t.delivered {
      Delivered(c, t, s.pre.id);
    }
  }

  // ---------------------------------------------------------------- slots are not held in vain

  ghost predicate QueuedAt(s: State, id: nat, i: nat) {
    && i < |s.preprocessQueue.items| && s.preprocessQueue.items[i].id == id
    && s.preprocessQueue.items[i].prepared.Ok?
  }

  /** The tensor of the task is being filled, was filled and waits, or belongs to the batch being collected. */
  ghost predicate NeedsItsSlot(s: State, id: nat) {
    || s.pre == PreRun(id)
    || ((s.pre.PreRecheck? || s.pre.PrePush?) && s.pre.id == id && s.pre.prepared.Ok?)
    || id in LeaseHand(s.batch)
    || exists i: nat :: QueuedAt(s, id, i)
  }

  ghost predicate SlotsInv(s: State) { forall id :: id in s.leased ==> NeedsItsSlot(s, id) }

  lemma PreKeepsSlots(c: Config, s: State)
    requires FrontInv(s) && ControlInv(c, s) && SlotsInv(s) && PreReady(s)
    ensures SlotsInv(PreNext(c, s))
  {
    var t := PreNext(c, s);
    forall id | id in t.leased
      ensures NeedsItsSlot(t, id)
    {
      PreKeepsOneSlot(c, s, id);
    }
  }

  lemma PreKeepsOneSlot(c: Config, s: State, id: nat)
    requires FrontInv(s) && ControlInv(c, s) && SlotsInv(s) && PreReady(s) && id in PreNext(c, s).leased
    ensures NeedsItsSlot(PreNext(c, s), id)
  {
    var t := PreNext(c, s);
    if s.pre.PrePush? {
      PushKeepsOneSlot(c, s, id);
    } else {
      PreLeavesQueue(c, s);
      if id in s.leased {
        assert NeedsItsSlot(s, id);
        if i: nat :| QueuedAt(s, id, i) { assert QueuedAt(t, id, i); }
      }
    }
  }

  lemma PreLeavesQueue(c: Config, s: State)
    requires PreReady(s) && !s.pre.PrePush?
    ensures PreNext(c, s).preprocessQueue.items == s.preprocessQueue.items && PreNext(c, s).batch == s.batch
  {
    match s.pre
    case PreWaiting =>
    case PreTaken(_) =>
    case PreCheck(_) =>
    case PreAcquire(_) =>
    case PreRun(_) =>
    case PreRecheck(_, _) =>
    case PreClose =>
  }

  lemma PushKeepsOneSlot(c: Config, s: State, id: nat)
    requires FrontInv(s) && ControlInv(c, s) && SlotsInv(s) && PreReady(s) && s.pre.PrePush?
    requires id in PreNext(c, s).leased
    ensures NeedsItsSlot(PreNext(c, s), id)
  {
    var t := PreNext(c, s);
    assert NeedsItsSlot(s, id);
    if i: nat :| QueuedAt(s, id, i) {
      assert QueuedAt(t, id, i);
    } else if s.pre.id == id && s.pre.prepared.Ok? {
      assert s.preprocessQueue.CanPush();
      assert QueuedAt(t, id, |s.preprocessQueue.items|);
    }
  }

  lemma BatchKeepsSlots(c: Config, s: State)
    requires PlacesInv(c, s) && SlotsInv(s) && BatchReady(s)
    ensures SlotsInv(BatchNext(c, s))
  {
    var t := BatchNext(c, s);
    BatchLeases(c, s);
    forall id | id in t.leased
      ensures NeedsItsSlot(t, id)
    {
      assert NeedsItsSlot(s, id);
      if Pops(s) {
        PopKeepsOneSlot(c, s, id);
      } else {
        BatchKeepsLeaseHand(c, s);
        BatchLeavesQueue(c, s);
        if i: nat :| QueuedAt(s, id, i) { assert QueuedAt(t, id, i); }
      }
    }
  }

  lemma BatchLeavesQueue(c: Config, s: State)
    requires BatchReady(s) && !Pops(s)
    ensures BatchNext(c, s).preprocessQueue.items == s.preprocessQueue.items
  {
    match s.batch
    case Collect(_) =>
    case Examine(_, _, _) =>
    case Early(_, _, _) =>
    case GotNothing(_) =>
    case Infer(_, _) =>
    case FailMembers(_, _, _, _) =>
    case Postprocess(_, _, _, _) =>
    case PushResult(_, _, _, _, _) =>
    case BatchClose =>
  }

  lemma PopKeepsOneSlot(c: Config, s: State, id: nat)
    requires BatchReady(s) && Pops(s) && NeedsItsSlot(s, id)
    ensures NeedsItsSlot(BatchNext(c, s), id)
  {
    var t := BatchNext(c, s);
    assert LeaseHand(t.batch) == LeaseHand(s.batch) + [s.preprocessQueue.items[0].id];
    if i: nat :| QueuedAt(s, id, i) {
      if i > 0 { assert QueuedAt(t, id, i - 1); }
    }
  }

  lemma OthersKeepSlots(c: Config, s: State, a: Action)
    requires SlotsInv(s) && Enabled(c, s, a) && !a.PreStep? && !a.BatchStep?
    ensures SlotsInv(Next(c, s, a))
  {
    var t := Next(c, s, a);
    OthersLeaveSlots(c, s, a);
    forall id | id in t.leased
      ensures NeedsItsSlot(t, id)
    {
      assert NeedsItsSlot(s, id);
      if i: nat :| QueuedAt(s, id, i) { assert QueuedAt(t, id, i); }
    }
  }

  lemma OthersLeaveSlots(c: Config, s: State, a: Action)
    requires Enabled(c, s, a) && !a.PreStep? && !a.BatchStep?
    ensures
      var t := Next(c, s, a);
      && t.leased == s.leased && t.pre == s.pre && LeaseHand(t.batch) == LeaseHand(s.batch)
      && t.preprocessQueue == s.preprocessQueue
  {
    match a
    case Submit(_) =>
    case RequestStop(_) =>
    case Cancel(_) =>
    case StartWait =>
    case WakeSubmitter(_) =>
    case FlushTimeout(inside) => TimeoutKeepsHand(s, inside);
    case PostStep =>
    case DispStep => DispLeavesHand(s);
    case WaiterStep =>
    case _ =>
  }

  lemma TimeoutKeepsHand(s: State, inside: bool)
    requires s.batch.Collect?
    ensures LeaseHand(TimeoutNext(s, inside).batch) == LeaseHand(s.batch)
  {
  }

  lemma DispLeavesHand(s: State)
    requires DispReady(s)
    ensures
      var t := DispNext(s);
      t.leased == s.leased && t.pre == s.pre && t.batch == s.batch && t.preprocessQueue == s.preprocessQueue
  {
  }

  lemma {:induction false} RunKeepsSlots(c: Config, s: State, run: seq<Action>)
    requires Usable(c) && PlacesInv(c, s) && SlotsInv(s) && ValidRun(c, s, run)
    ensures SlotsInv(After(c, s, run))
    decreases |run|
  {
    if run != [] {
      if run[0].PreStep? {
        PreKeepsSlots(c, s);
      } else if run[0].BatchStep? {
        BatchKeepsSlots(c, s);
      } else {
        OthersKeepSlots(c, s, run[0]);
      }
      StepKeepsPlaces(c, s, run[0]);
      RunKeepsSlots(c, Next(c, s, run[0]), run[1..]);
    }
  }

  /**
    A pool slot is held only by a task whose tensor is needed: a failed or cancelled preprocessing has given
    its slot back, and so have the members of a batch that went to inference.
   */
  lemma SlotsAreNeeded(c: Config, s: State, id: nat)
    requires Usable(c) && Reachable(c, s) && id in s.leased
    ensures NeedsItsSlot(s, id)
  {
    var run :| ValidRun(c, Init(c), run) && After(c, Init(c), run) == s;
    InitInv(c);
    RunKeepsSlots(c, Init(c), run);
  }
}
