/**
  What a full tensor pool does to a task of the parallel executor, and that a slot is held only as long as
  its tensor is needed.
 */
module ParallelLeases {
  import opened Core
  import opened Stages
  import opened Tasks
  import opened BoundedFifo
  import opened ExecutorParts
  import opened ParallelExecutor
  import opened ParallelInvariant
  import opened ParallelDrain
  import opened ParallelTheorems
  import opened ParallelPool

  // ---------------------------------------------------------------- an acquire from a full pool

  /** Preprocessing of the task has ended, or is about to, because the pool was full. */
  ghost predicate WasExhausted(s: State, id: nat) {
    || (s.pre == PreRecheck(id, PoolExhausted()) && |s.given| == id)
    || (id < |s.given| && (s.given[id] == PoolExhausted() || IsCancelled(s, id)))
  }

  lemma PreKeepsExhausted(c: Config, s: State, id: nat)
    requires WasExhausted(s, id) && PreReady(s)
    ensures WasExhausted(PreNext(c, s), id)
  {
    match s.pre
    case PreWaiting =>
    case PreTaken(_) =>
    case PreCheck(_) =>
    case PreAcquire(_) =>
    case PreRun(_) =>
    case PreRecheck(_, _) =>
    case PrePush(_, _) =>
    case PreClose =>
  }

  lemma StepKeepsExhausted(c: Config, s: State, a: Action, id: nat)
    requires PlacesInv(c, s) && WasExhausted(s, id) && Enabled(c, s, a)
    ensures WasExhausted(Next(c, s, a), id)
  {
    StepOnlyAdds(c, s, a);
    if a.PreStep? {
      PreKeepsExhausted(c, s, id);
    } else {
      OthersLeavePre(c, s, a);
    }
  }

  lemma OthersLeavePre(c: Config, s: State, a: Action)
    requires Enabled(c, s, a) && !a.PreStep?
    ensures Next(c, s, a).pre == s.pre && Next(c, s, a).given == s.given
  {
    match a
    case Submit(_) =>
    case RequestStop(_) =>
    case Cancel(_) =>
    case StartWait =>
    case WakeSubmitter(_) =>
    case InfStep => InfLeavesPre(c, s);
    case PostStep => PostLeavesPre(c, s);
    case DispStep =>
    case WaiterStep =>
    case _ =>
  }

  lemma InfLeavesPre(c: Config, s: State)
    requires InfReady(s)
    ensures InfNext(c, s).pre == s.pre && InfNext(c, s).given == s.given
  {
  }

  lemma PostLeavesPre(c: Config, s: State)
    requires PostReady(s)
    ensures PostNext(c, s).pre == s.pre && PostNext(c, s).given == s.given
  {
  }

  lemma {:induction false} RunKeepsExhausted(c: Config, s: State, run: seq<Action>, id: nat)
    requires Inv(c, s) && WasExhausted(s, id) && ValidRun(c, s, run)
    ensures WasExhausted(After(c, s, run), id) && Inv(c, After(c, s, run))
    decreases |run|
  {
    if run != [] {
      StepKeepsExhausted(c, s, run[0], id);
      StepKeepsInv(c, s, run[0]);
      RunKeepsExhausted(c, Next(c, s, run[0]), run[1..], id);
    }
  }

  /** A task that finds the pool full is not preprocessed: uncancelled, it is delivered as exhausted. */
  lemma ExhaustionFailsTheTask(c: Config, s: State, run: seq<Action>)
    requires Reachable(c, s) && Exhausted(c, s) && ValidRun(c, Next(c, s, PreStep), run)
    ensures
      var t, id := After(c, Next(c, s, PreStep), run), s.pre.id;
      id < |t.delivered| && !IsCancelled(t, id) ==>
        && id < |t.tasks| && t.tasks[id].promise == Some(PoolExhausted())
        && t.tasks[id].promise.value.Err? && t.tasks[id].promise.value.status.code == ResourceExhausted
  {
    ReachableInv(c, s);
    var u := Next(c, s, PreStep);
    StepKeepsInv(c, s, PreStep);
    RunKeepsExhausted(c, u, run, s.pre.id);
    var t := After(c, u, run);
    if s.pre.id < |t.delivered| { ExhaustedAnswer(c, t, s.pre.id); }
  }

  lemma ExhaustedAnswer(c: Config, t: State, id: nat)
    requires Inv(c, t) && WasExhausted(t, id) && id < |t.delivered|
    ensures id < |t.tasks| && (!IsCancelled(t, id) ==> t.tasks[id].promise == Some(PoolExhausted()))
  {
    assert OneTaskInv(c, t, id, t.tasks[id]);
  }

  // ---------------------------------------------------------------- slots are not held in vain

  ghost predicate QueuedAt(s: State, id: nat, i: nat) {
    && i < |s.preprocessQueue.items| && s.preprocessQueue.items[i].id == id
    && s.preprocessQueue.items[i].prepared.Ok?
  }

  /** A thread is working on the tensor of the task, or it waits in the queue. */
  ghost predicate NeedsItsSlot(s: State, id: nat) {
    || s.pre == PreRun(id)
    || ((s.pre.PreRecheck? || s.pre.PrePush?) && s.pre.id == id && s.pre.prepared.Ok?)
    || (InfHolds(s.inf) && s.inf.id == id && (id, Inference) !in s.calls)
    || exists i: nat :: QueuedAt(s, id, i)
  }

  /** Inference was called only for tasks that have left the queue, and for its own task if it is past the call. */
  ghost predicate InferredInv(s: State) {
    forall id: nat :: (id, Inference) in s.calls ==>
      id < PastPreQueue(s) && (InfHolds(s.inf) && s.inf.id == id ==> s.inf.InfRecheck? || s.inf.InfPush?)
  }

  lemma PreKeepsInferred(c: Config, s: State)
    requires InferredInv(s) && PreReady(s)
    ensures InferredInv(PreNext(c, s))
  {
    PreTouches(c, s);
    PreInfersNothing(c, s);
    assert PastPreQueue(PreNext(c, s)) == PastPreQueue(s);
  }

  lemma PreInfersNothing(c: Config, s: State)
    requires PreReady(s)
    ensures forall id: nat :: (id, Inference) in PreNext(c, s).calls <==> (id, Inference) in s.calls
  {
    match s.pre
    case PreWaiting =>
    case PreTaken(_) =>
    case PreCheck(_) =>
    case PreAcquire(_) =>
    case PreRun(_) =>
    case PreRecheck(_, _) =>
    case PrePush(_, _) =>
    case PreClose =>
  }

  lemma InfKeepsInferred(c: Config, s: State)
    requires OrderInv(s) && InferredInv(s) && InfReady(s) && OrderInv(InfNext(c, s))
    ensures InferredInv(InfNext(c, s))
  {
    InfMovesOn(c, s);
  }

  lemma InfMovesOn(c: Config, s: State)
    requires OrderInv(s) && InfReady(s) && OrderInv(InfNext(c, s))
    ensures
      var t := InfNext(c, s);
      && PastPreQueue(t) == PastPreQueue(s) + One(s.inf.InfPop? && s.preprocessQueue.CanPop())
      && t.calls == s.calls + (if s.inf.InfRun? then {(s.inf.id, Inference)} else {})
      && (InfHolds(s.inf) && InfHolds(t.inf) ==> t.inf.id == s.inf.id && (t.inf.InfRun? ==> s.inf.InfCheck?))
  {
    PastFromTheFront(s);
    PastFromTheFront(InfNext(c, s));
    InfTakesOne(c, s);
  }

  lemma InfTakesOne(c: Config, s: State)
    requires InfReady(s)
    ensures
      var t := InfNext(c, s);
      && t.tasks == s.tasks && t.entry == s.entry && t.pre == s.pre
      && |t.preprocessQueue.items| == |s.preprocessQueue.items| - One(s.inf.InfPop? && s.preprocessQueue.CanPop())
      && t.calls == s.calls + (if s.inf.InfRun? then {(s.inf.id, Inference)} else {})
      && (InfHolds(s.inf) && InfHolds(t.inf) ==> t.inf.id == s.inf.id && (t.inf.InfRun? ==> s.inf.InfCheck?))
  {
    match s.inf
    case InfPop =>
    case InfCheck(_, _) =>
    case InfRun(_, _) =>
    case InfRecheck(_, _) =>
    case InfPush(_, _) =>
    case InfClose =>
  }

  lemma PastFromTheFront(s: State)
    requires OrderInv(s)
    ensures PastPreQueue(s) == |s.tasks| - |s.entry| - One(PreHolds(s.pre)) - |s.preprocessQueue.items|
  {
  }

  lemma OthersKeepInferred(c: Config, s: State, a: Action)
    requires OrderInv(s) && InferredInv(s) && Enabled(c, s, a) && !a.PreStep? && !a.InfStep?
    requires OrderInv(Next(c, s, a))
    ensures InferredInv(Next(c, s, a))
  {
    PastFromTheFront(s);
    PastFromTheFront(Next(c, s, a));
    OthersLeaveSlots(c, s, a);
    OthersInferNothing(c, s, a);
  }

  lemma OthersInferNothing(c: Config, s: State, a: Action)
    requires Enabled(c, s, a) && !a.PreStep? && !a.InfStep?
    ensures
      var t := Next(c, s, a);
      && |t.tasks| - |t.entry| == |s.tasks| - |s.entry|
      && forall id: nat :: (id, Inference) in t.calls <==> (id, Inference) in s.calls
  {
    match a
    case Submit(_) =>
    case RequestStop(_) =>
    case Cancel(_) =>
    case StartWait =>
    case WakeSubmitter(_) =>
    case PostStep => PostInfersNothing(c, s);
    case DispStep =>
    case WaiterStep =>
    case _ =>
  }

  lemma PostInfersNothing(c: Config, s: State)
    requires PostReady(s)
    ensures PostNext(c, s).tasks == s.tasks && PostNext(c, s).entry == s.entry
    ensures forall id: nat :: (id, Inference) in PostNext(c, s).calls <==> (id, Inference) in s.calls
  {
  }

  ghost predicate SlotsInv(s: State) { forall id :: id in s.leased ==> NeedsItsSlot(s, id) }

  lemma PreKeepsSlots(c: Config, s: State)
    requires OrderInv(s) && ControlInv(c, s) && SlotsInv(s) && PreReady(s)
    ensures SlotsInv(PreNext(c, s))
  {
    var t := PreNext(c, s);
    forall id | id in t.leased
      ensures NeedsItsSlot(t, id)
    {
      PreKeepsOneSlot(c, s, id);
    }
  }

  lemma PreKeepsOneSlot(c: Config, s: State, id: nat)
    requires OrderInv(s) && ControlInv(c, s) && SlotsInv(s) && PreReady(s) && id in PreNext(c, s).leased
    ensures NeedsItsSlot(PreNext(c, s), id)
  {
    var t := PreNext(c, s);
    if s.pre.PrePush? {
      PushKeepsOneSlot(c, s, id);
    } else {
      PreLeavesQueue(c, s);
      if id in s.leased {
        assert NeedsItsSlot(s, id);
        if i: nat :| QueuedAt(s, id, i) { assert QueuedAt(t, id, i); }
      }
    }
  }

  lemma PreLeavesQueue(c: Config, s: State)
    requires PreReady(s) && !s.pre.PrePush?
    ensures PreNext(c, s).preprocessQueue.items == s.preprocessQueue.items && PreNext(c, s).inf == s.inf
  {
    match s.pre
    case PreWaiting =>
    case PreTaken(_) =>
    case PreCheck(_) =>
    case PreAcquire(_) =>
    case PreRun(_) =>
    case PreRecheck(_, _) =>
    case PreClose =>
  }

  lemma PushKeepsOneSlot(c: Config, s: State, id: nat)
    requires OrderInv(s) && ControlInv(c, s) && SlotsInv(s) && PreReady(s) && s.pre.PrePush?
    requires id in PreNext(c, s).leased
    ensures NeedsItsSlot(PreNext(c, s), id)
  {
    var t := PreNext(c, s);
    assert NeedsItsSlot(s, id);
    if i: nat :| QueuedAt(s, id, i) {
      assert QueuedAt(t, id, i);
    } else if s.pre.id == id && s.pre.prepared.Ok? {
      assert s.preprocessQueue.CanPush();
      assert QueuedAt(t, id, |s.preprocessQueue.items|);
    }
  }

  lemma InfKeepsSlots(c: Config, s: State)
    requires OrderInv(s) && InferredInv(s) && SlotsInv(s) && InfReady(s)
    ensures SlotsInv(InfNext(c, s))
  {
    var t := InfNext(c, s);
    InfLeavesPre(c, s);
    forall id | id in t.leased
      ensures NeedsItsSlot(t, id)
    {
      assert NeedsItsSlot(s, id);
      if i: nat :| QueuedAt(s, id, i) {
        InfKeepsQueued(c, s, id, i);
      } else {
        InfKeepsItsOwn(c, s, id);
      }
    }
  }

  lemma InfKeepsItsOwn(c: Config, s: State, id: nat)
    requires OrderInv(s) && InfReady(s) && id in InfNext(c, s).leased && NeedsItsSlot(s, id)
    requires forall i: nat :: !QueuedAt(s, id, i)
    ensures NeedsItsSlot(InfNext(c, s), id)
  {
    InfLeavesPre(c, s);
  }

  lemma InfKeepsQueued(c: Config, s: State, id: nat, i: nat)
    requires OrderInv(s) && InferredInv(s) && InfReady(s) && QueuedAt(s, id, i)
    ensures NeedsItsSlot(InfNext(c, s), id)
  {
    var t := InfNext(c, s);
    if !s.inf.InfPop? {
      assert QueuedAt(t, id, i);
    } else if i > 0 {
      assert QueuedAt(t, id, i - 1);
    }
  }

  lemma OthersKeepSlots(c: Config, s: State, a: Action)
    requires SlotsInv(s) && Enabled(c, s, a) && !a.PreStep? && !a.InfStep?
    ensures SlotsInv(Next(c, s, a))
  {
    var t := Next(c, s, a);
    OthersLeaveSlots(c, s, a);
    forall id | id in t.leased
      ensures NeedsItsSlot(t, id)
    {
      assert NeedsItsSlot(s, id);
      if i: nat :| QueuedAt(s, id, i) { assert QueuedAt(t, id, i); }
    }
  }

  lemma OthersLeaveSlots(c: Config, s: State, a: Action)
    requires Enabled(c, s, a) && !a.PreStep? && !a.InfStep?
    ensures
      var t := Next(c, s, a);
      t.leased == s.leased && t.pre == s.pre && t.inf == s.inf && t.preprocessQueue == s.preprocessQueue
  {
    match a
    case Submit(_) =>
    case RequestStop(_) =>
    case Cancel(_) =>
    case StartWait =>
    case WakeSubmitter(_) =>
    case PostStep => PostLeavesSlots(c, s);
    case DispStep =>
    case WaiterStep =>
    case _ =>
  }

  lemma PostLeavesSlots(c: Config, s: State)
    requires PostReady(s)
    ensures
      var t := PostNext(c, s);
      t.leased == s.leased && t.pre == s.pre && t.inf == s.inf && t.preprocessQueue == s.preprocessQueue
  {
  }

  lemma StepKeepsSlots(c: Config, s: State, a: Action)
    requires PlacesInv(c, s) && SlotsInv(s) && InferredInv(s) && Enabled(c, s, a) && OrderInv(Next(c, s, a))
    ensures SlotsInv(Next(c, s, a)) && InferredInv(Next(c, s, a))
  {
    if a.PreStep? {
      PreKeepsSlots(c, s);
      PreKeepsInferred(c, s);
    } else if a.InfStep? {
      InfKeepsSlots(c, s);
      InfKeepsInferred(c, s);
    } else {
      OthersKeepSlots(c, s, a);
      OthersKeepInferred(c, s, a);
    }
  }

  lemma {:induction false} RunKeepsSlots(c: Config, s: State, run: seq<Action>)
    requires PlacesInv(c, s) && SlotsInv(s) && InferredInv(s) && ValidRun(c, s, run)
    ensures SlotsInv(After(c, s, run))
    decreases |run|
  {
    if run != [] {
      StepKeepsPlaces(c, s, run[0]);
      StepKeepsSlots(c, s, run[0]);
      RunKeepsSlots(c, Next(c, s, run[0]), run[1..]);
    }
  }

  /**
    A pool slot is held only by a task whose tensor is being filled, was filled and waits, or is in the hands
    of inference: a failed or cancelled preprocessing and a finished inference have given theirs back.
   */
  lemma SlotsAreNeeded(c: Config, s: State, id: nat)
    requires Reachable(c, s) && id in s.leased
    ensures NeedsItsSlot(s, id)
  {
    var run :| ValidRun(c, Init(c), run) && After(c, Init(c), run) == s;
    InitInv(c);
    RunKeepsSlots(c, Init(c), run);
  }
}
