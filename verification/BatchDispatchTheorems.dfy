/**
  What the batch executor guarantees with the ring its threads really dispatch through: everything
  BatchTheorems and BatchDrain say, exactly as long as no two dispatches overlap.
 */
module BatchDispatchTheorems {
  import opened Core
  import opened Stages
  import opened Tasks
  import opened BoundedFifo
  import opened ExecutorParts
  import opened BatchExecutor
  import opened BatchInvariant
  import opened BatchFlow
  import opened BatchTheorems
  import opened BatchDrain
  import opened BatchDispatch
  import R = DispatcherRing

  // ---------------------------------------------------------------- conservation

  /** How often a task occurs in the places before the dispatcher's ring. */
  ghost function PlacesBefore(s: State, id: nat): nat {
    Occurs(BatchHand(s.batch), id) + Occurs(CompletionIds(s.postprocessQueue.items), id) + Occurs(PostHand(s.post), id)
    + Occurs(PreparedIds(s.preprocessQueue.items), id) + Occurs(PreHand(s.pre), id) + Occurs(s.entry, id)
  }

  lemma OccursConcat(first: seq<nat>, second: seq<nat>, id: nat)
    ensures Occurs(first + second, id) == Occurs(first, id) + Occurs(second, id)
  {
    if first == [] {
      assert first + second == second;
    } else {
      assert (first + second)[1..] == first[1..] + second;
      OccursConcat(first[1..], second, id);
    }
  }

  /** In every run, overlapping or not: a task is still on its way or the ring has accepted it, once. */
  lemma EachTaskIsAcceptedOnce(c: Config, w: Whole, id: nat)
    requires Usable(c) && Happens(c, w)
    ensures PlacesBefore(w.inner, id) + Occurs(CompletionIds(w.ring.accepted), id)
            == if id < |w.inner.packets| then 1 else 0
  {
    HappensInv(c, w);
    EachTaskIsInOnePlace(c, w.inner, id);
  }

  /** Until two dispatches overlap, each accepted task is in exactly one place, once. */
  lemma WithoutOverlapEachTaskIsInOnePlace(c: Config, w: Whole, id: nat)
    requires Usable(c) && Happens(c, w) && !w.ring.overlapped
    ensures w.ring.head <= |w.ring.accepted|
    ensures
      PlacesBefore(w.inner, id) + Occurs(CompletionIds(w.ring.accepted[w.ring.head..]), id)
      + Occurs(CompletionIds(w.ring.popped), id)
      == if id < |w.inner.packets| then 1 else 0
    ensures |w.ring.accepted[w.ring.head..]| <= c.stageQueueCapacity
  {
    HappensInv(c, w);
    EachTaskIsAcceptedOnce(c, w, id);
    var stored := w.ring.accepted[w.ring.head..];
    assert CompletionIds(w.ring.accepted) == CompletionIds(w.ring.popped) + CompletionIds(stored);
    OccursConcat(CompletionIds(w.ring.popped), CompletionIds(stored), id);
  }

  // ---------------------------------------------------------------- rest

  ghost predicate RingAtRest(r: R.Ring<Completion>) {
    && R.NobodyPushes(r) && r.head == r.tail
    && (r.popper.Ended? || (r.popper.Looking? && !r.closed))
  }

  ghost predicate WholeEnded(w: Whole) { ThreadsEnded(w.inner) && RingAtRest(w.ring) }

  ghost predicate WholeAtRest(w: Whole) { AtRest(w.inner) && RingAtRest(w.ring) }

  /** Every accepted task was completed: the dispatcher has popped its completion. */
  ghost predicate EveryoneCompleted(w: Whole) {
    forall id: nat :: id < |w.inner.packets| ==> id in CompletionIds(w.ring.popped)
  }

  lemma DistinctCard(ids: seq<nat>)
    requires forall id: nat :: Occurs(ids, id) <= 1
    ensures |Elements(ids)| == |ids|
  {
    if ids == [] {
      assert Elements(ids) == {};
    } else {
      forall id: nat
        ensures Occurs(ids[1..], id) <= 1
      {
        assert Occurs(ids, id) <= 1;
      }
      DistinctCard(ids[1..]);
      assert Occurs(ids, ids[0]) <= 1;
      OccursMember(ids[1..], ids[0]);
      assert Elements(ids) == Elements(ids[1..]) + {ids[0]};
    }
  }

  lemma UptoHas(n: nat)
    ensures forall x: nat :: x in Elements(Upto(n)) <==> x < n
  {
    forall x: nat | x < n
      ensures x in Elements(Upto(n))
    {
      assert Upto(n)[x] == x;
    }
  }

  lemma UptoCard(n: nat)
    ensures |Elements(Upto(n))| == n
  {
    UptoHas(n);
    if n == 0 {
      assert Elements(Upto(n)) == {};
    } else {
      UptoCard(n - 1);
      UptoHas(n - 1);
      assert Elements(Upto(n)) == Elements(Upto(n - 1)) + {n - 1};
    }
  }

  /** Fewer than `n` completions do not complete tasks 0 to n - 1. */
  lemma TooFewForAll(ids: seq<nat>, n: nat)
    requires forall id: nat :: id < n ==> id in ids
    ensures n <= |ids|
  {
    UptoHas(n);
    UptoCard(n);
    SubsetCard(Elements(Upto(n)), Elements(ids));
    ElementsCard(ids);
  }

  lemma AcceptedAreFew(c: Config, w: Whole)
    requires Usable(c) && Happens(c, w)
    ensures |w.ring.accepted| <= |w.inner.packets| - |w.inner.preprocessQueue.items|
  {
    HappensInv(c, w);
    ReachablePlaces(c, w.inner);
    var ids := w.inner.delivered;
    assert |ids| == |CompletionIds(w.ring.accepted)|;
    forall id: nat
      ensures Occurs(ids, id) <= if id < Taken(w.inner) then 1 else 0
    {
      assert Census(w.inner, id) == if id < Taken(w.inner) then 1 else 0;
    }
    DistinctCard(ids);
    forall id | id in Elements(ids)
      ensures 0 <= id < Taken(w.inner)
    {
      OccursMember(ids, id);
    }
    IntervalCard(Elements(ids), 0, Taken(w.inner));
  }

  /**
    The exact condition for losing nobody: at rest every accepted task is completed if and only if no
    task was left in the preprocessed queue and no two dispatches overlapped.
   */
  lemma RestCompletesAllIff(c: Config, w: Whole)
    requires Usable(c) && Happens(c, w) && WholeEnded(w)
    ensures EveryoneCompleted(w) <==> w.inner.preprocessQueue.items == [] && !w.ring.overlapped
  {
    HappensInv(c, w);
    if w.ring.overlapped {
      AcceptedAreFew(c, w);
      if EveryoneCompleted(w) { TooFewForAll(CompletionIds(w.ring.popped), |w.inner.packets|); }
    } else {
      assert w.ring.accepted[..w.ring.tail] == w.ring.accepted;
      forall id: nat | id < |w.inner.packets|
        ensures id < |w.inner.tasks|
        ensures id in CompletionIds(w.ring.popped) <==> w.inner.tasks[id].promise.Some?
      {
        EachTaskIsInOnePlace(c, w.inner, id);
      }
      RestCompletes(c, w.inner);
      ReachablePlaces(c, w.inner);
    }
  }

  /** The same, counted: as many completions as accepted tasks are carried out if and only if all are. */
  lemma RestCountsAllIff(c: Config, w: Whole)
    requires Usable(c) && Happens(c, w) && WholeEnded(w)
    ensures |w.ring.popped| <= |w.inner.packets|
    ensures |w.ring.popped| == |w.inner.packets| <==> w.inner.preprocessQueue.items == [] && !w.ring.overlapped
  {
    HappensInv(c, w);
    AcceptedAreFew(c, w);
    RestCompletesAllIff(c, w);
    if EveryoneCompleted(w) { TooFewForAll(CompletionIds(w.ring.popped), |w.inner.packets|); }
  }

  // ---------------------------------------------------------------- after a stop

  ghost predicate OwnMove(m: Move) { m.Inner? ==> OwnStep(m.action) }

  ghost predicate Stopped(w: Whole) { w.inner.stopRequested }

  /** A thread inside `dispatch` can go on, or the dispatcher can make room for it. */
  lemma DispatchGoesOn(c: Config, w: Whole, who: nat) returns (m: Move)
    requires Usable(c) && WholeInv(c, w) && !w.ring.overlapped && who < 2 && Offered(w.inner, who).Some?
    ensures OwnMove(m) && Possible(c, w, m)
  {
    ReachablePlaces(c, w.inner);
    OfferedIsOpen(c, w.inner, who, Offered(w.inner, who).value);
    if w.ring.closed { ClosedMeansQuiet(c, w); }
    if w.ring.pushers[who].Idle? {
      m := Offer(who);
    } else if w.ring.pushers[who].AwaitSpace? && R.Full(w.ring.tail, w.ring.head, |w.ring.slots|) {
      m := Pop;
    } else {
      m := Push(who);
    }
  }

  lemma RingGoesOn(c: Config, w: Whole) returns (m: Move)
    requires Usable(c) && WholeInv(c, w) && !w.ring.overlapped
    requires w.ring.popper.PublishHead? || w.ring.head != w.ring.tail || (w.ring.closed && !w.ring.popper.Ended?)
    ensures OwnMove(m) && Possible(c, w, m)
  {
    m := Pop;
  }

  /** After a stop, short of rest, some thread of the executor has a step. */
  lemma SomeoneCanMove(c: Config, w: Whole) returns (m: Move)
    requires Usable(c) && WholeInv(c, w) && !w.ring.overlapped && Stopped(w) && !WholeAtRest(w)
    ensures OwnMove(m) && Possible(c, w, m)
  {
    if Offered(w.inner, 0).Some? {
      m := DispatchGoesOn(c, w, 0);
    } else if Offered(w.inner, 1).Some? {
      m := DispatchGoesOn(c, w, 1);
    } else if w.ring.popper.PublishHead? || w.ring.head != w.ring.tail || (w.ring.closed && !w.ring.popper.Ended?) {
      m := RingGoesOn(c, w);
    } else {
      m := StagesGoOn(c, w);
    }
  }

  lemma StagesGoOn(c: Config, w: Whole) returns (m: Move)
    requires Usable(c) && WholeInv(c, w) && !w.ring.overlapped && Stopped(w) && !WholeAtRest(w)
    requires Offered(w.inner, 0).None? && Offered(w.inner, 1).None?
    requires w.ring.head == w.ring.tail && (w.ring.closed <==> w.ring.popper.Ended?) && !w.ring.popper.PublishHead?
    ensures OwnMove(m) && Possible(c, w, m)
  {
    ReachablePlaces(c, w.inner);
    assert R.NobodyPushes(w.ring) by { assert Carries(w, 0) && Carries(w, 1); }
    var a := BatchDrain.SomeoneCanMove(c, w.inner);
    m := if !a.WaiterStep? then Inner(a) else if w.inner.waiter.JoiningStages? then CloseInput else JoinDispatcher;
  }

  // ---------------------------------------------------------------- a bound on the steps left

  /** A refusal is possible only while the ring is full, or with a tail that another producer has moved. */
  ghost function PusherWork(p: R.Pusher<Completion>, full: bool, tail: nat): nat {
    match p
    case Idle => 12
    case TestClosed(_) => if full then 11 else 5
    case ReadTail(_) => if full then 10 else 4
    case ReadHead(_, t) => if full || t != tail then 9 else 3
    case AwaitSpace(_) => 6
    case FillSlot(_, _) => 2
    case PublishTail(_, _) => 1
  }

  ghost function PopperWork(p: R.Popper<Completion>): nat {
    if p.Looking? then 2 else if p.PublishHead? then 1 else 0
  }

  ghost predicate RingIsFull(r: R.Ring<Completion>) { R.Full(r.tail, r.head, |r.slots|) }

  ghost function RingWork(r: R.Ring<Completion>): int
    requires |r.pushers| == 2
  {
    PusherWork(r.pushers[0], RingIsFull(r), r.tail) + PusherWork(r.pushers[1], RingIsFull(r), r.tail)
    + 3 * (r.tail - r.head) + PopperWork(r.popper)
  }

  ghost function WholeMeasure(w: Whole): int
    requires |w.ring.pushers| == 2
  {
    40 * Measure(w.inner) + RingWork(w.ring)
  }

  lemma PushLowersRingWork(r: R.Ring<Completion>, who: nat)
    requires R.RingInv(r) && !r.overlapped && |r.pushers| == 2 && !r.closed && R.Can(r, R.PushStep(who))
    requires !R.Do(r, R.PushStep(who)).overlapped
    ensures r.pushers[who].PublishTail? ==> RingWork(R.Do(r, R.PushStep(who))) <= RingWork(r) + 20
    ensures !r.pushers[who].PublishTail? ==> RingWork(R.Do(r, R.PushStep(who))) < RingWork(r)
    ensures !r.pushers[who].PublishTail? ==> !R.Do(r, R.PushStep(who)).pushers[who].Idle?
  {
    assert R.LoadedInv(r, r.pushers[who]);
  }

  lemma PopLowersRingWork(r: R.Ring<Completion>)
    requires R.RingInv(r) && !r.overlapped && |r.pushers| == 2 && R.Can(r, R.PopStep)
    ensures RingWork(R.PopNext(r)) < RingWork(r)
  {
  }

  lemma HandOverLowersMeasure(c: Config, s: State, who: nat, x: Completion)
    requires Usable(c) && PlacesInv(c, s) && s.stopRequested && Prompt(s, false)
    requires who < 2 && Offered(s, who) == Some(x)
    ensures Measure(WithAnswer(MovedOn(c, s, who), x)) < Measure(s)
  {
    OfferedIsOpen(c, s, who, x);
    HandOverStep(c, s, who, x);
    OwnStepLowersMeasure(c, s, HandOver(who));
  }

  lemma PushLowersMeasure(c: Config, w: Whole, who: nat)
    requires Usable(c) && WholeInv(c, w) && Stopped(w) && Possible(c, w, Push(who))
    requires !w.ring.overlapped && !PushMove(c, w, who).ring.overlapped
    ensures |PushMove(c, w, who).ring.pushers| == 2 && WholeMeasure(PushMove(c, w, who)) < WholeMeasure(w)
  {
    if w.ring.closed { ClosedMeansQuiet(c, w); }
    R.DoKeepsInv(w.ring, R.PushStep(who));
    PushLowersRingWork(w.ring, who);
    if w.ring.pushers[who].PublishTail? {
      assert Carries(w, who);
      ReachablePlaces(c, w.inner);
      HandOverLowersMeasure(c, w.inner, who, w.ring.pushers[who].v);
    }
  }

  lemma OwnMoveLowersMeasure(c: Config, w: Whole, m: Move)
    requires Usable(c) && WholeInv(c, w) && Stopped(w) && OwnMove(m) && Possible(c, w, m)
    requires !w.ring.overlapped && !Moved(c, w, m).ring.overlapped
    ensures |Moved(c, w, m).ring.pushers| == 2 && WholeMeasure(Moved(c, w, m)) < WholeMeasure(w)
  {
    if m.Push? {
      PushLowersMeasure(c, w, m.who);
    } else if m.Pop? {
      PopLowersRingWork(w.ring);
    } else if m.Inner? {
      ReachablePlaces(c, w.inner);
      OwnStepLowersMeasure(c, w.inner, m.action);
    } else {
      EndMoveLowersMeasure(c, w, m);
    }
  }

  lemma EndMoveLowersMeasure(c: Config, w: Whole, m: Move)
    requires WholeInv(c, w) && (m.Offer? || m.CloseInput? || m.JoinDispatcher?) && Possible(c, w, m)
    ensures |Moved(c, w, m).ring.pushers| == 2 && WholeMeasure(Moved(c, w, m)) < WholeMeasure(w)
  {
  }

  lemma OutsideMoveCannotRaiseMeasure(c: Config, w: Whole, m: Move)
    requires Usable(c) && WholeInv(c, w) && Stopped(w) && !OwnMove(m) && Possible(c, w, m)
    ensures WholeMeasure(Moved(c, w, m)) <= WholeMeasure(w)
  {
    ReachablePlaces(c, w.inner);
    OutsideCannotRaiseMeasure(c, w.inner, m.action);
  }

  lemma StopStays(c: Config, w: Whole, m: Move)
    requires Usable(c) && WholeInv(c, w) && Stopped(w) && Possible(c, w, m)
    ensures Stopped(Moved(c, w, m))
  {
    if m.Inner? {
      StopIsForGood(c, w.inner, m.action);
    } else if m.Push? && Enabled(c, w.inner, HandOver(m.who)) {
      StopIsForGood(c, w.inner, HandOver(m.who));
    }
  }

  lemma OverlapStays(c: Config, w: Whole, m: Move)
    requires Possible(c, w, m) && w.ring.overlapped
    ensures Moved(c, w, m).ring.overlapped
  {
  }

  lemma {:induction false} OverlapStaysOverRuns(c: Config, w: Whole, run: seq<Move>)
    requires Moves(c, w, run) && w.ring.overlapped
    ensures Ending(c, w, run).ring.overlapped
    decreases |run|
  {
    if run != [] {
      OverlapStays(c, w, run[0]);
      OverlapStaysOverRuns(c, Moved(c, w, run[0]), run[1..]);
    }
  }

  ghost function OwnMoves(run: seq<Move>): nat {
    if run == [] then 0 else One(OwnMove(run[0])) + OwnMoves(run[1..])
  }

  lemma MovesAfterStopAreBounded(c: Config, w: Whole, run: seq<Move>)
    requires Usable(c) && WholeInv(c, w) && Stopped(w) && Moves(c, w, run) && !Ending(c, w, run).ring.overlapped
    ensures WholeInv(c, Ending(c, w, run)) && Stopped(Ending(c, w, run))
    ensures OwnMoves(run) + WholeMeasure(Ending(c, w, run)) <= WholeMeasure(w)
    decreases |run|
  {
    if run != [] {
      var m := run[0];
      if w.ring.overlapped { OverlapStaysOverRuns(c, w, run); }
      if Moved(c, w, m).ring.overlapped { OverlapStaysOverRuns(c, Moved(c, w, m), run[1..]); }
      if OwnMove(m) {
        OwnMoveLowersMeasure(c, w, m);
      } else {
        OutsideMoveCannotRaiseMeasure(c, w, m);
      }
      StopStays(c, w, m);
      MoveKeepsInv(c, w, m);
      MovesAfterStopAreBounded(c, Moved(c, w, m), run[1..]);
    }
  }

  lemma WholeMeasureIsNatural(c: Config, w: Whole)
    requires Usable(c) && WholeInv(c, w) && !w.ring.overlapped
    ensures WholeMeasure(w) >= 0
  {
    ReachablePlaces(c, w.inner);
    MeasureIsNatural(c, w.inner);
  }

  // ---------------------------------------------------------------- the drain theorem

  ghost predicate MissesMove(w: Whole, m: Move) { m.Inner? && MissesItems(w.inner, m.action) }

  ghost predicate MissesOver(c: Config, w: Whole, run: seq<Move>)
    requires Moves(c, w, run)
    decreases |run|
  {
    run != [] && (MissesMove(w, run[0]) || MissesOver(c, Moved(c, w, run[0]), run[1..]))
  }

  lemma MoveLeavesItems(c: Config, w: Whole, m: Move)
    requires Usable(c) && WholeInv(c, w) && Possible(c, w, m)
    ensures LeavesItems(Moved(c, w, m).inner) <==> LeavesItems(w.inner) || MissesMove(w, m)
  {
    if m.Inner? {
      ReachablePlaces(c, w.inner);
      StepLeavesItems(c, w.inner, m.action);
    } else if m.Push? {
      PushLeavesItems(c, w, m.who);
    }
  }

  lemma PushLeavesItems(c: Config, w: Whole, who: nat)
    requires Usable(c) && WholeInv(c, w) && Possible(c, w, Push(who))
    ensures LeavesItems(PushMove(c, w, who).inner) <==> LeavesItems(w.inner)
  {
    if w.ring.closed { ClosedMeansQuiet(c, w); }
    assert Carries(w, who);
    MovingOnLeavesItems(c, w.inner, who);
  }

  lemma MovingOnLeavesItems(c: Config, s: State, who: nat)
    requires Usable(c) && Reachable(c, s) && who < 2 && Offered(s, who).Some?
    ensures LeavesItems(MovedOn(c, s, who)) <==> LeavesItems(s)
  {
    ReachablePlaces(c, s);
    if Enabled(c, s, HandOver(who)) { StepLeavesItems(c, s, HandOver(who)); }
  }

  lemma {:induction false} RunLeavesItemsIff(c: Config, w: Whole, run: seq<Move>)
    requires Usable(c) && WholeInv(c, w) && Moves(c, w, run)
    ensures LeavesItems(Ending(c, w, run).inner) <==> LeavesItems(w.inner) || MissesOver(c, w, run)
    decreases |run|
  {
    if run != [] {
      MoveLeavesItems(c, w, run[0]);
      MoveKeepsInv(c, w, run[0]);
      RunLeavesItemsIff(c, Moved(c, w, run[0]), run[1..]);
    }
  }

  ghost predicate SettledDown(c: Config, w: Whole) { forall m :: OwnMove(m) ==> !Possible(c, w, m) }

  /**
    The drain theorem for the executor with its real ring. Until dispatches overlap, the executor's
    steps after a stop are bounded and it can end only at rest; and a rest has completed every accepted
    task if and only if no second look missed an item and no two dispatches ever overlapped.
   */
  lemma StopDrains(c: Config, before: seq<Move>, run: seq<Move>)
    requires Usable(c) && Moves(c, Start(c), before) && Stopped(Ending(c, Start(c), before))
    requires Moves(c, Ending(c, Start(c), before), run)
    ensures Moves(c, Start(c), before + run)
    ensures |Ending(c, Start(c), before).ring.pushers| == 2
    ensures
      var t := Ending(c, Start(c), before + run);
      && (!t.ring.overlapped ==> OwnMoves(run) <= WholeMeasure(Ending(c, Start(c), before)))
      && (!t.ring.overlapped && SettledDown(c, t) ==> WholeAtRest(t))
      && (WholeAtRest(t) ==>
            (EveryoneCompleted(t) <==> !MissesOver(c, Start(c), before + run) && !t.ring.overlapped))
  {
    StartInv(c);
    MovesKeepInv(c, Start(c), before);
    MovesCompose(c, Start(c), before, run);
    var w, t := Ending(c, Start(c), before), Ending(c, Start(c), before + run);
    HappensInv(c, t);
    if !t.ring.overlapped {
      MovesAfterStopAreBounded(c, w, run);
      WholeMeasureIsNatural(c, t);
      if SettledDown(c, t) && !WholeAtRest(t) {
        var m := SomeoneCanMove(c, t);
      }
    }
    RunLeavesItemsIff(c, Start(c), before + run);
    if WholeAtRest(t) { RestCompletesAllIff(c, t); }
  }

  lemma MovesCompose(c: Config, w: Whole, first: seq<Move>, second: seq<Move>)
    requires Moves(c, w, first) && Moves(c, Ending(c, w, first), second)
    ensures Moves(c, w, first + second)
    ensures Ending(c, w, first + second) == Ending(c, Ending(c, w, first), second)
    decreases |first|
  {
    if first == [] {
      assert first + second == second;
    } else {
      assert (first + second)[1..] == first[1..] + second;
      MovesCompose(c, Moved(c, w, first[0]), first[1..], second);
    }
  }
}
