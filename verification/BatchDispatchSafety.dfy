/**
  What the batch executor keeps even when dispatches overlap: a completion can be lost, but no task is
  completed twice and none with an answer that is not its own.
 */
module BatchDispatchSafety {
  import opened Core
  import opened Stages
  import opened Tasks
  import opened BoundedFifo
  import opened ExecutorParts
  import opened BatchExecutor
  import opened BatchInvariant
  import opened BatchFlow
  import opened BatchTheorems
  import opened BatchDispatch
  import opened BatchDispatchTheorems
  import R = DispatcherRing

  // ---------------------------------------------------------------- nobody twice

  ghost function ValueIds(cell: Option<Completion>): seq<nat> { if cell.Some? then [cell.value.id] else [] }

  /** The tasks whose completions are in the slots. */
  ghost function SlotIds(slots: seq<Option<Completion>>): seq<nat> {
    if slots == [] then [] else ValueIds(slots[0]) + SlotIds(slots[1..])
  }

  lemma {:induction false} SlotUpdate(slots: seq<Option<Completion>>, i: nat, x: Option<Completion>, id: nat)
    requires i < |slots|
    ensures Occurs(SlotIds(slots[i := x]), id) + Occurs(ValueIds(slots[i]), id)
            == Occurs(SlotIds(slots), id) + Occurs(ValueIds(x), id)
  {
    OccursConcat(ValueIds(slots[0]), SlotIds(slots[1..]), id);
    OccursConcat(ValueIds(slots[i := x][0]), SlotIds(slots[i := x][1..]), id);
    if i == 0 {
      assert slots[i := x][1..] == slots[1..];
    } else {
      assert slots[i := x][1..] == slots[1..][i - 1 := x];
      SlotUpdate(slots[1..], i - 1, x, id);
    }
  }

  ghost function HeldIds(p: R.Popper<Completion>): seq<nat> { if p.PublishHead? then [p.v.id] else [] }

  ghost function FilledIds(p: R.Pusher<Completion>): seq<nat> { if p.PublishTail? then [p.v.id] else [] }

  /** How often a task's completion is in a slot, in the dispatcher's hand or popped. */
  ghost function Shown(r: R.Ring<Completion>, id: nat): nat {
    Occurs(SlotIds(r.slots), id) + Occurs(HeldIds(r.popper), id) + Occurs(CompletionIds(r.popped), id)
  }

  /** How often it was written to a slot: it was accepted, or is about to be. */
  ghost function Filled(r: R.Ring<Completion>, id: nat): nat
    requires |r.pushers| == 2
  {
    Occurs(CompletionIds(r.accepted), id) + Occurs(FilledIds(r.pushers[0]), id) + Occurs(FilledIds(r.pushers[1]), id)
  }

  ghost predicate OnceInv(r: R.Ring<Completion>) {
    |r.pushers| == 2 && forall id: nat :: Shown(r, id) <= Filled(r, id)
  }

  lemma FreshOnce(slots: seq<Option<Completion>>)
    requires forall i :: 0 <= i < |slots| ==> slots[i].None?
    ensures SlotIds(slots) == []
  {
  }

  /** What a step of a producer changes of all this. */
  lemma FillChanges(r: R.Ring<Completion>, who: nat)
    requires R.Can(r, R.PushStep(who)) && r.pushers[who].FillSlot? && |r.pushers| == 2
    ensures
      var p, t := r.pushers[who], R.PushNext(r, who);
      && t == r.(slots := r.slots[p.tail % |r.slots| := Some(p.v)], pushers := t.pushers)
      && t.pushers == r.pushers[who := R.PublishTail(p.v, p.tail)]
  {
  }

  lemma FillKeepsOnce(r: R.Ring<Completion>, who: nat, id: nat)
    requires R.Can(r, R.PushStep(who)) && r.pushers[who].FillSlot? && |r.pushers| == 2 && Shown(r, id) <= Filled(r, id)
    ensures Shown(R.PushNext(r, who), id) <= Filled(R.PushNext(r, who), id)
  {
    var p := r.pushers[who];
    FillChanges(r, who);
    SlotUpdate(r.slots, p.tail % |r.slots|, Some(p.v), id);
  }

  lemma PublishKeepsOnce(r: R.Ring<Completion>, who: nat, id: nat)
    requires R.Can(r, R.PushStep(who)) && r.pushers[who].PublishTail? && |r.pushers| == 2
    requires Shown(r, id) <= Filled(r, id)
    ensures Shown(R.PushNext(r, who), id) <= Filled(R.PushNext(r, who), id)
  {
    IdsPush(r.accepted, r.pushers[who].v, id);
    OccursOne(r.pushers[who].v.id, id);
  }

  lemma ApproachFillsNothing(r: R.Ring<Completion>, who: nat)
    requires R.Can(r, R.PushStep(who)) && !R.Committed(r.pushers[who])
    ensures
      var t := R.PushNext(r, who);
      t == r.(pushers := r.pushers[who := t.pushers[who]]) && !t.pushers[who].PublishTail?
  {
    match r.pushers[who]
    case TestClosed(_) =>
    case ReadTail(_) =>
    case ReadHead(_, _) =>
    case AwaitSpace(_) =>
  }

  lemma ApproachKeepsOnce(r: R.Ring<Completion>, who: nat, id: nat)
    requires R.Can(r, R.PushStep(who)) && !R.Committed(r.pushers[who]) && |r.pushers| == 2
    requires Shown(r, id) <= Filled(r, id)
    ensures Shown(R.PushNext(r, who), id) <= Filled(R.PushNext(r, who), id)
  {
    ApproachFillsNothing(r, who);
  }

  lemma PushKeepsOnce(r: R.Ring<Completion>, who: nat)
    requires R.Can(r, R.PushStep(who)) && OnceInv(r)
    ensures OnceInv(R.Do(r, R.PushStep(who)))
  {
    var t := R.PushNext(r, who);
    forall id: nat
      ensures Shown(t, id) <= Filled(t, id)
    {
      assert Shown(r, id) <= Filled(r, id);
      if r.pushers[who].FillSlot? {
        FillKeepsOnce(r, who, id);
      } else if r.pushers[who].PublishTail? {
        PublishKeepsOnce(r, who, id);
      } else {
        ApproachKeepsOnce(r, who, id);
      }
    }
    NotedKeepsOnce(t);
  }

  lemma NotedKeepsOnce(r: R.Ring<Completion>)
    requires OnceInv(r)
    ensures OnceInv(R.Noted(r))
  {
    forall id: nat
      ensures Shown(R.Noted(r), id) <= Filled(R.Noted(r), id)
    {
      assert Shown(r, id) <= Filled(r, id);
    }
  }

  /** A pop moves a completion from its slot to the hand, or from the hand to those popped. */
  lemma PopMovesOne(r: R.Ring<Completion>, id: nat)
    requires R.CanPop(r)
    ensures Shown(R.PopNext(r), id) == Shown(r, id)
  {
    if r.popper.PublishHead? {
      IdsPush(r.popped, r.popper.v, id);
      OccursOne(r.popper.v.id, id);
    } else if r.head != r.tail {
      SlotUpdate(r.slots, r.head % |r.slots|, None, id);
    }
  }

  lemma PopKeepsOnce(r: R.Ring<Completion>)
    requires R.Can(r, R.PopStep) && OnceInv(r)
    ensures OnceInv(R.PopNext(r))
  {
    var t := R.PopNext(r);
    forall id: nat
      ensures Shown(t, id) <= Filled(t, id)
    {
      assert Shown(r, id) <= Filled(r, id);
      PopMovesOne(r, id);
    }
  }

  lemma MoveKeepsOnce(c: Config, w: Whole, m: Move)
    requires OnceInv(w.ring) && Possible(c, w, m)
    ensures OnceInv(Moved(c, w, m).ring)
  {
    if m.Push? {
      PushKeepsOnce(w.ring, m.who);
    } else if m.Pop? {
      PopKeepsOnce(w.ring);
    } else {
      var t := Moved(c, w, m);
      forall id: nat
        ensures Shown(t.ring, id) <= Filled(t.ring, id)
      {
        assert Shown(w.ring, id) <= Filled(w.ring, id);
      }
    }
  }

  lemma {:induction false} MovesKeepOnce(c: Config, w: Whole, run: seq<Move>)
    requires OnceInv(w.ring) && Moves(c, w, run)
    ensures OnceInv(Ending(c, w, run).ring)
    decreases |run|
  {
    if run != [] {
      MoveKeepsOnce(c, w, run[0]);
      MovesKeepOnce(c, Moved(c, w, run[0]), run[1..]);
    }
  }

  lemma HappensOnce(c: Config, w: Whole)
    requires Happens(c, w)
    ensures OnceInv(w.ring)
  {
    var run :| Moves(c, Start(c), run) && Ending(c, Start(c), run) == w;
    FreshOnce(Start(c).ring.slots);
    MovesKeepOnce(c, Start(c), run);
  }

  /** What is being stored has not been accepted, and the two threads store different tasks. */
  lemma FilledAtMostOnce(c: Config, w: Whole, id: nat)
    requires Usable(c) && Happens(c, w)
    ensures |w.ring.pushers| == 2 && Filled(w.ring, id) <= if id < |w.inner.packets| then 1 else 0
  {
    HappensInv(c, w);
    EachTaskIsAcceptedOnce(c, w, id);
    OccursOne(id, id);
    assert Carries(w, 0) && Carries(w, 1);
    OccursMember(BatchHand(w.inner.batch), id);
    if w.ring.pushers[0].PublishTail? {
      OccursOne(w.ring.pushers[0].v.id, id);
      OfferIsInHand(w.inner, 0, w.ring.pushers[0].v);
    }
    if w.ring.pushers[1].PublishTail? {
      OccursOne(w.ring.pushers[1].v.id, id);
    }
  }

  lemma OfferIsInHand(s: State, who: nat, x: Completion)
    requires who == 0 && Offered(s, who) == Some(x)
    ensures x.id in BatchHand(s.batch)
  {
    if s.batch.FailMembers? {
      assert MemberIds(s.batch.members)[s.batch.index] == x.id;
      assert MemberIds(s.batch.members)[s.batch.index..][0] == x.id;
    } else {
      assert BatchHand(s.batch)[|s.batch.members|] == x.id;
    }
  }

  /** In every run, overlapping or not, no task is completed twice. */
  lemma NobodyIsCompletedTwice(c: Config, w: Whole, id: nat)
    requires Usable(c) && Happens(c, w)
    ensures Occurs(CompletionIds(w.ring.popped), id) + Occurs(HeldIds(w.ring.popper), id)
            <= if id < |w.inner.packets| then 1 else 0
  {
    HappensOnce(c, w);
    FilledAtMostOnce(c, w, id);
    assert Shown(w.ring, id) <= Filled(w.ring, id);
  }

  /** So there are never more completions than accepted tasks. */
  lemma CompletionsAreFew(c: Config, w: Whole)
    requires Usable(c) && Happens(c, w)
    ensures |w.ring.popped| + |HeldIds(w.ring.popper)| <= |w.inner.packets|
  {
    var ids := CompletionIds(w.ring.popped) + HeldIds(w.ring.popper);
    forall id: nat
      ensures Occurs(ids, id) <= if id < |w.inner.packets| then 1 else 0
    {
      NobodyIsCompletedTwice(c, w, id);
      OccursConcat(CompletionIds(w.ring.popped), HeldIds(w.ring.popper), id);
    }
    DistinctCard(ids);
    forall id | id in Elements(ids)
      ensures 0 <= id < |w.inner.packets|
    {
      OccursMember(ids, id);
    }
    IntervalCard(Elements(ids), 0, |w.inner.packets|);
  }

  // ---------------------------------------------------------------- nobody with a wrong answer

  ghost predicate RightCompletion(c: Config, s: State, x: Completion) { DoneOk(c, s, x.id, x.result) }

  ghost predicate SlotsRight(c: Config, w: Whole) {
    && (forall i :: 0 <= i < |w.ring.slots| && w.ring.slots[i].Some? ==>
         RightCompletion(c, w.inner, w.ring.slots[i].value))
    && (w.ring.popper.PublishHead? ==> RightCompletion(c, w.inner, w.ring.popper.v))
    && (forall k :: 0 <= k < |w.ring.popped| ==> RightCompletion(c, w.inner, w.ring.popped[k]))
  }

  lemma OfferIsRight(c: Config, s: State, who: nat, x: Completion)
    requires Usable(c) && Reachable(c, s) && who < 2 && Offered(s, who) == Some(x)
    ensures RightCompletion(c, s, x)
  {
    ReachableInv(c, s);
    if who == 0 { HandOverIsRight(c, s); }
  }

  lemma SlotsLater(c: Config, w: Whole, s: State)
    requires SlotsRight(c, w) && Later(w.inner, s)
    ensures SlotsRight(c, w.(inner := s))
  {
    forall i | 0 <= i < |w.ring.slots| && w.ring.slots[i].Some?
      ensures RightCompletion(c, s, w.ring.slots[i].value)
    {
      DoneLater(c, w.inner, s, w.ring.slots[i].value.id, w.ring.slots[i].value.result);
    }
    if w.ring.popper.PublishHead? { DoneLater(c, w.inner, s, w.ring.popper.v.id, w.ring.popper.v.result); }
    forall k | 0 <= k < |w.ring.popped|
      ensures RightCompletion(c, s, w.ring.popped[k])
    {
      DoneLater(c, w.inner, s, w.ring.popped[k].id, w.ring.popped[k].result);
    }
  }

  lemma StepIsLater(c: Config, s: State, a: Action)
    requires Enabled(c, s, a) && |s.packets| == |s.tasks|
    ensures Later(s, Next(c, s, a))
  {
    match a
    case PreStep => PreIsLater(c, s);
    case BatchStep => BatchIsLater(c, s);
    case PostStep => PostLeavesTheRest(s);
    case DispStep => DispIsLater(s);
    case FlushTimeout(_) =>
    case Submit(_) => OutsideIsLater(c, s, a);
    case RequestStop(_) => OutsideIsLater(c, s, a);
    case Cancel(_) => OutsideIsLater(c, s, a);
    case StartWait => OutsideIsLater(c, s, a);
    case WakeSubmitter(_) => OutsideIsLater(c, s, a);
    case WaiterStep => OutsideIsLater(c, s, a);
  }

  lemma InnerIsLater(c: Config, w: Whole, m: Move)
    requires Usable(c) && WholeInv(c, w) && Possible(c, w, m)
    ensures Later(w.inner, Moved(c, w, m).inner)
  {
    ReachablePlaces(c, w.inner);
    if m.Inner? {
      StepIsLater(c, w.inner, m.action);
    } else if m.Push? {
      MovedOnIsLater(c, w.inner, m.who);
    }
  }

  lemma MovedOnIsLater(c: Config, s: State, who: nat)
    requires |s.packets| == |s.tasks|
    ensures Later(s, MovedOn(c, s, who)) && MovedOn(c, s, who).tasks == s.tasks
    ensures forall x :: Later(s, WithAnswer(MovedOn(c, s, who), x))
  {
    if Enabled(c, s, HandOver(who)) {
      StepIsLater(c, s, HandOver(who));
      if who == 0 { BatchLeavesPromises(c, s); }
    }
  }

  lemma PushKeepsRight(c: Config, w: Whole, who: nat)
    requires SlotsRight(c, w) && R.Can(w.ring, R.PushStep(who))
    requires w.ring.pushers[who].FillSlot? ==> RightCompletion(c, w.inner, w.ring.pushers[who].v)
    ensures SlotsRight(c, w.(ring := R.Do(w.ring, R.PushStep(who))))
  {
  }

  lemma PopKeepsRight(c: Config, w: Whole)
    requires SlotsRight(c, w) && R.CanPop(w.ring)
    ensures SlotsRight(c, w.(ring := R.PopNext(w.ring)))
  {
  }

  lemma MoveKeepsRight(c: Config, w: Whole, m: Move)
    requires Usable(c) && WholeInv(c, w) && SlotsRight(c, w) && Possible(c, w, m)
    ensures SlotsRight(c, Moved(c, w, m))
  {
    InnerIsLater(c, w, m);
    var s := Moved(c, w, m).inner;
    SlotsLater(c, w, s);
    if m.Push? {
      if w.ring.pushers[m.who].FillSlot? {
        assert Carries(w, m.who);
        OfferIsRight(c, w.inner, m.who, w.ring.pushers[m.who].v);
      }
      PushKeepsRight(c, Whole(s, w.ring), m.who);
    } else if m.Pop? {
      PopKeepsRight(c, w);
    }
  }

  lemma {:induction false} MovesKeepRight(c: Config, w: Whole, run: seq<Move>)
    requires Usable(c) && WholeInv(c, w) && SlotsRight(c, w) && Moves(c, w, run)
    ensures SlotsRight(c, Ending(c, w, run))
    decreases |run|
  {
    if run != [] {
      MoveKeepsRight(c, w, run[0]);
      MoveKeepsInv(c, w, run[0]);
      MovesKeepRight(c, Moved(c, w, run[0]), run[1..]);
    }
  }

  /** In every run, overlapping or not, a task is completed with its own right answer only. */
  lemma AnswersAreRight(c: Config, w: Whole, k: nat)
    requires Usable(c) && Happens(c, w) && k < |w.ring.popped|
    ensures
      var x := w.ring.popped[k];
      && DoneOk(c, w.inner, x.id, x.result)
      && (!w.inner.verdicts[x.id] ==> Gives(c.stages, PoolIsEnough(c), w.inner.packets[x.id], w.inner.given[x.id]))
  {
    var run :| Moves(c, Start(c), run) && Ending(c, Start(c), run) == w;
    StartInv(c);
    MovesKeepInv(c, Start(c), run);
    MovesKeepRight(c, Start(c), run);
    ReachableInv(c, w.inner);
    assert RightCompletion(c, w.inner, w.ring.popped[k]);
  }
}
