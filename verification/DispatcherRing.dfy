/**
  The ring of boundedBlockingQueue.hpp as the batch executor's completion dispatcher uses it: several
  threads run `push` on it without a lock, although it is made for one. One transition for each access
  to the shared indices; waiting is a step that is enabled once what it waits for has come. The
  histories `accepted`, `popped` and `overlapped` only record.
 */
module DispatcherRing {
  import opened Core
  import RingQueue
  import RingTheorems

  /** Where a producer stands inside `push`; `tail` is the index it has loaded. */
  datatype Pusher<T> =
    | Idle
    | TestClosed(v: T)
    | ReadTail(v: T)
    | ReadHead(v: T, tail: nat)
    | FillSlot(v: T, tail: nat)
    | PublishTail(v: T, tail: nat)
    | AwaitSpace(v: T)

  /** Where the dispatcher's thread stands inside `pop`. */
  datatype Popper<T> = Looking | EmptySlot | PublishHead(v: T) | Ended

  /**
    `accepted` has the items in the order of the tail stores, `overlapped` tells that a producer got
    past its fullness test, or was past it, with an index that is no longer the tail.
   */
  datatype Ring<T> = Ring(
    slots: seq<Option<T>>,
    head: nat,
    tail: nat,
    closed: bool,
    pushers: seq<Pusher<T>>,
    popper: Popper<T>,
    accepted: seq<T>,
    popped: seq<T>,
    overlapped: bool
  )

  datatype RingAction<T> =
    | StartPush(who: nat, item: T)
    | PushStep(who: nat)
    | PopStep
    | CloseRing

  ghost function Fresh<T>(capacity: nat, producers: nat): Ring<T> {
    Ring(seq(capacity, _ => None), 0, 0, false, seq(producers, _ => Idle), Looking, [], [], false)
  }

  /** Past the fullness test: the producer will fill a slot and store the tail. */
  ghost predicate Committed<T>(p: Pusher<T>) { p.FillSlot? || p.PublishTail? }

  /** The item a producer is inside `push` with. */
  ghost function Carried<T>(p: Pusher<T>): T
    requires !p.Idle?
  {
    p.v
  }

  /** Another producer has stored the tail since this one loaded it. */
  ghost predicate Stale<T>(r: Ring<T>, p: Pusher<T>) { Committed(p) && p.tail != r.tail }

  ghost predicate SomeStale<T>(r: Ring<T>) { exists i :: 0 <= i < |r.pushers| && Stale(r, r.pushers[i]) }

  /**
    `tail - head` is computed in size_t: a loaded tail behind the head wraps to a huge number, and the
    ring counts as full. Taking from an empty slot is undefined, so the model stops there.
   */
  ghost predicate Full(tail: nat, head: nat, capacity: nat) { tail < head || tail - head >= capacity }

  /** `pop` waits on an open ring with equal indices. */
  ghost predicate CanPop<T>(r: Ring<T>) {
    || r.popper.PublishHead?
    || (r.popper.Looking? && if r.head == r.tail then r.closed else |r.slots| > 0)
  }

  ghost predicate Can<T>(r: Ring<T>, a: RingAction<T>) {
    match a
    case StartPush(i, _) => i < |r.pushers| && r.pushers[i].Idle? && |r.slots| > 0
    case PushStep(i) =>
      && i < |r.pushers| && !r.pushers[i].Idle? && |r.slots| > 0
      && (r.pushers[i].AwaitSpace? ==> r.closed || !Full(r.tail, r.head, |r.slots|))
    case PopStep => CanPop(r)
    case CloseRing => !r.closed
  }

  ghost function Do<T>(r: Ring<T>, a: RingAction<T>): Ring<T>
    requires Can(r, a)
  {
    match a
    case StartPush(i, v) => r.(pushers := r.pushers[i := TestClosed(v)])
    case PushStep(i) => Noted(PushNext(r, i))
    case PopStep => PopNext(r)
    case CloseRing => r.(closed := true)
  }

  ghost function Noted<T>(r: Ring<T>): Ring<T> { r.(overlapped := r.overlapped || SomeStale(r)) }

  ghost function PushNext<T>(r: Ring<T>, i: nat): Ring<T>
    requires i < |r.pushers| && !r.pushers[i].Idle? && |r.slots| > 0
  {
    match r.pushers[i]
    case TestClosed(v) => r.(pushers := r.pushers[i := if r.closed then Idle else ReadTail(v)])
    case ReadTail(v) => r.(pushers := r.pushers[i := ReadHead(v, r.tail)])
    case ReadHead(v, t) =>
      r.(pushers := r.pushers[i := if Full(t, r.head, |r.slots|) then AwaitSpace(v) else FillSlot(v, t)])
    case FillSlot(v, t) => r.(slots := RingQueue.Put(r.slots, t, Some(v)), pushers := r.pushers[i := PublishTail(v, t)])
    case PublishTail(v, t) => r.(tail := t + 1, accepted := r.accepted + [v], pushers := r.pushers[i := Idle])
    case AwaitSpace(v) => r.(pushers := r.pushers[i := if r.closed then Idle else TestClosed(v)])
  }

  ghost function PopNext<T>(r: Ring<T>): Ring<T>
    requires CanPop(r)
  {
    match r.popper
    case Looking =>
      if r.head == r.tail then r.(popper := Ended)
      else if RingQueue.At(r.slots, r.head).None? then r.(popper := EmptySlot)
      else r.(popper := PublishHead(RingQueue.At(r.slots, r.head).value), slots := RingQueue.Put(r.slots, r.head, None))
    case PublishHead(v) => r.(head := r.head + 1, popped := r.popped + [v], popper := Looking)
  }

  ghost predicate RunsFrom<T>(r: Ring<T>, run: seq<RingAction<T>>)
    decreases |run|
  {
    run == [] || (Can(r, run[0]) && RunsFrom(Do(r, run[0]), run[1..]))
  }

  ghost function EndOf<T>(r: Ring<T>, run: seq<RingAction<T>>): Ring<T>
    requires RunsFrom(r, run)
    decreases |run|
  {
    if run == [] then r else EndOf(Do(r, run[0]), run[1..])
  }

  ghost predicate Arises<T(!new)>(capacity: nat, producers: nat, r: Ring<T>) {
    exists run: seq<RingAction<T>> ::
      RunsFrom(Fresh(capacity, producers), run) && EndOf(Fresh(capacity, producers), run) == r
  }

  // ---------------------------------------------------------------- with and without an overlap

  /**
    Holds in every run: indices never run ahead of the number of tail stores, and a loaded tail
    that is not behind that number is the tail.
   */
  ghost predicate IndexInv<T>(r: Ring<T>) {
    && r.tail <= |r.accepted|
    && |r.popped| == r.head
    && (forall i :: 0 <= i < |r.pushers| ==> LoadedInv(r, r.pushers[i]))
    && (r.overlapped ==> r.tail < |r.accepted| || SomeStale(r))
  }

  ghost predicate LoadedInv<T>(r: Ring<T>, p: Pusher<T>) {
    p.ReadHead? || Committed(p) ==> p.tail <= |r.accepted| && (p.tail == |r.accepted| ==> p.tail == r.tail)
  }

  /** Until producers overlap the ring is the bounded FIFO it is with one producer. */
  ghost predicate FifoInv<T>(r: Ring<T>) {
    && r.tail == |r.accepted|
    && r.head <= r.tail <= r.head + |r.slots|
    && r.popped == r.accepted[..r.head]
    && !r.popper.EmptySlot?
    && (r.popper.PublishHead? ==> r.head < r.tail && r.popper.v == r.accepted[r.head])
    && (forall i :: r.head + One(r) <= i < r.tail ==> RingQueue.At(r.slots, i) == Some(r.accepted[i]))
    && (forall i :: 0 <= i < |r.pushers| ==> PusherInv(r, i))
  }

  ghost function One<T>(r: Ring<T>): nat { if r.popper.PublishHead? then 1 else 0 }

  /** What a producer has written may only be lost to another one that is committed too. */
  ghost predicate PusherInv<T>(r: Ring<T>, i: nat)
    requires i < |r.pushers|
  {
    var p := r.pushers[i];
    && (Committed(p) ==> p.tail == r.tail < r.head + |r.slots|)
    && (p.PublishTail? ==> SomeOtherCommitted(r, i) || (|r.slots| > 0 && RingQueue.At(r.slots, r.tail) == Some(p.v)))
  }

  ghost predicate SomeOtherCommitted<T>(r: Ring<T>, i: nat) {
    exists k :: 0 <= k < |r.pushers| && k != i && Committed(r.pushers[k])
  }

  ghost predicate RingInv<T>(r: Ring<T>) {
    && IndexInv(r)
    && (!r.overlapped ==> FifoInv(r))
  }

  lemma FreshInv<T>(capacity: nat, producers: nat, r: Ring<T>)
    requires r == Fresh(capacity, producers)
    ensures RingInv(r)
  {
  }

  lemma PublishKeepsIndices<T>(r: Ring<T>, i: nat)
    requires IndexInv(r) && i < |r.pushers| && r.pushers[i].PublishTail? && |r.slots| > 0
    ensures IndexInv(Noted(PushNext(r, i)))
  {
    var s := PushNext(r, i);
    assert LoadedInv(r, r.pushers[i]);
    if r.overlapped && r.tail == |r.accepted| && !Stale(r, r.pushers[i]) {
      var k :| 0 <= k < |r.pushers| && Stale(r, r.pushers[k]);
      assert LoadedInv(r, r.pushers[k]);
      assert Stale(s, s.pushers[k]);
    }
    forall k | 0 <= k < |s.pushers|
      ensures LoadedInv(s, s.pushers[k])
    {
      assert LoadedInv(r, r.pushers[k]);
    }
  }

  lemma PushKeepsIndices<T>(r: Ring<T>, i: nat)
    requires IndexInv(r) && i < |r.pushers| && !r.pushers[i].Idle? && |r.slots| > 0
    ensures IndexInv(Noted(PushNext(r, i)))
  {
    if r.pushers[i].PublishTail? {
      PublishKeepsIndices(r, i);
    } else {
      var s := PushNext(r, i);
      forall k | 0 <= k < |s.pushers|
        ensures LoadedInv(s, s.pushers[k])
      {
        assert LoadedInv(r, r.pushers[k]);
      }
      if SomeStale(r) {
        var k :| 0 <= k < |r.pushers| && Stale(r, r.pushers[k]);
        assert Stale(s, s.pushers[k]);
      }
    }
  }

  /** A store that leaves nobody stale was the only one under way, so its slot holds its item. */
  lemma PublishKeepsFifo<T>(r: Ring<T>, i: nat)
    requires IndexInv(r) && FifoInv(r) && i < |r.pushers| && r.pushers[i].PublishTail? && |r.slots| > 0
    requires !SomeStale(PushNext(r, i))
    ensures FifoInv(PushNext(r, i))
  {
    var s := PushNext(r, i);
    assert PusherInv(r, i);
    if SomeOtherCommitted(r, i) {
      var k :| 0 <= k < |r.pushers| && k != i && Committed(r.pushers[k]);
      assert PusherInv(r, k);
      assert Stale(s, s.pushers[k]);
    }
    forall k | 0 <= k < |s.pushers|
      ensures PusherInv(s, k)
    {
      assert PusherInv(r, k);
      assert k != i ==> !Stale(s, s.pushers[k]);
    }
  }

  lemma FillKeepsFifo<T>(r: Ring<T>, i: nat)
    requires IndexInv(r) && FifoInv(r) && i < |r.pushers| && r.pushers[i].FillSlot? && |r.slots| > 0
    ensures FifoInv(PushNext(r, i))
  {
    var s := PushNext(r, i);
    assert PusherInv(r, i);
    RingTheorems.PutKeepsOthers(r.slots, r.tail, Some(r.pushers[i].v));
    forall k | 0 <= k < |s.pushers|
      ensures PusherInv(s, k)
    {
      assert PusherInv(r, k);
      assert k != i ==> Committed(s.pushers[i]);
    }
  }

  lemma ApproachKeepsFifo<T>(r: Ring<T>, i: nat)
    requires IndexInv(r) && FifoInv(r) && i < |r.pushers| && |r.slots| > 0
    requires !r.pushers[i].Idle? && !r.pushers[i].FillSlot? && !r.pushers[i].PublishTail?
    requires !SomeStale(PushNext(r, i))
    ensures FifoInv(PushNext(r, i))
  {
    var s := PushNext(r, i);
    forall k | 0 <= k < |s.pushers|
      ensures PusherInv(s, k)
    {
      assert PusherInv(r, k);
      assert !Stale(s, s.pushers[k]);
      if SomeOtherCommitted(r, k) {
        var j :| 0 <= j < |r.pushers| && j != k && Committed(r.pushers[j]);
        assert Committed(s.pushers[j]);
      }
    }
  }

  lemma PopKeepsFifo<T>(r: Ring<T>)
    requires FifoInv(r) && Can(r, PopStep)
    ensures FifoInv(PopNext(r))
  {
    var s := PopNext(r);
    if r.popper.Looking? && r.head != r.tail {
      RingTheorems.PutKeepsOthers(r.slots, r.head, None);
      assert RingQueue.At(r.slots, r.head) == Some(r.accepted[r.head]);
    }
    forall k | 0 <= k < |s.pushers|
      ensures PusherInv(s, k)
    {
      assert PusherInv(r, k);
      if SomeOtherCommitted(r, k) { assert SomeOtherCommitted(s, k); }
    }
  }

  lemma PushStepKeepsInv<T>(r: Ring<T>, i: nat)
    requires RingInv(r) && Can(r, PushStep(i))
    ensures RingInv(Noted(PushNext(r, i)))
  {
    PushKeepsIndices(r, i);
    if !r.overlapped && !SomeStale(PushNext(r, i)) {
      if r.pushers[i].PublishTail? {
        PublishKeepsFifo(r, i);
      } else if r.pushers[i].FillSlot? {
        FillKeepsFifo(r, i);
      } else {
        ApproachKeepsFifo(r, i);
      }
      NotedKeepsFifo(PushNext(r, i));
    }
  }

  lemma NotedKeepsFifo<T>(r: Ring<T>)
    requires FifoInv(r)
    ensures FifoInv(Noted(r))
  {
    forall k | 0 <= k < |r.pushers|
      ensures PusherInv(Noted(r), k)
    {
      assert PusherInv(r, k);
      if SomeOtherCommitted(r, k) { assert SomeOtherCommitted(Noted(r), k); }
    }
  }

  lemma IndicesLater<T>(r: Ring<T>, s: Ring<T>)
    requires IndexInv(r) && |s.pushers| == |r.pushers| && |s.popped| == s.head
    requires s.tail == r.tail && s.accepted == r.accepted && s.overlapped == r.overlapped
    requires forall k :: 0 <= k < |r.pushers| ==>
        s.pushers[k] == r.pushers[k] || !(s.pushers[k].ReadHead? || Committed(s.pushers[k]))
    requires forall k :: 0 <= k < |r.pushers| && Committed(r.pushers[k]) ==> s.pushers[k] == r.pushers[k]
    ensures IndexInv(s)
  {
    forall k | 0 <= k < |s.pushers|
      ensures LoadedInv(s, s.pushers[k])
    {
      assert LoadedInv(r, r.pushers[k]);
    }
    if SomeStale(r) {
      var k :| 0 <= k < |r.pushers| && Stale(r, r.pushers[k]);
      assert Stale(s, s.pushers[k]);
    }
  }

  lemma OtherStepKeepsInv<T>(r: Ring<T>, a: RingAction<T>)
    requires RingInv(r) && Can(r, a) && (a.StartPush? || a.CloseRing?)
    ensures RingInv(Do(r, a))
  {
    var s := Do(r, a);
    IndicesLater(r, s);
    if !r.overlapped {
      forall k | 0 <= k < |s.pushers|
        ensures PusherInv(s, k)
      {
        assert PusherInv(r, k);
        if SomeOtherCommitted(r, k) {
          var j :| 0 <= j < |r.pushers| && j != k && Committed(r.pushers[j]);
          assert Committed(s.pushers[j]);
        }
      }
    }
  }

  lemma DoKeepsInv<T>(r: Ring<T>, a: RingAction<T>)
    requires RingInv(r) && Can(r, a)
    ensures RingInv(Do(r, a)) && |Do(r, a).slots| == |r.slots| && |Do(r, a).pushers| == |r.pushers|
  {
    if a.PushStep? {
      PushStepKeepsInv(r, a.who);
    } else if a.PopStep? {
      IndicesLater(r, PopNext(r));
      if !r.overlapped { PopKeepsFifo(r); }
    } else {
      OtherStepKeepsInv(r, a);
    }
  }

  lemma RunKeepsInv<T>(r: Ring<T>, run: seq<RingAction<T>>)
    requires RingInv(r) && RunsFrom(r, run)
    ensures RingInv(EndOf(r, run))
    ensures |EndOf(r, run).slots| == |r.slots| && |EndOf(r, run).pushers| == |r.pushers|
    decreases |run|
  {
    if run != [] {
      DoKeepsInv(r, run[0]);
      RunKeepsInv(Do(r, run[0]), run[1..]);
    }
  }

  lemma ArisesInv<T(!new)>(capacity: nat, producers: nat, r: Ring<T>)
    requires Arises(capacity, producers, r)
    ensures RingInv(r) && |r.slots| == capacity && |r.pushers| == producers
  {
    var run: seq<RingAction<T>> :|
      RunsFrom(Fresh(capacity, producers), run) && EndOf(Fresh(capacity, producers), run) == r;
    FreshInv(capacity, producers, Fresh<T>(capacity, producers));
    RunKeepsInv(Fresh(capacity, producers), run);
  }

  // ---------------------------------------------------------------- exactly when nothing is lost

  ghost predicate NobodyPushes<T>(r: Ring<T>) { forall i :: 0 <= i < |r.pushers| ==> r.pushers[i].Idle? }

  /** No push is under way and the consumer has caught up with the tail. */
  ghost predicate CaughtUp<T>(r: Ring<T>) { NobodyPushes(r) && r.popper.Looking? && r.head == r.tail }

  /** Until two pushes overlap, the ring is a bounded FIFO for any number of producers. */
  lemma WithoutOverlapItIsAFifo<T(!new)>(capacity: nat, producers: nat, r: Ring<T>)
    requires Arises(capacity, producers, r) && !r.overlapped
    ensures r.head <= r.tail == |r.accepted| && r.tail - r.head <= capacity
    ensures r.popped == r.accepted[..r.head]
    ensures r.popper.PublishHead? ==> r.head < r.tail && r.popper.v == r.accepted[r.head]
    ensures !r.popper.EmptySlot?
  {
    ArisesInv(capacity, producers, r);
  }

  /**
    What an overlap costs: from then on the ring has accepted more items than its tail counts, or is
    about to, and nothing that happens later makes up for it.
   */
  lemma OverlapLosesAnItem<T(!new)>(capacity: nat, producers: nat, r: Ring<T>)
    requires Arises(capacity, producers, r) && NobodyPushes(r)
    ensures r.overlapped <==> r.tail < |r.accepted|
  {
    ArisesInv(capacity, producers, r);
  }

  /**
    The exact condition: when all pushes are over and the consumer has caught up, it has taken what was
    accepted if and only if no push stored the tail between another push's load and store of it.
   */
  lemma NothingIsLostIffNoOverlap<T(!new)>(capacity: nat, producers: nat, r: Ring<T>)
    requires Arises(capacity, producers, r) && CaughtUp(r)
    ensures r.popped == r.accepted <==> !r.overlapped
    ensures |r.popped| <= |r.accepted|
  {
    ArisesInv(capacity, producers, r);
    OverlapLosesAnItem(capacity, producers, r);
    if !r.overlapped { assert r.accepted[..r.tail] == r.accepted; }
  }

  /** A single producer cannot overlap with itself. */
  lemma OneProducerNeverOverlaps<T(!new)>(capacity: nat, r: Ring<T>)
    requires Arises(capacity, 1, r)
    ensures !r.overlapped
  {
    var run: seq<RingAction<T>> :| RunsFrom(Fresh(capacity, 1), run) && EndOf(Fresh(capacity, 1), run) == r;
    FreshInv(capacity, 1, Fresh<T>(capacity, 1));
    AloneNeverOverlaps(Fresh(capacity, 1), run);
  }

  ghost predicate AloneInv<T>(r: Ring<T>) {
    |r.pushers| == 1 && !r.overlapped && !SomeStale(r) && (r.pushers[0].ReadHead? ==> r.pushers[0].tail == r.tail)
  }

  lemma AloneNeverOverlaps<T>(r: Ring<T>, run: seq<RingAction<T>>)
    requires AloneInv(r) && RunsFrom(r, run)
    ensures AloneInv(EndOf(r, run))
    decreases |run|
  {
    if run != [] {
      StepAlone(r, run[0]);
      AloneNeverOverlaps(Do(r, run[0]), run[1..]);
    }
  }

  lemma StepAlone<T>(r: Ring<T>, a: RingAction<T>)
    requires AloneInv(r) && Can(r, a)
    ensures AloneInv(Do(r, a))
  {
    assert !Stale(r, r.pushers[0]);
    if a.PushStep? {
      assert !SomeStale(PushNext(r, 0));
    }
  }

  // ---------------------------------------------------------------- a run that loses an item

  lemma RunExtends<T>(r: Ring<T>, run: seq<RingAction<T>>, a: RingAction<T>)
    requires RunsFrom(r, run) && Can(EndOf(r, run), a)
    ensures RunsFrom(r, run + [a])
    ensures EndOf(r, run + [a]) == Do(EndOf(r, run), a)
    decreases |run|
  {
    if run == [] {
      assert [a][1..] == [];
    } else {
      assert (run + [a])[1..] == run[1..] + [a];
      RunExtends(Do(r, run[0]), run[1..], a);
    }
  }

  lemma Then<T(!new)>(capacity: nat, producers: nat, r: Ring<T>, a: RingAction<T>) returns (s: Ring<T>)
    requires Arises(capacity, producers, r) && Can(r, a)
    ensures s == Do(r, a) && Arises(capacity, producers, s)
  {
    s := Do(r, a);
    var run: seq<RingAction<T>> :|
      RunsFrom(Fresh(capacity, producers), run) && EndOf(Fresh(capacity, producers), run) == r;
    RunExtends(Fresh(capacity, producers), run, a);
  }

  /** Producer `i` starts a push on a ring with room and gets past its fullness test. */
  lemma Commit<T(!new)>(capacity: nat, producers: nat, r: Ring<T>, i: nat, x: T) returns (s: Ring<T>)
    requires Arises(capacity, producers, r) && i < |r.pushers| && r.pushers[i].Idle? && |r.slots| > 0
    requires !r.closed && !Full(r.tail, r.head, |r.slots|) && !SomeStale(r)
    ensures Arises(capacity, producers, s)
    ensures s == r.(pushers := r.pushers[i := FillSlot(x, r.tail)])
  {
    s := Then(capacity, producers, r, StartPush(i, x));
    s := Then(capacity, producers, s, PushStep(i));
    s := Then(capacity, producers, s, PushStep(i));
    s := Then(capacity, producers, s, PushStep(i));
    assert forall k :: 0 <= k < |r.pushers| ==> !Stale(r, r.pushers[k]);
  }

  /** Two producers get past their tests with the same tail. */
  lemma BothCommit<T(!new)>(capacity: nat, producers: nat, x: T, y: T) returns (s: Ring<T>)
    requires capacity > 0 && producers > 1
    ensures Arises(capacity, producers, s) && |s.slots| == capacity && |s.pushers| == producers
    ensures s == Fresh<T>(capacity, producers).(pushers := s.pushers)
    ensures s.pushers[0] == FillSlot(x, 0) && s.pushers[1] == FillSlot(y, 0)
    ensures forall i :: 2 <= i < producers ==> s.pushers[i].Idle?
  {
    s := Fresh(capacity, producers);
    var run: seq<RingAction<T>> := [];
    assert RunsFrom(s, run) && EndOf(s, run) == s;
    s := Commit(capacity, producers, s, 0, x);
    s := Commit(capacity, producers, s, 1, y);
  }

  /**
    The losing run, for every capacity and any two of several producers: both load the same tail, the
    second item overwrites the first in its slot, and the tail counts one of them.
   */
  lemma TwoProducersLoseAnItem<T(!new)>(capacity: nat, producers: nat, x: T, y: T) returns (s: Ring<T>)
    requires capacity > 0 && producers > 1
    ensures Arises(capacity, producers, s) && CaughtUp(s)
    ensures s.accepted == [x, y] && s.popped == [y]
  {
    s := BothCommit(capacity, producers, x, y);
    s := Then(capacity, producers, s, PushStep(0));
    s := Then(capacity, producers, s, PushStep(1));
    s := Then(capacity, producers, s, PushStep(0));
    s := Then(capacity, producers, s, PushStep(1));
    s := Then(capacity, producers, s, PopStep);
    s := Then(capacity, producers, s, PopStep);
  }
}
