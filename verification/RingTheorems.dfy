/**
  What every run of the ring keeps: it is a bounded FIFO, nobody sleeps through a wake-up, and what
  closing can cost.
 */
module RingTheorems {
  import opened Core
  import opened BoundedFifo
  import opened RingQueue

  // ---------------------------------------------------------------- memory invariant

  /** 1 while the head slot is already emptied but `head` not yet stored. */
  ghost function HeadHeld<T>(s: State<T>): nat { if s.consumer.StoreHead? then 1 else 0 }

  /** 1 while the tail slot is already filled but `tail` not yet stored. */
  ghost function TailHeld<T>(s: State<T>): nat { if s.producer.StoreTail? then 1 else 0 }

  ghost predicate CountersInv<T>(s: State<T>) {
    && |s.popped| == s.head
    && |s.pushed| == s.tail
    && s.head <= s.tail <= s.head + |s.slots|
    && s.popped == s.pushed[..s.head]
    && (s.consumer.TakeSlot? ==> s.head < s.tail)
    && (s.consumer.StoreHead? ==> s.head < s.tail && s.consumer.v == s.pushed[s.head])
    && (s.producer.WriteSlot? || s.producer.StoreTail? ==> s.tail < s.head + |s.slots|)
  }

  /** Exactly the slots of [head, tail) are occupied, up to the one slot each side has in hand. */
  ghost predicate SlotsInv<T>(s: State<T>)
    requires CountersInv(s)
  {
    && (forall i :: s.head + HeadHeld(s) <= i < s.tail ==> At(s.slots, i) == Some(s.pushed[i]))
    && (s.producer.StoreTail? ==> At(s.slots, s.tail) == Some(s.producer.v))
    && (|s.slots| > 0 ==>
          forall i :: s.tail + TailHeld(s) <= i < s.head + HeadHeld(s) + |s.slots| ==> At(s.slots, i) == None)
  }

  // ---------------------------------------------------------------- blocking invariant

  /** What the producer may rely on once it has loaded `spaceEpoch`. */
  ghost predicate SpaceInv<T>(s: State<T>) {
    match s.producer
    case RecheckClosed(_, e) => e <= s.spaceEpoch
    case CheckFull(_, e) =>
      e <= s.spaceEpoch && (e == s.spaceEpoch && s.closed ==> s.closer.CloseBumpData? || s.closer.CloseBumpSpace?)
    case CompareSpace(_, e) => e <= s.spaceEpoch && (e == s.spaceEpoch ==> SpaceWaitJustified(s))
    case SpaceBlocked(_, e) =>
      && e <= s.spaceEpoch
      && (e == s.spaceEpoch ==> SpaceWaitJustified(s))
      && (e < s.spaceEpoch ==> SpaceWakeupPending(s))
    case _ => true
  }

  /** Full and open, or the change that ends this is stored and its epoch increment is still to come. */
  ghost predicate SpaceWaitJustified<T>(s: State<T>) {
    && (s.tail - s.head == |s.slots| || s.consumer.BumpSpace?)
    && (s.closed ==> s.closer.CloseBumpData? || s.closer.CloseBumpSpace?)
  }

  ghost predicate SpaceWakeupPending<T>(s: State<T>) {
    s.consumer.NotifySpace? || s.closer.CloseNotifyData? || s.closer.CloseNotifySpace?
  }

  ghost predicate DataInv<T>(s: State<T>) {
    match s.consumer
    case RetestClosed(e) => e <= s.dataEpoch
    case RetestDrained(e) => e <= s.dataEpoch && s.closed
    case CheckEmpty(e) =>
      e <= s.dataEpoch && (e == s.dataEpoch && s.closed ==> s.closer.CloseBumpData? || s.head < s.tail)
    case CompareData(e) => e <= s.dataEpoch && (e == s.dataEpoch ==> DataWaitJustified(s))
    case DataBlocked(e) =>
      && e <= s.dataEpoch
      && (e == s.dataEpoch ==> DataWaitJustified(s))
      && (e < s.dataEpoch ==> DataWakeupPending(s))
    case _ => true
  }

  ghost predicate DataWaitJustified<T>(s: State<T>) {
    && (s.head == s.tail || s.producer.BumpData?)
    && (s.closed ==> s.closer.CloseBumpData?)
  }

  ghost predicate DataWakeupPending<T>(s: State<T>) {
    s.producer.NotifyData? || s.closer.CloseBumpSpace? || s.closer.CloseNotifyData?
  }

  // ---------------------------------------------------------------- closing invariant

  /** What the producer has been offered but neither stored nor refused. */
  ghost function InHand<T>(p: Producer<T>): seq<T> {
    match p
    case NotPushing => []
    case Finished => []
    case BumpData => []
    case NotifyData => []
    case _ => [p.v]
  }

  /** The producer has passed its test of `closed`, so one more store can follow a close. */
  ghost predicate PastClosedCheck<T>(p: Producer<T>) { p.LoadHead? || p.WriteSlot? || p.StoreTail? }

  ghost predicate ClosingInv<T>(ordered: bool, s: State<T>) {
    && (s.closed || s.closer.NotClosing? || s.closer.StoreClosed?)
    && (s.consumer.TestDrained? ==> s.closed)
    && (s.consumer.Ended? ==> s.closed && s.tail - s.head + (if PastClosedCheck(s.producer) then 1 else 0) <= 1)
    && (ordered && s.consumer.Ended? ==> s.head == s.tail)
    && (|s.slots| == 0 ==> s.producer.NotPushing? || s.producer.Finished?)
    && (ordered && (s.closed || !s.closer.NotClosing?) ==> s.producer.Finished?)
    && (ordered && |s.slots| > 0 ==> s.offered == s.pushed + InHand(s.producer))
  }

  ghost predicate Inv<T>(ordered: bool, capacity: nat, s: State<T>) {
    && |s.slots| == capacity
    && CountersInv(s)
    && SlotsInv(s)
    && SpaceInv(s)
    && DataInv(s)
    && ClosingInv(ordered, s)
  }

  // ---------------------------------------------------------------- preservation

  lemma RemainderUnique(x: nat, n: nat, q: nat, r: nat)
    requires r < n && x == n * q + r
    ensures x % n == r
  {
    var d := q - x / n;
    assert n * d == n * q - n * (x / n);
    assert d >= 1 ==> n * d >= n;
    assert d <= -1 ==> n * d <= -(n as int);
  }

  lemma ModStep(i: nat, n: nat)
    requires n > 0
    ensures (i + n) % n == i % n
  {
    RemainderUnique(i + n, n, i / n + 1, i % n);
  }

  /** Two indices closer than the capacity never share a slot. */
  lemma SlotsDistinct(i: nat, j: nat, n: nat)
    requires i < j < i + n
    ensures i % n != j % n
  {
    var r := i % n + (j - i);
    if r < n {
      RemainderUnique(j, n, i / n, r);
    } else {
      RemainderUnique(j, n, i / n + 1, r - n);
    }
  }

  lemma PutKeepsOthers<T>(slots: seq<Option<T>>, i: nat, x: Option<T>)
    requires |slots| > 0
    ensures At(Put(slots, i, x), i) == x
    ensures forall j: nat :: i - |slots| < j < i + |slots| && j != i ==> At(Put(slots, i, x), j) == At(slots, j)
  {
    forall j: nat | i - |slots| < j < i + |slots| && j != i
      ensures At(Put(slots, i, x), j) == At(slots, j)
    {
      if i < j { SlotsDistinct(i, j, |slots|); } else { SlotsDistinct(j, i, |slots|); }
    }
  }

  lemma InitInv<T>(ordered: bool, capacity: nat, s: State<T>)
    requires s == Init(capacity)
    ensures Inv(ordered, capacity, s)
  {
  }

  lemma ProducerKeepsMemory<T>(s: State<T>)
    requires CountersInv(s) && SlotsInv(s)
    requires !s.producer.NotPushing? && !s.producer.Finished? && !s.producer.SpaceBlocked? && |s.slots| > 0
    ensures |ProducerNext(s).slots| == |s.slots|
    ensures CountersInv(ProducerNext(s)) && SlotsInv(ProducerNext(s))
  {
    if s.producer.WriteSlot? {
      PutKeepsOthers(s.slots, s.tail, Some(s.producer.v));
    } else {
      match s.producer
      case CheckClosed(_) =>
      case LoadHead(_) =>
      case StoreTail(_) =>
      case BumpData =>
      case NotifyData =>
      case AfterRefusal(_) =>
      case LoadSpaceEpoch(_) =>
      case RecheckClosed(_, _) =>
      case CheckFull(_, _) =>
      case CompareSpace(_, _) =>
    }
  }

  lemma TakeKeepsMemory<T>(s: State<T>)
    requires CountersInv(s) && SlotsInv(s) && s.consumer.TakeSlot? && |s.slots| > 0 && At(s.slots, s.head).Some?
    ensures |ConsumerNext(s).slots| == |s.slots|
    ensures CountersInv(ConsumerNext(s)) && SlotsInv(ConsumerNext(s))
  {
    PutKeepsOthers(s.slots, s.head, None);
    ModStep(s.head, |s.slots|);
    assert At(s.slots, s.head) == Some(s.pushed[s.head]);
  }

  lemma StoreKeepsMemory<T>(s: State<T>)
    requires CountersInv(s) && SlotsInv(s) && s.consumer.StoreHead?
    ensures |ConsumerNext(s).slots| == |s.slots|
    ensures CountersInv(ConsumerNext(s)) && SlotsInv(ConsumerNext(s))
  {
  }

  lemma ConsumerKeepsMemory<T>(s: State<T>)
    requires CountersInv(s) && SlotsInv(s)
    requires !s.consumer.NotPopping? && !s.consumer.Ended? && !s.consumer.DataBlocked?
    requires s.consumer.TakeSlot? ==> |s.slots| > 0 && At(s.slots, s.head).Some?
    ensures |ConsumerNext(s).slots| == |s.slots|
    ensures CountersInv(ConsumerNext(s)) && SlotsInv(ConsumerNext(s))
  {
    if s.consumer.TakeSlot? {
      TakeKeepsMemory(s);
    } else if s.consumer.StoreHead? {
      StoreKeepsMemory(s);
    } else {
      LookingTouchesNoMemory(s);
    }
  }

  lemma LookingTouchesNoMemory<T>(s: State<T>)
    requires !s.consumer.NotPopping? && !s.consumer.Ended? && !s.consumer.DataBlocked?
    requires !s.consumer.TakeSlot? && !s.consumer.StoreHead?
    ensures
      var t := ConsumerNext(s);
      && t.slots == s.slots && t.head == s.head && t.tail == s.tail && t.pushed == s.pushed && t.popped == s.popped
      && (t.consumer.TakeSlot? ==> s.head != s.tail) && !t.consumer.StoreHead?
      && (t.producer == s.producer || (s.producer.SpaceBlocked? && t.producer.CompareSpace?))
  {
    match s.consumer
    case LoadTail(_) =>
    case BumpSpace =>
    case NotifySpace =>
    case TestClosed(_) =>
    case TestDrained(_) =>
    case CheckDeadline =>
    case LoadDataEpoch =>
    case RetestClosed(_) =>
    case RetestDrained(_) =>
    case CheckEmpty(_) =>
    case CompareData(_) =>
  }

  lemma ProducerKeepsControl<T>(ordered: bool, s: State<T>)
    requires CountersInv(s) && SpaceInv(s) && DataInv(s) && ClosingInv(ordered, s)
    requires !s.producer.NotPushing? && !s.producer.Finished? && !s.producer.SpaceBlocked? && |s.slots| > 0
    ensures SpaceInv(ProducerNext(s)) && DataInv(ProducerNext(s)) && ClosingInv(ordered, ProducerNext(s))
  {
    match s.producer
    case CheckClosed(_) =>
    case LoadHead(_) =>
    case WriteSlot(_) =>
    case StoreTail(_) =>
    case BumpData =>
    case NotifyData =>
    case AfterRefusal(_) =>
    case LoadSpaceEpoch(_) =>
    case RecheckClosed(_, _) =>
    case CheckFull(_, _) =>
    case CompareSpace(_, _) =>
  }

  lemma ConsumerKeepsControl<T>(ordered: bool, s: State<T>)
    requires CountersInv(s) && SpaceInv(s) && DataInv(s) && ClosingInv(ordered, s)
    requires !s.consumer.NotPopping? && !s.consumer.Ended? && !s.consumer.DataBlocked?
    requires s.consumer.TakeSlot? ==> |s.slots| > 0 && At(s.slots, s.head).Some?
    ensures SpaceInv(ConsumerNext(s)) && DataInv(ConsumerNext(s)) && ClosingInv(ordered, ConsumerNext(s))
  {
    match s.consumer
    case LoadTail(_) =>
    case TakeSlot =>
    case StoreHead(_) =>
    case BumpSpace =>
    case NotifySpace =>
    case TestClosed(_) =>
    case TestDrained(_) =>
    case CheckDeadline =>
    case LoadDataEpoch =>
    case RetestClosed(_) =>
    case RetestDrained(_) =>
    case CheckEmpty(_) =>
    case CompareData(_) =>
  }

  lemma CloserKeepsMemory<T>(s: State<T>)
    requires CountersInv(s) && SlotsInv(s) && !s.closer.NotClosing?
    ensures CountersInv(CloserNext(s)) && SlotsInv(CloserNext(s))
  {
  }

  lemma CloserKeepsControl<T>(ordered: bool, s: State<T>)
    requires SpaceInv(s) && DataInv(s) && ClosingInv(ordered, s) && !s.closer.NotClosing?
    ensures SpaceInv(CloserNext(s)) && DataInv(CloserNext(s)) && ClosingInv(ordered, CloserNext(s))
  {
  }

  lemma StepKeepsInv<T>(ordered: bool, capacity: nat, s: State<T>, a: Action<T>)
    requires Inv(ordered, capacity, s) && Enabled(ordered, s, a)
    ensures Inv(ordered, capacity, Next(ordered, s, a))
  {
    match a
    case StartPush(v) => PushStartKeepsInv(ordered, capacity, s, v);
    case FinishPushing =>
    case StartPop(_) =>
    case DeadlinePassed =>
    case StartClose =>
    case ProducerStep => ProducerKeepsMemory(s); ProducerKeepsControl(ordered, s);
    case ConsumerStep => ConsumerKeepsMemory(s); ConsumerKeepsControl(ordered, s);
    case CloserStep => CloserKeepsMemory(s); CloserKeepsControl(ordered, s);
  }

  lemma PushStartKeepsInv<T>(ordered: bool, capacity: nat, s: State<T>, v: T)
    requires Inv(ordered, capacity, s) && s.producer.NotPushing?
    ensures Inv(ordered, capacity, Next(ordered, s, StartPush(v)))
  {
  }

  lemma RunKeepsInv<T>(ordered: bool, capacity: nat, s: State<T>, run: seq<Action<T>>)
    requires Inv(ordered, capacity, s) && ValidRun(ordered, s, run)
    ensures Inv(ordered, capacity, After(ordered, s, run))
    decreases |run|
  {
    if run != [] {
      StepKeepsInv(ordered, capacity, s, run[0]);
      RunKeepsInv(ordered, capacity, Next(ordered, s, run[0]), run[1..]);
    }
  }

  lemma ReachableInv<T(!new)>(ordered: bool, capacity: nat, s: State<T>)
    requires Reachable(ordered, capacity, s)
    ensures Inv(ordered, capacity, s)
  {
    var run :| ValidRun(ordered, Init(capacity), run) && After(ordered, Init(capacity), run) == s;
    InitInv<T>(ordered, capacity, Init(capacity));
    RunKeepsInv(ordered, capacity, Init(capacity), run);
  }

  lemma RunExtends<T>(ordered: bool, s: State<T>, run: seq<Action<T>>, a: Action<T>)
    requires ValidRun(ordered, s, run) && Enabled(ordered, After(ordered, s, run), a)
    ensures ValidRun(ordered, s, run + [a])
    ensures After(ordered, s, run + [a]) == Next(ordered, After(ordered, s, run), a)
    decreases |run|
  {
    if run == [] {
      assert [a][1..] == [];
    } else {
      assert (run + [a])[1..] == run[1..] + [a];
      RunExtends(ordered, Next(ordered, s, run[0]), run[1..], a);
    }
  }

  lemma InitReachable<T(!new)>(ordered: bool, capacity: nat, s: State<T>)
    requires s == Init(capacity)
    ensures Reachable(ordered, capacity, s)
  {
    var run: seq<Action<T>> := [];
    assert ValidRun(ordered, s, run) && After(ordered, s, run) == s;
  }

  lemma Then<T(!new)>(capacity: nat, s: State<T>, a: Action<T>) returns (t: State<T>)
    requires Reachable(false, capacity, s) && Enabled(false, s, a)
    ensures t == Next(false, s, a) && Reachable(false, capacity, t)
  {
    t := Next(false, s, a);
    var run :| ValidRun(false, Init(capacity), run) && After(false, Init(capacity), run) == s;
    RunExtends(false, Init(capacity), run, a);
  }

  // ---------------------------------------------------------------- what every run keeps

  ghost function Contents<T>(s: State<T>): seq<T>
    requires CountersInv(s)
  {
    s.pushed[s.head..]
  }

  /** Slot `j` belongs to an index that is stored and not yet taken. */
  ghost predicate Occupied<T>(s: State<T>, j: nat) {
    exists i: nat :: s.head + HeadHeld(s) <= i < s.tail + TailHeld(s) && Uses(i, j, |s.slots|)
  }

  ghost predicate Uses(i: nat, j: nat, n: nat) { n > 0 && i % n == j }

  /** Every slot is used by some index of any window as long as the ring. */
  lemma WindowCovers(low: nat, j: nat, n: nat) returns (i: nat)
    requires j < n
    ensures low <= i < low + n && i % n == j
  {
    var r := low % n;
    if j >= r {
      i := low + (j - r);
      RemainderUnique(i, n, low / n, j);
    } else {
      i := low + (n - r + j);
      RemainderUnique(i, n, low / n + 1, j);
    }
  }

  /**
    In every interleaving, with any thread closing at any time: what was popped followed by what is
    stored is what was pushed, at most `capacity` items are stored, and the filled slots are exactly
    the ones of the stored items.
   */
  lemma RingIsBoundedFifo<T(!new)>(ordered: bool, capacity: nat, s: State<T>)
    requires Reachable(ordered, capacity, s)
    ensures CountersInv(s) && |s.slots| == capacity
    ensures s.popped + Contents(s) == s.pushed
    ensures |Contents(s)| == s.tail - s.head <= capacity
    ensures forall j :: 0 <= j < capacity ==> (s.slots[j].Some? <==> Occupied(s, j))
    ensures s.consumer.TakeSlot? ==> capacity > 0 && At(s.slots, s.head) == Some(Contents(s)[0])
  {
    ReachableInv(ordered, capacity, s);
    forall j | 0 <= j < capacity
      ensures s.slots[j].Some? <==> Occupied(s, j)
    {
      var i := WindowCovers(s.head + HeadHeld(s), j, capacity);
      assert At(s.slots, i) == s.slots[j];
      if i < s.tail + TailHeld(s) {
        assert Uses(i, j, capacity);
      } else if Occupied(s, j) {
        var k: nat :| s.head + HeadHeld(s) <= k < s.tail + TailHeld(s) && Uses(k, j, |s.slots|);
        SlotsDistinct(k, i, capacity);
      }
    }
  }

  /** The ring as its clients see it. */
  ghost function Abstract<T>(s: State<T>): Fifo<T>
    requires CountersInv(s)
  {
    Fifo(Contents(s), s.closed, |s.slots|)
  }

  /**
    When close is ordered after the pushes, each atomic access is one indivisible queue operation
    (the tail store pushes, the head store pops, the closed store closes) or is invisible.
   */
  lemma StepRefinesFifo<T(!new)>(capacity: nat, s: State<T>, a: Action<T>)
    requires Reachable(true, capacity, s) && Enabled(true, s, a)
    ensures CountersInv(s) && CountersInv(Next(true, s, a))
    ensures
      var before, after := Abstract(s), Abstract(Next(true, s, a));
      if a.ProducerStep? && s.producer.StoreTail? then
        before.CanPush() && after == before.Push(s.producer.v)
      else if a.ConsumerStep? && s.consumer.StoreHead? then
        before.CanPop() && before.items[0] == s.consumer.v && after == before.Pop()
      else if a.CloserStep? && s.closer.StoreClosed? then
        after == before.Close()
      else
        after == before
    ensures Next(true, s, a).consumer.Ended? && !s.consumer.Ended? ==> Abstract(s).Drained()
  {
    ReachableInv(true, capacity, s);
    StepKeepsInv(true, capacity, s, a);
  }

  /** Every item offered to an ordered ring is delivered before the consumer is told to stop. */
  lemma OrderedCloseLosesNothing<T(!new)>(capacity: nat, s: State<T>)
    requires Reachable(true, capacity, s) && capacity > 0 && s.consumer.Ended?
    ensures s.popped == s.offered
  {
    ReachableInv(true, capacity, s);
    assert s.pushed[..s.tail] == s.pushed;
  }

  /** Without that order, one item at most is left behind, and only one. */
  lemma AnyCloseLosesAtMostOne<T(!new)>(capacity: nat, s: State<T>)
    requires Reachable(false, capacity, s) && s.consumer.Ended?
    ensures |s.pushed| <= |s.popped| + 1
  {
    ReachableInv(false, capacity, s);
  }

  /** The producer passes its test of `closed`; the ring is closed before it stores its item. */
  lemma CloseBetweenCheckAndStore<T(!new)>(capacity: nat, x: T) returns (s: State<T>)
    requires capacity > 0
    ensures Reachable(false, capacity, s)
    ensures s == Init(capacity).(closed := true, producer := LoadHead(x), closer := CloseBumpData, offered := [x])
  {
    s := Init(capacity);
    InitReachable<T>(false, capacity, Init(capacity));
    s := Then(capacity, s, StartPush(x));
    s := Then(capacity, s, ProducerStep);
    s := Then(capacity, s, StartClose);
    s := Then(capacity, s, CloserStep);
  }

  /** The consumer finds the ring closed and empty and stops. */
  lemma ConsumerStopsEarly<T(!new)>(capacity: nat, x: T) returns (s: State<T>)
    requires capacity > 0
    ensures Reachable(false, capacity, s)
    ensures s == Init(capacity).(closed := true, producer := LoadHead(x), consumer := Ended,
                                 closer := CloseBumpData, offered := [x])
  {
    s := CloseBetweenCheckAndStore(capacity, x);
    s := Then(capacity, s, StartPop(false));
    s := Then(capacity, s, ConsumerStep);
    s := Then(capacity, s, ConsumerStep);
    s := Then(capacity, s, ConsumerStep);
  }

  /** The interleaving that does leave an item behind, for every capacity: the bound above is met. */
  lemma ThirdPartyCloseCanLoseOne<T(!new)>(capacity: nat, x: T) returns (s: State<T>)
    requires capacity > 0
    ensures Reachable(false, capacity, s) && s.consumer.Ended? && s.producer.BumpData?
    ensures s.pushed == [x] && s.popped == []
  {
    s := ConsumerStopsEarly(capacity, x);
    s := Then(capacity, s, ProducerStep);
    s := Then(capacity, s, ProducerStep);
    s := Then(capacity, s, ProducerStep);
  }

  // ---------------------------------------------------------------- no lost wakeup

  lemma NoLostProducerWakeup<T(!new)>(ordered: bool, capacity: nat, s: State<T>)
    requires Reachable(ordered, capacity, s) && s.producer.SpaceBlocked?
    ensures s.producer.epoch == s.spaceEpoch ==> SpaceWaitJustified(s)
    ensures s.producer.epoch != s.spaceEpoch ==> SpaceWakeupPending(s)
  {
    ReachableInv(ordered, capacity, s);
  }

  lemma NoLostConsumerWakeup<T(!new)>(ordered: bool, capacity: nat, s: State<T>)
    requires Reachable(ordered, capacity, s) && s.consumer.DataBlocked?
    ensures s.consumer.epoch == s.dataEpoch ==> DataWaitJustified(s)
    ensures s.consumer.epoch != s.dataEpoch ==> DataWakeupPending(s)
  {
    ReachableInv(ordered, capacity, s);
  }

  /** No thread inside a queue operation can move. */
  ghost predicate Quiet<T>(ordered: bool, s: State<T>) {
    && !Enabled(ordered, s, ProducerStep)
    && !Enabled(ordered, s, ConsumerStep)
    && !Enabled(ordered, s, CloserStep)
  }

  /**
    A blocked thread stays blocked only for the reason it checked: a producer on a full open ring, a
    consumer on an empty open ring, never both, and nobody once the ring is closed.
   */
  lemma BlockedOnlyForAReason<T(!new)>(ordered: bool, capacity: nat, s: State<T>)
    requires Reachable(ordered, capacity, s) && Quiet(ordered, s)
    ensures s.producer.NotPushing? || s.producer.Finished? ||
            (s.producer.SpaceBlocked? && !s.closed && s.tail - s.head == capacity > 0)
    ensures s.consumer.NotPopping? || s.consumer.Ended? ||
            (s.consumer.DataBlocked? && !s.closed && s.head == s.tail)
    ensures !(s.producer.SpaceBlocked? && s.consumer.DataBlocked?)
  {
    ReachableInv(ordered, capacity, s);
    RingIsBoundedFifo(ordered, capacity, s);
  }
}
