/** How the waits of the ring's operations come about and end: on a full or empty ring, and with a deadline. */
module RingWaits {
  import opened Core
  import opened BoundedFifo
  import opened RingQueue

  lemma Before<T>(ordered: bool, s: State<T>, a: Action<T>, rest: seq<Action<T>>) returns (run: seq<Action<T>>)
    requires Enabled(ordered, s, a) && ValidRun(ordered, Next(ordered, s, a), rest)
    ensures ValidRun(ordered, s, run) && run == [a] + rest
    ensures After(ordered, s, run) == After(ordered, Next(ordered, s, a), rest)
  {
    run := [a] + rest;
    assert run[1..] == rest;
  }

  // ---------------------------------------------------------------- push

  /** A push on an open ring with room ends with its item stored behind the others. */
  lemma PushStores<T>(ordered: bool, s: State<T>, v: T) returns (run: seq<Action<T>>)
    requires s.producer.NotPushing? && !s.closed && s.head <= s.tail < s.head + |s.slots|
    ensures ValidRun(ordered, s, run)
    ensures
      var t := After(ordered, s, run);
      && t.producer.NotPushing? && t.offered == s.offered + [v] && t.pushed == s.pushed + [v]
      && t.tail == s.tail + 1 && t.head == s.head && t.slots == s.slots[s.tail % |s.slots| := Some(v)]
      && t.dataEpoch == s.dataEpoch + 1 && t.spaceEpoch == s.spaceEpoch && t.closed == s.closed
  {
    var s1 := Next(ordered, s, StartPush(v));
    var s2 := Next(ordered, s1, ProducerStep);
    var s3 := Next(ordered, s2, ProducerStep);
    assert s3 == s1.(producer := WriteSlot(v));
    run := WriteIsStored(ordered, s3);
    run := Before(ordered, s2, ProducerStep, run);
    run := Before(ordered, s1, ProducerStep, run);
    run := Before(ordered, s, StartPush(v), run);
  }

  lemma WriteIsStored<T>(ordered: bool, s: State<T>) returns (run: seq<Action<T>>)
    requires s.producer.WriteSlot? && |s.slots| > 0
    ensures ValidRun(ordered, s, run)
    ensures
      var t := After(ordered, s, run);
      t == s.(slots := s.slots[s.tail % |s.slots| := Some(s.producer.v)], tail := s.tail + 1,
              pushed := s.pushed + [s.producer.v], dataEpoch := s.dataEpoch + 1, producer := NotPushing,
              consumer := WakeConsumer(s.consumer))
  {
    var s1 := Next(ordered, s, ProducerStep);
    var s2 := Next(ordered, s1, ProducerStep);
    var s3 := Next(ordered, s2, ProducerStep);
    var none: seq<Action<T>> := [];
    run := Before(ordered, s3, ProducerStep, none);
    run := Before(ordered, s2, ProducerStep, run);
    run := Before(ordered, s1, ProducerStep, run);
    run := Before(ordered, s, ProducerStep, run);
  }

  /** A push on a full open ring goes to sleep with its item, and changes nothing. */
  lemma PushWaits<T>(ordered: bool, s: State<T>, v: T) returns (run: seq<Action<T>>)
    requires s.producer.NotPushing? && !s.closed && s.tail - s.head == |s.slots| > 0
    ensures ValidRun(ordered, s, run)
    ensures After(ordered, s, run) == s.(offered := s.offered + [v], producer := SpaceBlocked(v, s.spaceEpoch))
  {
    var s1 := Next(ordered, s, StartPush(v));
    var s2 := Next(ordered, s1, ProducerStep);
    var s3 := Next(ordered, s2, ProducerStep);
    assert s3 == s1.(producer := AfterRefusal(v));
    run := RefusalSleeps(ordered, s3);
    run := Before(ordered, s2, ProducerStep, run);
    run := Before(ordered, s1, ProducerStep, run);
    run := Before(ordered, s, StartPush(v), run);
  }

  lemma RefusalSleeps<T>(ordered: bool, s: State<T>) returns (run: seq<Action<T>>)
    requires s.producer.AfterRefusal? && !s.closed && s.tail - s.head == |s.slots| > 0
    ensures ValidRun(ordered, s, run)
    ensures After(ordered, s, run) == s.(producer := SpaceBlocked(s.producer.v, s.spaceEpoch))
  {
    var s1 := Next(ordered, s, ProducerStep);
    var s2 := Next(ordered, s1, ProducerStep);
    var s3 := Next(ordered, s2, ProducerStep);
    var s4 := Next(ordered, s3, ProducerStep);
    var none: seq<Action<T>> := [];
    run := Before(ordered, s4, ProducerStep, none);
    run := Before(ordered, s3, ProducerStep, run);
    run := Before(ordered, s2, ProducerStep, run);
    run := Before(ordered, s1, ProducerStep, run);
    run := Before(ordered, s, ProducerStep, run);
  }

  // ---------------------------------------------------------------- pop

  /** A pop without a deadline on an empty open ring goes to sleep. */
  lemma PopWaits<T>(ordered: bool, s: State<T>) returns (run: seq<Action<T>>)
    requires s.consumer.NotPopping? && !s.closed && s.head == s.tail
    ensures ValidRun(ordered, s, run) && After(ordered, s, run) == s.(consumer := DataBlocked(s.dataEpoch))
  {
    var s1 := Next(ordered, s, StartPop(false));
    var s2 := Next(ordered, s1, ConsumerStep);
    var s3 := Next(ordered, s2, ConsumerStep);
    assert s3 == s.(consumer := LoadDataEpoch);
    run := EmptySleeps(ordered, s3);
    run := Before(ordered, s2, ConsumerStep, run);
    run := Before(ordered, s1, ConsumerStep, run);
    run := Before(ordered, s, StartPop(false), run);
  }

  lemma EmptySleeps<T>(ordered: bool, s: State<T>) returns (run: seq<Action<T>>)
    requires s.consumer.LoadDataEpoch? && !s.closed && s.head == s.tail
    ensures ValidRun(ordered, s, run) && After(ordered, s, run) == s.(consumer := DataBlocked(s.dataEpoch))
  {
    var s1 := Next(ordered, s, ConsumerStep);
    var s2 := Next(ordered, s1, ConsumerStep);
    var s3 := Next(ordered, s2, ConsumerStep);
    var none: seq<Action<T>> := [];
    run := Before(ordered, s3, ConsumerStep, none);
    run := Before(ordered, s2, ConsumerStep, run);
    run := Before(ordered, s1, ConsumerStep, run);
    run := Before(ordered, s, ConsumerStep, run);
  }

  /** Inside a pop with a deadline, or after it. */
  ghost predicate KeepsItsDeadline<T>(c: Consumer<T>) {
    match c
    case NotPopping => true
    case LoadTail(timed) => timed
    case TakeSlot => true
    case StoreHead(_) => true
    case BumpSpace => true
    case NotifySpace => true
    case TestClosed(timed) => timed
    case TestDrained(timed) => timed
    case CheckDeadline => true
    case Ended => true
    case _ => false
  }

  lemma DeadlineStep<T>(ordered: bool, s: State<T>, a: Action<T>)
    requires Enabled(ordered, s, a) && KeepsItsDeadline(s.consumer) && a != StartPop(false)
    ensures KeepsItsDeadline(Next(ordered, s, a).consumer)
  {
    match a
    case StartPush(_) =>
    case FinishPushing =>
    case ProducerStep => ProducerLeavesThePop(s);
    case StartPop(_) =>
    case DeadlinePassed =>
    case ConsumerStep =>
    case StartClose =>
    case CloserStep =>
  }

  lemma ProducerLeavesThePop<T>(s: State<T>)
    requires !s.producer.NotPushing? && !s.producer.Finished? && !s.producer.SpaceBlocked? && |s.slots| > 0
    requires !s.consumer.DataBlocked?
    ensures ProducerNext(s).consumer == s.consumer
  {
  }

  /** A pop with a deadline never sleeps without one: as long as no other pop is started, it is never blocked. */
  lemma {:induction false} TimedPopNeverSleeps<T>(ordered: bool, s: State<T>, run: seq<Action<T>>)
    requires KeepsItsDeadline(s.consumer) && ValidRun(ordered, s, run) && StartPop(false) !in run
    ensures KeepsItsDeadline(After(ordered, s, run).consumer) && !After(ordered, s, run).consumer.DataBlocked?
    decreases |run|
  {
    if run != [] {
      assert run == [run[0]] + run[1..];
      DeadlineStep(ordered, s, run[0]);
      TimedPopNeverSleeps(ordered, Next(ordered, s, run[0]), run[1..]);
    }
  }

  /** And it can always end: with an item, with nothing once the ring is closed and drained, or at its deadline. */
  lemma TimedPopEnds<T>(ordered: bool, s: State<T>) returns (run: seq<Action<T>>)
    requires s.consumer == LoadTail(true) && !s.closed && s.head == s.tail
    ensures ValidRun(ordered, s, run) && After(ordered, s, run) == s.(consumer := NotPopping)
  {
    var s1 := Next(ordered, s, ConsumerStep);
    var s2 := Next(ordered, s1, ConsumerStep);
    var none: seq<Action<T>> := [];
    run := Before(ordered, s2, DeadlinePassed, none);
    run := Before(ordered, s1, ConsumerStep, run);
    run := Before(ordered, s, ConsumerStep, run);
  }

  // ---------------------------------------------------------------- close

  lemma CloseSteps<T>(ordered: bool, s: State<T>) returns (run: seq<Action<T>>)
    requires s.closer.StoreClosed?
    ensures ValidRun(ordered, s, run)
    ensures
      var t := After(ordered, s, run);
      && t.closed && t.closer.NotClosing? && t.head == s.head && t.tail == s.tail && t.slots == s.slots
      && t.producer == WakeProducer(s.producer) && t.consumer == WakeConsumer(s.consumer)
      && t.popped == s.popped && t.pushed == s.pushed
  {
    var s1 := Next(ordered, s, CloserStep);
    var s2 := Next(ordered, s1, CloserStep);
    var s3 := Next(ordered, s2, CloserStep);
    var s4 := Next(ordered, s3, CloserStep);
    var none: seq<Action<T>> := [];
    run := Before(ordered, s4, CloserStep, none);
    run := Before(ordered, s3, CloserStep, run);
    run := Before(ordered, s2, CloserStep, run);
    run := Before(ordered, s1, CloserStep, run);
    run := Before(ordered, s, CloserStep, run);
  }

  /** A producer that has made its last push can close the ring in order, waking whoever sleeps. */
  lemma OrderedCloseGoesThrough<T>(ordered: bool, s: State<T>) returns (run: seq<Action<T>>)
    requires s.producer.NotPushing? && s.closer.NotClosing?
    ensures ValidRun(ordered, s, run)
    ensures
      var t := After(ordered, s, run);
      && t.closed && t.producer.Finished? && t.closer.NotClosing? && t.pushed == s.pushed && t.popped == s.popped
      && t.head == s.head && t.tail == s.tail && t.consumer == WakeConsumer(s.consumer)
  {
    var s1 := Next(ordered, s, FinishPushing);
    run := CloseSteps(ordered, Next(ordered, s1, StartClose));
    run := Before(ordered, s1, StartClose, run);
    run := Before(ordered, s, FinishPushing, run);
  }

  /** A pop on a closed and drained ring ends the consumer. */
  lemma DrainedPopEnds<T>(ordered: bool, s: State<T>, timed: bool) returns (run: seq<Action<T>>)
    requires s.consumer.NotPopping? && s.closed && s.head == s.tail
    ensures ValidRun(ordered, s, run) && After(ordered, s, run) == s.(consumer := Ended)
  {
    var s1 := Next(ordered, s, StartPop(timed));
    var s2 := Next(ordered, s1, ConsumerStep);
    var s3 := Next(ordered, s2, ConsumerStep);
    var none: seq<Action<T>> := [];
    run := Before(ordered, s3, ConsumerStep, none);
    run := Before(ordered, s2, ConsumerStep, run);
    run := Before(ordered, s1, ConsumerStep, run);
    run := Before(ordered, s, StartPop(timed), run);
  }
}
