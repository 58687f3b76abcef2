/**
  Exactly when closing the ring leaves an accepted item behind: when `closed` is stored while the
  producer is past its own test of it.
 */
module RingClose {
  import opened Core
  import opened BoundedFifo
  import opened RingQueue
  import opened RingTheorems

  // ---------------------------------------------------------------- without a late close

  /** The step that stores `closed` while the producer is past its test of it. */
  ghost predicate LateClose<T>(s: State<T>, a: Action<T>) {
    a.CloserStep? && s.closer.StoreClosed? && PastClosedCheck(s.producer)
  }

  ghost predicate NeverLate<T>(s: State<T>, run: seq<Action<T>>)
    requires ValidRun(false, s, run)
    decreases |run|
  {
    run == [] || (!LateClose(s, run[0]) && NeverLate(Next(false, s, run[0]), run[1..]))
  }

  /** Nobody stores an item any more once the ring is closed. */
  ghost predicate TimelyInv<T>(s: State<T>) {
    && (s.closed ==> !PastClosedCheck(s.producer))
    && (s.consumer.Ended? ==> s.closed && s.head == s.tail)
  }

  lemma TimelyStep<T>(capacity: nat, s: State<T>, a: Action<T>)
    requires Inv(false, capacity, s) && TimelyInv(s) && Enabled(false, s, a) && !LateClose(s, a)
    ensures TimelyInv(Next(false, s, a))
  {
    if a.ProducerStep? {
      ProducerStaysTimely(s);
    } else if a.ConsumerStep? {
      ConsumerStaysTimely(s);
    }
  }

  lemma ProducerStaysTimely<T>(s: State<T>)
    requires TimelyInv(s) && Enabled(false, s, ProducerStep)
    ensures TimelyInv(ProducerNext(s))
  {
  }

  lemma ConsumerStaysTimely<T>(s: State<T>)
    requires ClosingInv(false, s) && TimelyInv(s) && Enabled(false, s, ConsumerStep)
    ensures TimelyInv(ConsumerNext(s))
  {
  }

  lemma {:induction false} TimelyRun<T>(capacity: nat, s: State<T>, run: seq<Action<T>>)
    requires Inv(false, capacity, s) && TimelyInv(s) && ValidRun(false, s, run) && NeverLate(s, run)
    ensures Inv(false, capacity, After(false, s, run)) && TimelyInv(After(false, s, run))
    decreases |run|
  {
    if run != [] {
      StepKeepsInv(false, capacity, s, run[0]);
      TimelyStep(capacity, s, run[0]);
      TimelyRun(capacity, Next(false, s, run[0]), run[1..]);
    }
  }

  /** Whoever closes and whenever: if no close is late, the consumer ends with everything that was accepted. */
  lemma TimelyCloseLosesNothing<T>(capacity: nat, run: seq<Action<T>>)
    requires ValidRun(false, Init(capacity), run) && NeverLate(Init(capacity), run)
    ensures
      var s := After(false, Init(capacity), run);
      s.consumer.Ended? ==> s.popped == s.pushed
  {
    InitInv(false, capacity, Init<T>(capacity));
    TimelyRun(capacity, Init(capacity), run);
    var s := After(false, Init(capacity), run);
    assert s.pushed[..s.tail] == s.pushed;
  }

  /** After a close that was not late no close can be. */
  lemma {:induction false} ClosedOnceIsEnough<T>(capacity: nat, s: State<T>, run: seq<Action<T>>)
    requires Inv(false, capacity, s) && TimelyInv(s) && s.closed && ValidRun(false, s, run)
    ensures NeverLate(s, run)
    decreases |run|
  {
    if run != [] {
      StepKeepsInv(false, capacity, s, run[0]);
      TimelyStep(capacity, s, run[0]);
      ClosedIsForGood(s, run[0]);
      ClosedOnceIsEnough(capacity, Next(false, s, run[0]), run[1..]);
    }
  }

  lemma ClosedIsForGood<T>(s: State<T>, a: Action<T>)
    requires s.closed && Enabled(false, s, a)
    ensures Next(false, s, a).closed
  {
  }

  // ---------------------------------------------------------------- a late close loses

  /** Closed for good, with the producer halfway through a push. */
  ghost predicate LateState<T>(capacity: nat, s: State<T>) {
    Inv(false, capacity, s) && capacity > 0 && s.closed && PastClosedCheck(s.producer)
  }

  /** Work left for the consumer until it ends, as long as the producer does not move. */
  ghost function ConsumerWork<T>(s: State<T>): int {
    30 * (s.tail - s.head) + ConsumerRank(s.consumer, s.head == s.tail)
  }

  ghost function ConsumerRank<T>(c: Consumer<T>, empty: bool): nat {
    match c
    case NotPopping => 11
    case LoadTail(_) => 10
    case TakeSlot => 8
    case StoreHead(_) => 7
    case BumpSpace => 13
    case NotifySpace => 12
    case TestClosed(_) => if empty then 9 else 19
    case TestDrained(_) => if empty then 8 else 18
    case CheckDeadline => 17
    case LoadDataEpoch => 17
    case RetestClosed(_) => 16
    case RetestDrained(_) => 15
    case CheckEmpty(_) => 14
    case CompareData(_) => 13
    case DataBlocked(_) => 0
    case Ended => 0
  }

  /** The close runs to its end. */
  lemma CloserFinishes<T>(capacity: nat, s: State<T>) returns (run: seq<Action<T>>)
    requires LateState(capacity, s) && !s.consumer.Ended?
    ensures ValidRun(false, s, run)
    ensures
      var t := After(false, s, run);
      LateState(capacity, t) && t.closer.NotClosing? && !t.consumer.Ended?
    decreases CloserRank(s.closer)
  {
    run := [];
    if !s.closer.NotClosing? {
      var t := Next(false, s, CloserStep);
      StepKeepsInv(false, capacity, s, CloserStep);
      var rest := CloserFinishes(capacity, t);
      run := [CloserStep] + rest;
      assert run[1..] == rest;
    }
  }

  ghost function CloserRank(c: Closer): nat {
    match c
    case StoreClosed => 5
    case CloseBumpData => 4
    case CloseBumpSpace => 3
    case CloseNotifyData => 2
    case CloseNotifySpace => 1
    case NotClosing => 0
  }

  /** With the close over the consumer is not asleep, and its next step brings it closer to its end. */
  lemma ConsumerGoesOn<T(!new)>(capacity: nat, s: State<T>) returns (a: Action<T>)
    requires LateState(capacity, s) && s.closer.NotClosing? && !s.consumer.Ended?
    ensures Enabled(false, s, a)
    ensures
      var t := Next(false, s, a);
      && LateState(capacity, t) && t.closer.NotClosing?
      && (t.consumer.Ended? ==> t.head == t.tail)
      && ConsumerWork(t) < ConsumerWork(s)
  {
    a := if s.consumer.NotPopping? then StartPop(false) else ConsumerStep;
    if s.consumer.TakeSlot? { assert At(s.slots, s.head) == Some(s.pushed[s.head]); }
    StepKeepsInv(false, capacity, s, a);
    if a.ConsumerStep? { ConsumerStepLowersWork(s); }
  }

  lemma ConsumerStepLowersWork<T>(s: State<T>)
    requires CountersInv(s) && DataInv(s) && ClosingInv(false, s) && s.closed && s.closer.NotClosing?
    requires PastClosedCheck(s.producer) && Enabled(false, s, ConsumerStep)
    ensures
      var t := ConsumerNext(s);
      && ConsumerWork(t) < ConsumerWork(s) && PastClosedCheck(t.producer)
      && (t.consumer.Ended? ==> t.head == t.tail)
  {
  }

  lemma ConsumerDrains<T(!new)>(capacity: nat, s: State<T>) returns (run: seq<Action<T>>)
    requires LateState(capacity, s) && s.closer.NotClosing? && (s.consumer.Ended? ==> s.head == s.tail)
    ensures ValidRun(false, s, run)
    ensures
      var t := After(false, s, run);
      LateState(capacity, t) && t.consumer.Ended? && t.head == t.tail
    decreases ConsumerWork(s)
  {
    run := [];
    if !s.consumer.Ended? {
      var a := ConsumerGoesOn(capacity, s);
      var rest := ConsumerDrains(capacity, Next(false, s, a));
      run := [a] + rest;
      assert run[1..] == rest;
    }
  }

  ghost predicate LeavesAnItem<T>(s: State<T>) { s.consumer.Ended? && s.head < s.tail && |s.popped| < |s.pushed| }

  ghost predicate LosesOver<T>(s: State<T>, run: seq<Action<T>>) {
    ValidRun(false, s, run) && LeavesAnItem(After(false, s, run))
  }

  /** Some run from here leaves an accepted item behind. */
  ghost predicate CanLose<T(!new)>(s: State<T>) { exists run: seq<Action<T>> :: LosesOver(s, run) }

  lemma ProducerStores<T>(capacity: nat, s: State<T>) returns (run: seq<Action<T>>)
    requires LateState(capacity, s) && s.consumer.Ended? && s.head == s.tail
    ensures ValidRun(false, s, run) && LeavesAnItem(After(false, s, run))
    decreases if s.producer.LoadHead? then 2 else if s.producer.WriteSlot? then 1 else 0
  {
    var t := Next(false, s, ProducerStep);
    StepKeepsInv(false, capacity, s, ProducerStep);
    var rest: seq<Action<T>> := [];
    if !s.producer.StoreTail? { rest := ProducerStores(capacity, t); }
    run := [ProducerStep] + rest;
    assert run[1..] == rest;
  }

  lemma RunsCompose<T>(s: State<T>, first: seq<Action<T>>, second: seq<Action<T>>)
    requires ValidRun(false, s, first) && ValidRun(false, After(false, s, first), second)
    ensures ValidRun(false, s, first + second)
    ensures After(false, s, first + second) == After(false, After(false, s, first), second)
    decreases |first|
  {
    if first == [] {
      assert first + second == second;
    } else {
      assert (first + second)[1..] == first[1..] + second;
      RunsCompose(Next(false, s, first[0]), first[1..], second);
    }
  }

  lemma LateCloseLoses<T(!new)>(capacity: nat, s: State<T>) returns (run: seq<Action<T>>)
    requires LateState(capacity, s) && !s.consumer.Ended?
    ensures ValidRun(false, s, run) && LeavesAnItem(After(false, s, run))
  {
    var first := CloserFinishes(capacity, s);
    var second := ConsumerDrains(capacity, After(false, s, first));
    RunsCompose(s, first, second);
    var third := ProducerStores(capacity, After(false, s, first + second));
    RunsCompose(s, first + second, third);
    run := first + second + third;
  }

  /**
    The exact condition, for every capacity and every state in which a thread is about to store
    `closed`: the store can leave an accepted item behind if and only if the producer is past its test.
   */
  lemma CloseCanLoseIffLate<T(!new)>(capacity: nat, s: State<T>)
    requires Reachable(false, capacity, s) && capacity > 0 && s.closer.StoreClosed? && !s.closed
    ensures CanLose(Next(false, s, CloserStep)) <==> PastClosedCheck(s.producer)
  {
    ReachableInv(false, capacity, s);
    StepKeepsInv(false, capacity, s, CloserStep);
    var t := Next(false, s, CloserStep);
    if PastClosedCheck(s.producer) {
      var run := LateCloseLoses(capacity, t);
      assert LosesOver(t, run);
    } else {
      forall run: seq<Action<T>>
        ensures !LosesOver(t, run)
      {
        if ValidRun(false, t, run) {
          ClosedOnceIsEnough(capacity, t, run);
          TimelyRun(capacity, t, run);
        }
      }
    }
  }
}
