/**
  The single-producer single-consumer ring of boundedBlockingQueue.hpp, one transition for each
  access to a shared atomic. The producer runs `push`, the consumer runs `pop` or `popFor`, and
  one further thread runs `close`; the histories `offered`, `pushed` and `popped` only record.
 */
module RingQueue {
  import opened Core
  import opened BoundedFifo

  /** Where the producer stands inside `push` and the `tryPush` it calls. */
  datatype Producer<T> =
    | NotPushing
    | CheckClosed(v: T)
    | LoadHead(v: T)
    | WriteSlot(v: T)
    | StoreTail(v: T)
    | BumpData
    | NotifyData
    | AfterRefusal(v: T)
    | LoadSpaceEpoch(v: T)
    | RecheckClosed(v: T, epoch: nat)
    | CheckFull(v: T, epoch: nat)
    | CompareSpace(v: T, epoch: nat)
    | SpaceBlocked(v: T, epoch: nat)
    | Finished

  /** Where the consumer stands inside `pop` or (`timed`) `popFor`. */
  datatype Consumer<T> =
    | NotPopping
    | LoadTail(timed: bool)
    | TakeSlot
    | StoreHead(v: T)
    | BumpSpace
    | NotifySpace
    | TestClosed(timed: bool)
    | TestDrained(timed: bool)
    | CheckDeadline
    | LoadDataEpoch
    | RetestClosed(epoch: nat)
    | RetestDrained(epoch: nat)
    | CheckEmpty(epoch: nat)
    | CompareData(epoch: nat)
    | DataBlocked(epoch: nat)
    | Ended

  /** Where the closing thread stands inside `close`. */
  datatype Closer = NotClosing | StoreClosed | CloseBumpData | CloseBumpSpace | CloseNotifyData | CloseNotifySpace

  datatype State<T> = State(
    slots: seq<Option<T>>,
    head: nat,
    tail: nat,
    closed: bool,
    dataEpoch: nat,
    spaceEpoch: nat,
    producer: Producer<T>,
    consumer: Consumer<T>,
    closer: Closer,
    offered: seq<T>,
    pushed: seq<T>,
    popped: seq<T>
  )

  datatype Action<T> =
    | StartPush(item: T)
    | FinishPushing
    | ProducerStep
    | StartPop(withDeadline: bool)
    | DeadlinePassed
    | ConsumerStep
    | StartClose
    | CloserStep

  ghost function Init<T>(capacity: nat): State<T> {
    State(seq(capacity, _ => None), 0, 0, false, 0, 0, NotPushing, NotPopping, NotClosing, [], [], [])
  }

  /**
    `ordered` says that `close` is called only after the producer has made its last push: by the
    producer thread itself after its loop, or by a thread that has joined it.
   */
  ghost predicate Enabled<T>(ordered: bool, s: State<T>, a: Action<T>) {
    match a
    case StartPush(_) => s.producer.NotPushing?
    case FinishPushing => s.producer.NotPushing?
    case ProducerStep => !s.producer.NotPushing? && !s.producer.Finished? && !s.producer.SpaceBlocked?
                         && (|s.slots| > 0)
    case StartPop(_) => s.consumer.NotPopping?
    case DeadlinePassed => s.consumer.CheckDeadline?
    case ConsumerStep => !s.consumer.NotPopping? && !s.consumer.Ended? && !s.consumer.DataBlocked?
                         && (s.consumer.TakeSlot? ==> |s.slots| > 0 && At(s.slots, s.head).Some?)
    case StartClose => s.closer.NotClosing? && (ordered ==> s.producer.Finished?)
    case CloserStep => !s.closer.NotClosing?
  }

  /** The slot that index `i` uses. */
  ghost function At<T>(slots: seq<Option<T>>, i: nat): Option<T>
    requires |slots| > 0
  {
    slots[i % |slots|]
  }

  ghost function Put<T>(slots: seq<Option<T>>, i: nat, x: Option<T>): seq<Option<T>>
    requires |slots| > 0
  {
    slots[i % |slots| := x]
  }

  ghost function Next<T>(ordered: bool, s: State<T>, a: Action<T>): State<T>
    requires Enabled(ordered, s, a)
  {
    match a
    case StartPush(v) =>
      // push returns false at once when there are no slots
      s.(offered := s.offered + [v], producer := if |s.slots| == 0 then NotPushing else CheckClosed(v))
    case FinishPushing => s.(producer := Finished)
    case ProducerStep => ProducerNext(s)
    case StartPop(timed) => s.(consumer := LoadTail(timed))
    case DeadlinePassed => s.(consumer := NotPopping)
    case ConsumerStep => ConsumerNext(s)
    case StartClose => s.(closer := StoreClosed)
    case CloserStep => CloserNext(s)
  }

  ghost function WakeConsumer<T>(c: Consumer<T>): Consumer<T> {
    if c.DataBlocked? then CompareData(c.epoch) else c
  }

  ghost function WakeProducer<T>(p: Producer<T>): Producer<T> {
    if p.SpaceBlocked? then CompareSpace(p.v, p.epoch) else p
  }

  ghost function ProducerNext<T>(s: State<T>): State<T>
    requires !s.producer.NotPushing? && !s.producer.Finished? && !s.producer.SpaceBlocked?
    requires |s.slots| > 0
  {
    match s.producer
    case CheckClosed(v) => s.(producer := if s.closed then AfterRefusal(v) else LoadHead(v))
    case LoadHead(v) => s.(producer := if s.tail - s.head >= |s.slots| then AfterRefusal(v) else WriteSlot(v))
    case WriteSlot(v) => s.(slots := Put(s.slots, s.tail, Some(v)), producer := StoreTail(v))
    case StoreTail(v) => s.(tail := s.tail + 1, pushed := s.pushed + [v], producer := BumpData)
    case BumpData => s.(dataEpoch := s.dataEpoch + 1, producer := NotifyData)
    case NotifyData => s.(consumer := WakeConsumer(s.consumer), producer := NotPushing)
    case AfterRefusal(v) => s.(producer := if s.closed then NotPushing else LoadSpaceEpoch(v))
    case LoadSpaceEpoch(v) => s.(producer := RecheckClosed(v, s.spaceEpoch))
    case RecheckClosed(v, e) => s.(producer := if s.closed then CheckClosed(v) else CheckFull(v, e))
    case CheckFull(v, e) => s.(producer := if s.tail - s.head >= |s.slots| then CompareSpace(v, e) else CheckClosed(v))
    case CompareSpace(v, e) => s.(producer := if s.spaceEpoch == e then SpaceBlocked(v, e) else CheckClosed(v))
  }

  ghost function ConsumerNext<T>(s: State<T>): State<T>
    requires !s.consumer.NotPopping? && !s.consumer.Ended? && !s.consumer.DataBlocked?
    requires s.consumer.TakeSlot? ==> |s.slots| > 0 && At(s.slots, s.head).Some?
  {
    match s.consumer
    case LoadTail(timed) => s.(consumer := if s.head == s.tail then TestClosed(timed) else TakeSlot)
    case TakeSlot => s.(consumer := StoreHead(At(s.slots, s.head).value), slots := Put(s.slots, s.head, None))
    case StoreHead(v) => s.(head := s.head + 1, popped := s.popped + [v], consumer := BumpSpace)
    case BumpSpace => s.(spaceEpoch := s.spaceEpoch + 1, consumer := NotifySpace)
    case NotifySpace => s.(producer := WakeProducer(s.producer), consumer := NotPopping)
    case TestClosed(timed) =>
      s.(consumer := if s.closed then TestDrained(timed) else if timed then CheckDeadline else LoadDataEpoch)
    case TestDrained(timed) =>
      s.(consumer := if s.head == s.tail then Ended else if timed then CheckDeadline else LoadDataEpoch)
    case CheckDeadline => s.(consumer := LoadTail(true))
    case LoadDataEpoch => s.(consumer := RetestClosed(s.dataEpoch))
    case RetestClosed(e) => s.(consumer := if s.closed then RetestDrained(e) else CheckEmpty(e))
    case RetestDrained(e) => s.(consumer := if s.head == s.tail then LoadTail(false) else CheckEmpty(e))
    case CheckEmpty(e) => s.(consumer := if s.head == s.tail then CompareData(e) else LoadTail(false))
    case CompareData(e) => s.(consumer := if s.dataEpoch == e then DataBlocked(e) else LoadTail(false))
  }

  ghost function CloserNext<T>(s: State<T>): State<T>
    requires !s.closer.NotClosing?
  {
    match s.closer
    case StoreClosed => s.(closed := true, closer := CloseBumpData)
    case CloseBumpData => s.(dataEpoch := s.dataEpoch + 1, closer := CloseBumpSpace)
    case CloseBumpSpace => s.(spaceEpoch := s.spaceEpoch + 1, closer := CloseNotifyData)
    case CloseNotifyData => s.(consumer := WakeConsumer(s.consumer), closer := CloseNotifySpace)
    case CloseNotifySpace => s.(producer := WakeProducer(s.producer), closer := NotClosing)
  }

  /** A run is a list of actions, each enabled where it is taken. */
  ghost predicate ValidRun<T>(ordered: bool, s: State<T>, run: seq<Action<T>>)
    decreases |run|
  {
    run == [] || (Enabled(ordered, s, run[0]) && ValidRun(ordered, Next(ordered, s, run[0]), run[1..]))
  }

  ghost function After<T>(ordered: bool, s: State<T>, run: seq<Action<T>>): State<T>
    requires ValidRun(ordered, s, run)
    decreases |run|
  {
    if run == [] then s else After(ordered, Next(ordered, s, run[0]), run[1..])
  }

  ghost predicate Reachable<T(!new)>(ordered: bool, capacity: nat, s: State<T>) {
    exists run: seq<Action<T>> :: ValidRun(ordered, Init(capacity), run) && After(ordered, Init(capacity), run) == s
  }
}
