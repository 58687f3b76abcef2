/**
  The ring of boundedBlockingQueue.hpp as an object, its operations run one at a time. RingQueue
  has the same operations broken into atomic steps that interleave.
 */
module BlockingQueue {
  import opened Core
  import opened BoundedFifo
  import Ring = RingQueue
  import RingTheorems

  /** Exactly the slots from `head` up to `tail` are occupied, counting round the ring. */
  ghost predicate Window<T>(slots: seq<Option<T>>, head: nat, tail: nat) {
    && head <= tail <= head + |slots|
    && forall i: nat :: head <= i < head + |slots| ==> (Ring.At(slots, i).Some? <==> i < tail)
  }

  ghost function Items<T>(slots: seq<Option<T>>, head: nat, tail: nat): (items: seq<T>)
    requires Window(slots, head, tail)
    ensures |items| == tail - head
  {
    seq(tail - head, i requires 0 <= i < tail - head => Ring.At(slots, head + i).value)
  }

  lemma PushKeepsWindow<T>(slots: seq<Option<T>>, head: nat, tail: nat, x: T)
    requires Window(slots, head, tail) && tail < head + |slots|
    ensures var after := Ring.Put(slots, tail, Some(x));
      Window(after, head, tail + 1) && Items(after, head, tail + 1) == Items(slots, head, tail) + [x]
  {
    RingTheorems.PutKeepsOthers(slots, tail, Some(x));
  }

  lemma PopKeepsWindow<T>(slots: seq<Option<T>>, head: nat, tail: nat)
    requires Window(slots, head, tail) && head < tail
    ensures var after := Ring.Put(slots, head, None);
      Window(after, head + 1, tail) && Items(after, head + 1, tail) == Items(slots, head, tail)[1..]
  {
    RingTheorems.PutKeepsOthers(slots, head, None);
    RingTheorems.ModStep(head, |slots|);
  }

  /** How one turn of `push` ends; a waiting one starts over when the epoch has changed. */
  datatype PushOutcome = Pushed | Refused | AwaitsSpace(epoch: nat)

  datatype PopOutcome<T> = Popped(value: T) | Drained | AwaitsData(epoch: nat)

  class BoundedBlockingQueue<T> {
    const slots: array<Option<T>>
    var head: nat
    var tail: nat
    var closed: bool
    var dataEpoch: nat
    var spaceEpoch: nat

    ghost predicate Valid()
      reads this, slots
    {
      Window(slots[..], head, tail)
    }

    ghost function Queue(): Fifo<T>
      requires Valid()
      reads this, slots
    {
      Fifo(Items(slots[..], head, tail), closed, slots.Length)
    }

    constructor (capacity: nat)
      ensures Valid() && fresh(slots) && Queue() == Empty(capacity)
    {
      slots := new Option<T>[capacity](_ => None);
      head, tail, closed, dataEpoch, spaceEpoch := 0, 0, false, 0, 0;
    }

    method TryPush(value: T) returns (pushed: bool)
      requires Valid()
      modifies this, slots
      ensures Valid() && pushed == old(Queue().CanPush())
      ensures Queue() == if pushed then old(Queue()).Push(value) else old(Queue())
      ensures dataEpoch == old(dataEpoch) + (if pushed then 1 else 0) && spaceEpoch == old(spaceEpoch)
    {
      if closed || slots.Length == 0 {
        return false;
      }
      if tail - head >= slots.Length {
        return false;
      }
      PushKeepsWindow(slots[..], head, tail, value);
      slots[tail % slots.Length] := Some(value);
      assert slots[..] == Ring.Put(old(slots[..]), tail, Some(value));
      tail := tail + 1;
      dataEpoch := dataEpoch + 1;
      pushed := true;
    }

    method TryPop() returns (value: Option<T>)
      requires Valid()
      modifies this, slots
      ensures Valid() && value.Some? == old(Queue().CanPop())
      ensures value.Some? ==> value.value == old(Queue()).items[0]
      ensures Queue() == if value.Some? then old(Queue()).Pop() else old(Queue())
      ensures spaceEpoch == old(spaceEpoch) + (if value.Some? then 1 else 0) && dataEpoch == old(dataEpoch)
    {
      if head == tail {
        return None;
      }
      value := slots[head % slots.Length];
      assert value == Ring.At(slots[..], head) && value == Some(Queue().items[0]);
      PopKeepsWindow(slots[..], head, tail);
      slots[head % slots.Length] := None;
      assert slots[..] == Ring.Put(old(slots[..]), head, None);
      head := head + 1;
      spaceEpoch := spaceEpoch + 1;
    }

    method Close()
      requires Valid()
      modifies this
      ensures Valid() && Queue() == old(Queue()).Close()
      ensures dataEpoch == old(dataEpoch) + 1 && spaceEpoch == old(spaceEpoch) + 1
    {
      closed := true;
      dataEpoch := dataEpoch + 1;
      spaceEpoch := spaceEpoch + 1;
    }

    /**
      One turn of `push`: it waits exactly on a full open queue, for the epoch to change from the one it
      has seen, and fails exactly on a closed or slotless one.
     */
    method Push(value: T) returns (outcome: PushOutcome)
      requires Valid()
      modifies this, slots
      ensures Valid()
      ensures outcome.Pushed? <==> old(Queue().CanPush())
      ensures outcome.Refused? <==> old(closed) || slots.Length == 0
      ensures outcome.AwaitsSpace? ==> outcome.epoch == spaceEpoch
      ensures Queue() == if outcome.Pushed? then old(Queue()).Push(value) else old(Queue())
      ensures outcome.Pushed? || (dataEpoch == old(dataEpoch) && spaceEpoch == old(spaceEpoch))
    {
      if slots.Length == 0 {
        return Refused;
      }
      var pushed := TryPush(value);
      if pushed {
        return Pushed;
      }
      if closed {
        return Refused;
      }
      outcome := AwaitsSpace(spaceEpoch);
    }

    /**
      One turn of `pop`: it waits exactly on an empty open queue, for the epoch to change from the one it
      has seen, and gives nothing exactly when the queue is closed and drained.
     */
    method Pop() returns (outcome: PopOutcome<T>)
      requires Valid()
      modifies this, slots
      ensures Valid()
      ensures outcome.Popped? <==> old(Queue().CanPop())
      ensures outcome.Popped? ==> outcome.value == old(Queue()).items[0]
      ensures outcome.Drained? <==> old(Queue().Drained())
      ensures outcome.AwaitsData? ==> outcome.epoch == dataEpoch
      ensures Queue() == if outcome.Popped? then old(Queue()).Pop() else old(Queue())
      ensures outcome.Popped? || (dataEpoch == old(dataEpoch) && spaceEpoch == old(spaceEpoch))
    {
      var value := TryPop();
      if value.Some? {
        return Popped(value.value);
      }
      if closed {
        return Drained;
      }
      outcome := AwaitsData(dataEpoch);
    }
  }
}
