/**
  The queue that clients of the ring reason with: one indivisible push, pop or close at a time.
  RingTheorems proves that every step of the ring is one of these or changes nothing here.
 */
module BoundedFifo {

  datatype Fifo<T> = Fifo(items: seq<T>, closed: bool, capacity: nat) {

    predicate CanPush() { !closed && |items| < capacity }

    function Push(x: T): Fifo<T>
      requires CanPush()
    {
      this.(items := items + [x])
    }

    predicate CanPop() { items != [] }

    function Pop(): Fifo<T>
      requires CanPop()
    {
      this.(items := items[1..])
    }

    function Close(): Fifo<T> { this.(closed := true) }

    /** The one condition under which a blocking pop returns nothing. */
    predicate Drained() { closed && items == [] }
  }

  function Empty<T>(capacity: nat): Fifo<T> { Fifo([], false, capacity) }
}
