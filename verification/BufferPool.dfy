/**
  The pool of pre-allocated buffers (memory/detail/bufferPool.hpp). A lease is a shared pointer to
  one slot: every tensor view of the buffer holds a copy, and the last copy to go runs the deleter
  that puts the slot back.
 */
module BufferPool {
  import opened Core

  /** `views` is the use count of the shared pointer; at 0 the deleter has yet to push the slot back. */
  datatype Lease = Lease(slot: nat, views: nat)

  datatype Event = Acquired(lease: nat, slot: nat) | Returned(lease: nat, slot: nat)

  /** Leases are numbered from 0; `log` records every slot taken from and pushed on the stack. */
  datatype Pool = Pool(size: nat, available: seq<nat>, leases: map<nat, Lease>, issued: nat, log: seq<Event>)

  datatype Action = Acquire | CopyView(lease: nat) | DropView(lease: nat) | RunDeleter(lease: nat)

  function Descending(count: nat): (slots: seq<nat>)
    ensures |slots| == count && forall i :: 0 <= i < count ==> slots[i] == count - i - 1
  {
    seq(count, i requires 0 <= i < count => count - i - 1)
  }

  function Init(size: nat): Pool { Pool(size, Descending(size), map[], 0, []) }

  predicate Live(p: Pool, lease: nat) { lease in p.leases && p.leases[lease].views > 0 }

  predicate Enabled(p: Pool, a: Action) {
    match a
    case Acquire => true
    case CopyView(lease) => Live(p, lease)
    case DropView(lease) => Live(p, lease)
    case RunDeleter(lease) => lease in p.leases && p.leases[lease].views == 0
  }

  function Take(p: Pool): Pool
    requires p.available != []
  {
    var top := |p.available| - 1;
    p.(available := p.available[..top], leases := p.leases[p.issued := Lease(p.available[top], 1)],
       issued := p.issued + 1, log := p.log + [Acquired(p.issued, p.available[top])])
  }

  function Count(p: Pool, lease: nat, views: nat): Pool
    requires lease in p.leases
  {
    p.(leases := p.leases[lease := p.leases[lease].(views := views)])
  }

  function PutBack(p: Pool, lease: nat): Pool
    requires lease in p.leases
  {
    var slot := p.leases[lease].slot;
    p.(available := p.available + [slot], leases := p.leases - {lease}, log := p.log + [Returned(lease, slot)])
  }

  function Next(p: Pool, a: Action): Pool
    requires Enabled(p, a)
  {
    match a
    case Acquire => if p.available == [] then p else Take(p) // an empty pool reports exhaustion
    case CopyView(lease) => Count(p, lease, p.leases[lease].views + 1)
    case DropView(lease) => Count(p, lease, p.leases[lease].views - 1)
    case RunDeleter(lease) => PutBack(p, lease)
  }

  ghost predicate ValidRun(p: Pool, run: seq<Action>)
    decreases |run|
  {
    run == [] || (Enabled(p, run[0]) && ValidRun(Next(p, run[0]), run[1..]))
  }

  ghost function After(p: Pool, run: seq<Action>): Pool
    requires ValidRun(p, run)
    decreases |run|
  {
    if run == [] then p else After(Next(p, run[0]), run[1..])
  }

  ghost predicate Reachable(size: nat, p: Pool) {
    exists run :: ValidRun(Init(size), run) && After(Init(size), run) == p
  }

  // ---------------------------------------------------------------- the partition

  ghost predicate Distinct(xs: seq<nat>) { forall i, j :: 0 <= i < j < |xs| ==> xs[i] != xs[j] }

  ghost predicate Free(p: Pool, slot: nat) { slot in p.available }

  ghost predicate Held(p: Pool, slot: nat) { exists lease :: lease in p.leases && p.leases[lease].slot == slot }

  /** Every slot is free or held by a lease, and by no two of those. */
  ghost predicate Partition(p: Pool) {
    && Distinct(p.available)
    && (forall slot :: slot in p.available ==> slot < p.size && !Held(p, slot))
    && (forall lease :: lease in p.leases ==> p.leases[lease].slot < p.size)
    && (forall one, other :: one in p.leases && other in p.leases && one != other ==>
          p.leases[one].slot != p.leases[other].slot)
    && (forall slot: nat :: slot < p.size ==> Free(p, slot) || Held(p, slot))
    && |p.available| + |p.leases| == p.size
  }

  ghost predicate AcquiredAt(p: Pool, at: nat, lease: nat, slot: nat) {
    at < |p.log| && p.log[at] == Acquired(lease, slot)
  }

  ghost predicate ReturnedAt(p: Pool, at: nat, lease: nat, slot: nat) {
    at < |p.log| && p.log[at] == Returned(lease, slot)
  }

  ghost predicate ReturnedAfter(p: Pool, at: nat, lease: nat, slot: nat) {
    exists r: nat :: at < r && ReturnedAt(p, r, lease, slot)
  }

  /** A lease is open from the moment it is acquired until it is returned. */
  ghost predicate LogMatches(p: Pool) {
    && (forall lease :: lease in p.leases ==> lease < p.issued)
    && (forall at: nat :: at < |p.log| ==> p.log[at].lease < p.issued)
    && (forall at: nat, lease, slot :: AcquiredAt(p, at, lease, slot) ==>
          (lease in p.leases && p.leases[lease].slot == slot) || ReturnedAfter(p, at, lease, slot))
    && (forall at: nat, lease, slot :: ReturnedAt(p, at, lease, slot) ==> lease !in p.leases)
  }

  /** No event happens twice, and a slot is acquired again only after it was returned. */
  ghost predicate LogIsFair(p: Pool) {
    && Distinct(p.available)
    && (forall a: nat, b: nat :: a < b < |p.log| ==> p.log[a] != p.log[b])
    && (forall a: nat, b: nat, lease, other, slot ::
          a < b && AcquiredAt(p, a, lease, slot) && AcquiredAt(p, b, other, slot) ==>
              ReturnedBetween(p, a, b, lease, slot))
  }

  ghost predicate ReturnedBetween(p: Pool, a: nat, b: nat, lease: nat, slot: nat) {
    exists r: nat :: a < r < b && ReturnedAt(p, r, lease, slot)
  }

  ghost predicate Inv(p: Pool) { Partition(p) && LogMatches(p) && LogIsFair(p) }

  lemma TakeKeepsPartition(p: Pool)
    requires Partition(p) && LogMatches(p) && p.available != []
    ensures Partition(Take(p))
  {
    var q, top := Take(p), |p.available| - 1;
    var slot := p.available[top];
    assert q.leases[p.issued].slot == slot && Held(q, slot);
    assert slot in p.available && !Held(p, slot);
    assert forall lease :: lease in p.leases ==> p.leases[lease].slot != slot;
    forall s: nat | s in q.available ensures s < q.size && !Held(q, s) {
      var i :| 0 <= i < |q.available| && q.available[i] == s;
      assert p.available[i] == s && i != top && s in p.available && s != slot;
      forall lease | lease in q.leases ensures q.leases[lease].slot != s {
        assert lease != p.issued ==> p.leases[lease].slot != s by {
          assert !Held(p, s);
        }
      }
    }
    TakeKeepsAllSlots(p);
    assert q.leases.Keys == p.leases.Keys + {p.issued};
  }

  lemma TakeKeepsAllSlots(p: Pool)
    requires p.available != [] && p.issued !in p.leases
    requires forall slot: nat :: slot < p.size ==> Free(p, slot) || Held(p, slot)
    ensures forall slot: nat :: slot < p.size ==> Free(Take(p), slot) || Held(Take(p), slot)
  {
    var q, taken := Take(p), p.available[|p.available| - 1];
    assert q.leases[p.issued].slot == taken && Held(q, taken);
    forall s: nat | s < p.size ensures Free(q, s) || Held(q, s) {
      if Held(p, s) {
        var lease :| lease in p.leases && p.leases[lease].slot == s;
        assert lease in q.leases && q.leases[lease].slot == s;
      } else if s != taken {
        assert Free(p, s);
        var i :| 0 <= i < |p.available| && p.available[i] == s;
        assert q.available[i] == s;
      }
    }
  }

  lemma PutBackKeepsPartition(p: Pool, lease: nat)
    requires Partition(p) && lease in p.leases
    ensures Partition(PutBack(p, lease))
  {
    var q, slot := PutBack(p, lease), p.leases[lease].slot;
    assert Held(p, slot) && q.available[|p.available|] == slot;
    forall s: nat | s in q.available ensures s < q.size && !Held(q, s) {
      assert s in p.available || s == slot;
    }
    forall s: nat | s < q.size ensures Free(q, s) || Held(q, s) {
      if Held(p, s) && s != slot {
        var other :| other in p.leases && p.leases[other].slot == s;
        assert other in q.leases && q.leases[other].slot == s;
      } else if Free(p, s) {
        var i :| 0 <= i < |p.available| && p.available[i] == s;
        assert q.available[i] == s;
      }
    }
    assert p.leases.Keys == q.leases.Keys + {lease};
  }

  lemma CountKeepsInv(p: Pool, lease: nat, views: nat)
    requires Inv(p) && lease in p.leases
    ensures Inv(Count(p, lease, views))
  {
    var q := Count(p, lease, views);
    assert q.leases.Keys == p.leases.Keys;
    assert forall l :: l in p.leases ==> q.leases[l].slot == p.leases[l].slot;
    forall slot ensures Held(p, slot) <==> Held(q, slot) {
      if Held(p, slot) {
        var l :| l in p.leases && p.leases[l].slot == slot;
        assert l in q.leases && q.leases[l].slot == slot;
      }
    }
    LogCarriesOver(p, q);
  }

  lemma LogCarriesOver(p: Pool, q: Pool)
    requires LogMatches(p) && LogIsFair(p) && q.log == p.log && q.issued == p.issued && q.available == p.available
    requires q.leases.Keys == p.leases.Keys && forall l :: l in p.leases ==> q.leases[l].slot == p.leases[l].slot
    ensures LogMatches(q) && LogIsFair(q)
  {
    assert forall at: nat, lease, slot :: AcquiredAt(q, at, lease, slot) <==> AcquiredAt(p, at, lease, slot);
    assert forall at: nat, lease, slot :: ReturnedAt(q, at, lease, slot) <==> ReturnedAt(p, at, lease, slot);
    forall at: nat, lease, slot | ReturnedAfter(p, at, lease, slot) ensures ReturnedAfter(q, at, lease, slot) {
      var r: nat :| at < r && ReturnedAt(p, r, lease, slot);
      assert ReturnedAt(q, r, lease, slot);
    }
    forall a: nat, b: nat, lease, slot | ReturnedBetween(p, a, b, lease, slot)
      ensures ReturnedBetween(q, a, b, lease, slot)
    {
      var r: nat :| a < r < b && ReturnedAt(p, r, lease, slot);
      assert ReturnedAt(q, r, lease, slot);
    }
  }

  lemma TakeKeepsLog(p: Pool)
    requires Inv(p) && p.available != []
    ensures LogMatches(Take(p)) && LogIsFair(Take(p))
  {
    var q, slot, now := Take(p), p.available[|p.available| - 1], |p.log|;
    assert slot in p.available && !Held(p, slot);
    forall at: nat, lease, s | AcquiredAt(q, at, lease, s)
      ensures (lease in q.leases && q.leases[lease].slot == s) || ReturnedAfter(q, at, lease, s)
    {
      if at < now {
        assert AcquiredAt(p, at, lease, s);
        KeepReturned(p, q, at, lease, s);
      }
    }
    forall at: nat, lease, s | ReturnedAt(q, at, lease, s) ensures lease !in q.leases {
      assert ReturnedAt(p, at, lease, s);
    }
    TakeKeepsOrder(p);
  }

  lemma TakeKeepsOrder(p: Pool)
    requires Inv(p) && p.available != []
    ensures LogIsFair(Take(p))
  {
    var q, slot, now := Take(p), p.available[|p.available| - 1], |p.log|;
    assert slot in p.available && !Held(p, slot);
    forall a: nat, b: nat, lease, other, s | a < b && AcquiredAt(q, a, lease, s) && AcquiredAt(q, b, other, s)
      ensures ReturnedBetween(q, a, b, lease, s)
    {
      assert AcquiredAt(p, a, lease, s);
      if b == now {
        assert !(lease in p.leases && p.leases[lease].slot == s);
        KeepReturned(p, q, a, lease, s);
      } else {
        assert AcquiredAt(p, b, other, s);
        KeepReturned(p, q, a, lease, s);
        var r: nat :| a < r < b && ReturnedAt(p, r, lease, s);
        assert ReturnedAt(q, r, lease, s);
      }
    }
  }

  /** What was returned stays returned when the log grows. */
  lemma KeepReturned(p: Pool, q: Pool, at: nat, lease: nat, slot: nat)
    requires p.log <= q.log
    ensures ReturnedAfter(p, at, lease, slot) ==>
      exists r: nat :: at < r < |p.log| && ReturnedAt(p, r, lease, slot) && ReturnedAt(q, r, lease, slot)
    ensures ReturnedAfter(p, at, lease, slot) ==> ReturnedAfter(q, at, lease, slot)
  {
    if ReturnedAfter(p, at, lease, slot) {
      var r: nat :| at < r && ReturnedAt(p, r, lease, slot);
      assert ReturnedAt(q, r, lease, slot);
    }
  }

  lemma PutBackKeepsLog(p: Pool, lease: nat)
    requires Inv(p) && lease in p.leases
    ensures LogMatches(PutBack(p, lease)) && LogIsFair(PutBack(p, lease))
  {
    var q, slot, now := PutBack(p, lease), p.leases[lease].slot, |p.log|;
    assert Held(p, slot) && ReturnedAt(q, now, lease, slot);
    forall at: nat, l, s | AcquiredAt(q, at, l, s)
      ensures (l in q.leases && q.leases[l].slot == s) || ReturnedAfter(q, at, l, s)
    {
      assert AcquiredAt(p, at, l, s);
      KeepReturned(p, q, at, l, s);
    }
    forall at: nat, l, s | ReturnedAt(q, at, l, s) ensures l !in q.leases {
      if at < now {
        assert ReturnedAt(p, at, l, s);
      }
    }
    forall a: nat | a < now ensures p.log[a] != Returned(lease, slot) {
      if p.log[a] == Returned(lease, slot) {
        assert ReturnedAt(p, a, lease, slot);
      }
    }
    forall a: nat, b: nat, l, other, s | a < b && AcquiredAt(q, a, l, s) && AcquiredAt(q, b, other, s)
      ensures ReturnedBetween(q, a, b, l, s)
    {
      assert AcquiredAt(p, a, l, s) && AcquiredAt(p, b, other, s);
      var r: nat :| a < r < b && ReturnedAt(p, r, l, s);
      assert ReturnedAt(q, r, l, s);
    }
    assert Distinct(q.available);
  }

  lemma StepKeepsInv(p: Pool, a: Action)
    requires Inv(p) && Enabled(p, a)
    ensures Inv(Next(p, a))
  {
    match a
    case Acquire =>
      if p.available != [] {
        TakeKeepsPartition(p);
        TakeKeepsLog(p);
      }
    case CopyView(lease) => CountKeepsInv(p, lease, p.leases[lease].views + 1);
    case DropView(lease) => CountKeepsInv(p, lease, p.leases[lease].views - 1);
    case RunDeleter(lease) =>
      PutBackKeepsPartition(p, lease);
      PutBackKeepsLog(p, lease);
  }

  lemma {:induction false} RunKeepsInv(p: Pool, run: seq<Action>)
    requires Inv(p) && ValidRun(p, run)
    ensures Inv(After(p, run)) && After(p, run).size == p.size
    decreases |run|
  {
    if run != [] {
      StepKeepsInv(p, run[0]);
      RunKeepsInv(Next(p, run[0]), run[1..]);
    }
  }

  // ---------------------------------------------------------------- theorems over all runs

  /**
    Free and held slots partition the pool in every reachable state: the stack never holds a slot
    twice, two leases never share one, and exhaustion means that every slot is held.
   */
  lemma SlotsArePartitioned(size: nat, p: Pool)
    requires Reachable(size, p)
    ensures Distinct(p.available) && forall slot: nat :: slot < size ==> (Free(p, slot) <==> !Held(p, slot))
    ensures forall one, other :: one in p.leases && other in p.leases ==>
              p.leases[one].slot == p.leases[other].slot ==> one == other
    ensures |p.available| + |p.leases| == size
    ensures p.available == [] <==> |p.leases| == size
  {
    ReachableInv(size, p);
    forall slot: nat | slot < size ensures Free(p, slot) <==> !Held(p, slot) {
      assert Free(p, slot) || Held(p, slot);
    }
  }

  lemma ReachableInv(size: nat, p: Pool)
    requires Reachable(size, p)
    ensures Inv(p) && p.size == size
  {
    var run :| ValidRun(Init(size), run) && After(Init(size), run) == p;
    var first := Init(size);
    forall slot: nat | slot < size ensures Free(first, slot) {
      assert first.available[size - slot - 1] == slot;
    }
    RunKeepsInv(first, run);
  }

  /**
    Over every run a lease is issued once and pushed back at most once, never while a view is left,
    and a slot is handed out again only after the lease before returned it.
   */
  lemma SlotsAreReusedAfterReturn(size: nat, p: Pool, a: nat, b: nat, lease: nat, other: nat, slot: nat)
    requires Reachable(size, p) && AcquiredAt(p, a, lease, slot)
    ensures forall again: nat :: AcquiredAt(p, again, lease, slot) ==> again == a
    ensures forall r: nat, again: nat :: ReturnedAt(p, r, lease, slot) && ReturnedAt(p, again, lease, slot) ==>
        r == again
    ensures Live(p, lease) ==> forall r: nat, s: nat :: !ReturnedAt(p, r, lease, s)
    ensures lease !in p.leases <==> ReturnedAfter(p, a, lease, slot)
    ensures a < b && AcquiredAt(p, b, other, slot) ==> ReturnedBetween(p, a, b, lease, slot)
  {
    ReachableInv(size, p);
  }

  predicate Quiet(p: Pool) { p.leases == map[] }

  /** Once every view is gone and every deleter has run, all slots are free again. */
  lemma NothingLeaks(size: nat, p: Pool)
    requires Reachable(size, p) && Quiet(p)
    ensures |p.available| == size && forall slot: nat :: slot < size ==> Free(p, slot)
  {
    SlotsArePartitioned(size, p);
    assert forall slot :: !Held(p, slot);
  }

  // ---------------------------------------------------------------- the pool object

  /** How far a call gets: a waiting one starts over when a slot is pushed back or the token fires. */
  datatype Acquisition = Waits | Returns(result: Result<nat>)

  /** The shared state of a pool. `leases` stands for the control blocks of the shared pointers. */
  class PoolState {
    var size: nat
    var bufferCapacity: nat
    var available: seq<nat>
    var leases: map<nat, Lease>
    var issued: nat
    ghost var log: seq<Event>

    ghost function Snapshot(): Pool
      reads this
    {
      Pool(size, available, leases, issued, log)
    }

    constructor (bufferCapacity: nat)
      ensures Snapshot() == Init(0) && this.bufferCapacity == bufferCapacity
    {
      this.bufferCapacity := bufferCapacity;
      size, available, leases, issued, log := 0, [], map[], 0, [];
    }

    /**
      acquire and acquireBlocking up to the lease they return. A blocking call waits until a slot is
      free or the stop token fires; a free slot wins over the token.
     */
    method AcquireImpl(blocking: bool, stopRequested: bool) returns (outcome: Acquisition)
      modifies this
      ensures outcome.Waits? <==> blocking && !stopRequested && old(available) == []
      ensures outcome.Waits? ==> Snapshot() == old(Snapshot())
      ensures outcome.Returns? ==> Snapshot() == Next(old(Snapshot()), Acquire)
      ensures outcome.Returns? ==> (outcome.result.Ok? <==> old(available) != [])
      ensures outcome.Returns? && outcome.result.Ok? ==>
                outcome.result.value == old(issued) && Live(Snapshot(), outcome.result.value)
      ensures outcome.Returns? && outcome.result.Err? ==>
                outcome.result.status.code == if blocking then Cancelled else ResourceExhausted
    {
      if blocking && |available| == 0 {
        if !stopRequested {
          return Waits;
        }
        return Returns(Err(Status(Cancelled, "buffer acquisition was cancelled")));
      }
      if |available| == 0 {
        return Returns(Err(Status(ResourceExhausted, "buffer pool is exhausted")));
      }
      var slot := available[|available| - 1];
      available := available[..|available| - 1];
      leases := leases[issued := Lease(slot, 1)];
      log := log + [Acquired(issued, slot)];
      outcome := Returns(Ok(issued));
      issued := issued + 1;
    }

    method CopyView(lease: nat)
      requires Live(Snapshot(), lease)
      modifies this
      ensures Snapshot() == Next(old(Snapshot()), Action.CopyView(lease))
    {
      leases := leases[lease := leases[lease].(views := leases[lease].views + 1)];
    }

    /** True for the drop that leaves no view, whose caller goes on to run the deleter. */
    method DropView(lease: nat) returns (last: bool)
      requires Live(Snapshot(), lease)
      modifies this
      ensures Snapshot() == Next(old(Snapshot()), Action.DropView(lease))
      ensures last <==> Enabled(Snapshot(), Action.RunDeleter(lease))
    {
      leases := leases[lease := leases[lease].(views := leases[lease].views - 1)];
      last := leases[lease].views == 0;
    }

    method RunDeleter(lease: nat)
      requires Enabled(Snapshot(), Action.RunDeleter(lease))
      modifies this
      ensures Snapshot() == Next(old(Snapshot()), Action.RunDeleter(lease))
    {
      var slot := leases[lease].slot;
      available := available + [slot];
      log := log + [Returned(lease, slot)];
      leases := leases - {lease};
    }
  }

  /** The first allocation that fails, if one does, decides the answer; a full pool starts with slot 0 on top. */
  method Create(bufferCount: nat, bufferCapacity: nat, hasAllocator: bool, allocate: nat -> Option<Status>)
    returns (r: Result<PoolState>)
    ensures r.Ok? <==>
      bufferCount > 0 && bufferCapacity > 0 && hasAllocator && forall i: nat :: i < bufferCount ==> allocate(i).None?
    ensures r.Ok? ==> fresh(r.value) && r.value.Snapshot() == Init(bufferCount)
    ensures r.Ok? ==> r.value.bufferCapacity == bufferCapacity
    ensures bufferCount == 0 || bufferCapacity == 0 || !hasAllocator ==> r.status.code.InvalidArgument?
    ensures bufferCount > 0 && bufferCapacity > 0 && hasAllocator && r.Err? ==>
      exists i: nat :: i < bufferCount && allocate(i) == Some(r.status) && forall j: nat :: j < i ==> allocate(j).None?
  {
    if bufferCount == 0 || bufferCapacity == 0 {
      return Err(Status(InvalidArgument, "buffer pool dimensions must be greater than zero"));
    }
    if !hasAllocator {
      return Err(Status(InvalidArgument, "buffer pool allocator must not be null"));
    }
    var state := new PoolState(bufferCapacity);
    for index := 0 to bufferCount
      invariant forall j: nat :: j < index ==> allocate(j).None?
      invariant state.bufferCapacity == bufferCapacity
      invariant state.Snapshot() == Pool(index, Descending(bufferCount)[..index], map[], 0, [])
    {
      var failed := allocate(index);
      if failed.Some? {
        return Err(failed.value);
      }
      state.size := state.size + 1;
      state.available := state.available + [bufferCount - index - 1];
    }
    r := Ok(state);
  }
}
