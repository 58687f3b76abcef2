/** What subscribers and publishers of a stream can rely on, in every reachable state. */
module StreamTheorems {
  import opened Core
  import opened StreamRegistry
  import opened StreamDispatch

  /** Every frame published to somebody was taken for delivery, replaced, let go, or is pending. */
  lemma FramesAreAccountedFor<F(!new)>(s: System<F>, id: nat)
    requires Reachable(s) && id in s.registry.slots
    ensures var slot := s.registry.slots[id];
      && |slot.accepted| == |slot.taken| + slot.dropped + slot.discarded + One(slot.pending.Some?)
      && Increasing(slot.taken)
      && forall i :: 0 <= i < |slot.taken| ==> slot.taken[i] < |slot.accepted| && InTakes(s.takes, id, slot.taken[i])
  {
    ReachableInv(s);
  }

  /** A dispatch takes the newest accepted frame, whatever was published before it. */
  lemma NewestIsTaken<F(!new)>(s: System<F>, name: string)
    requires Reachable(s) && name in s.registry.names
    ensures s.registry.names[name] in s.registry.slots
    ensures
      var accepted := SlotOf(s.registry, name).accepted;
      var taken := Taken(s.registry, name, s.registry.generation);
      taken.Some? ==>
        accepted != [] && taken.value.frame == accepted[|accepted| - 1] && taken.value.index == |accepted| - 1
  {
    ReachableInv(s);
  }

  /**
    A pending frame has a dispatch that is about to be posted, queued, or popped; the one exception
    is a dispatch the dispatcher refused because it was stopping.
   */
  lemma PendingIsOnItsWay<F(!new)>(s: System<F>, name: string)
    requires Reachable(s) && name in s.registry.names
    ensures s.registry.names[name] in s.registry.slots
    ensures SlotOf(s.registry, name).pending.Some? ==>
      SlotOf(s.registry, name).scheduled
      && (Current(s.registry, name) in Outstanding(s) || (s.stopping && Current(s.registry, name) in s.refused))
  {
    ReachableInv(s);
    assert TightAt(s.registry, Known(s), name);
  }

  /** Coalescing: a stream has at most one dispatch on its way, and one more per removal of its name. */
  lemma DispatchesAreCoalesced<F(!new)>(s: System<F>, name: string)
    requires Reachable(s)
    ensures Outstanding(s)[Dispatch(name, s.registry.generation)] <= 1 + Removals(s.registry, name)
  {
    ReachableInv(s);
    assert TightAt(s.registry, Known(s), name);
    assert Current(s.registry, name) == Dispatch(name, s.registry.generation);
  }

  ghost predicate Quiet<F>(s: System<F>) { s.posting == multiset{} && s.tasks == [] && s.worker.Waiting? }

  /** When nothing is on its way, nothing is pending: no published frame is forgotten. */
  lemma NothingIsForgotten<F(!new)>(s: System<F>, id: nat)
    requires Reachable(s) && Quiet(s) && !s.stopping && id in s.registry.slots
    ensures s.registry.slots[id].pending.None?
    ensures var slot := s.registry.slots[id]; |slot.accepted| == |slot.taken| + slot.dropped + slot.discarded
  {
    ReachableInv(s);
    if s.registry.slots[id].pending.Some? {
      var name :| name in s.registry.names && s.registry.names[name] == id;
      PendingIsOnItsWay(s, name);
    }
  }

  /** A worker that left has run everything that was posted, in the order of posting. */
  lemma ShutdownDrainsTheQueue<F(!new)>(s: System<F>)
    requires Reachable(s)
    ensures s.ran <= s.posted
    ensures s.worker.Exited? ==> s.stopping && s.ran == s.posted
  {
    ReachableInv(s);
    assert s.ran == s.posted[..|s.ran|] by {
      assert s.posted == s.ran + s.tasks;
    }
  }

  /**
    A callback is made with an accepted frame; the frames of one stream come in the order they were
    published, and no subscriber sees one twice.
   */
  lemma DeliveryIsOrdered<F(!new)>(s: System<F>, i: nat, j: nat)
    requires Reachable(s) && i < j < |s.calls| && s.calls[i].slot == s.calls[j].slot
    ensures var slots := s.registry.slots; var one, other := s.calls[i], s.calls[j];
      && one.slot in slots && one.index < |slots[one.slot].accepted| && one.frame == slots[one.slot].accepted[one.index]
      && (one.index < other.index || (one.index == other.index && one.frame == other.frame && one.token != other.token))
  {
    ReachableInv(s);
    assert Script(s)[i] == s.calls[i] && Script(s)[j] == s.calls[j];
  }

  /** Once the worker is done with it, everybody subscribed when a frame was taken was called with it. */
  lemma SubscribersAreServed<F(!new)>(s: System<F>, k: nat, token: nat)
    requires Reachable(s) && !s.worker.Calling? && k < |s.takes| && token in s.takes[k].subscribers
    ensures Call(s.takes[k].slot, s.takes[k].index, s.takes[k].frame, token) in s.calls
  {
    ReachableInv(s);
    assert Script(s) == s.calls;
  }
}
