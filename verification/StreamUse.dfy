/**
  What registering, subscribing, publishing and clearing do, and that a subscriber is called with what is
  published: with these the accounts of StreamTheorems are about frames that do arrive.
 */
module StreamUse {
  import opened Core
  import opened StreamRegistry
  import opened StreamDispatch

  // ---------------------------------------------------------------- single regions

  /** Tokens are handed out once: every one in use lies below the next. */
  ghost predicate TokensInv<F>(r: Registry<F>) {
    forall id, token :: id in r.slots && token in r.slots[id].subscribers ==> token < r.nextToken
  }

  /** A registration succeeds for a free name, and gives it a slot of its own with nobody in it. */
  lemma RegisterAddsAnEmptyStream<F>(r: Registry<F>, name: string)
    requires RegistryInv(r)
    ensures RegisterStream(r, name).Ok? <==> name != "" && name !in r.names && name !in r.others
    ensures RegisterStream(r, name).Err? ==>
              RegisterStream(r, name).status.code == if name == "" then InvalidArgument else AlreadyExists
    ensures RegisterStream(r, name).Ok? ==>
              var q := RegisterStream(r, name).value;
              && name in q.names && q.names[name] !in r.slots && q.names[name] in q.slots
              && SlotOf(q, name).subscribers == {} && SlotOf(q, name).pending == None && !SlotOf(q, name).scheduled
              && SlotOf(q, name).accepted == [] && SlotOf(q, name).dropped == SlotOf(q, name).discarded == 0
              && q.names - {name} == r.names && q.slots - {q.names[name]} == r.slots && q.others == r.others
  {
    if RegisterStream(r, name).Ok? {
      var q := RegisterStream(r, name).value;
      assert q.names[name] == r.nextSlot;
      assert q.slots - {r.nextSlot} == r.slots;
    }
  }

  lemma RegisterOtherTakesTheName<F>(r: Registry<F>, name: string)
    ensures StreamRegistry.RegisterOther(r, name).Ok? <==> name != "" && name !in r.names && name !in r.others
    ensures StreamRegistry.RegisterOther(r, name).Ok? ==>
              var q := StreamRegistry.RegisterOther(r, name).value;
              q.others == r.others + {name} && q.names == r.names && q.slots == r.slots
  {
  }

  /** A subscription enters one new token in the stream's slot, and changes nothing else. */
  lemma SubscribeAddsOne<F>(r: Registry<F>, name: string)
    requires RegistryInv(r) && TokensInv(r)
    ensures SubscribeStream(r, name).Ok? <==> name in r.names
    ensures SubscribeStream(r, name).Err? ==> SubscribeStream(r, name).status.code == NotFound
    ensures name in r.names ==>
              var q := SubscribeStream(r, name).value;
              && (forall id :: id in r.slots ==> r.nextToken !in r.slots[id].subscribers)
              && q.slots.Keys == r.slots.Keys && q.names == r.names && q.others == r.others
              && q.generation == r.generation && q.nextToken == r.nextToken + 1
              && (forall id :: id in r.slots && id != r.names[name] ==> q.slots[id] == r.slots[id])
              && SlotOf(q, name).subscribers == SlotOf(r, name).subscribers + {r.nextToken}
              && SlotOf(q, name) == SlotOf(r, name).(subscribers := SlotOf(q, name).subscribers)
  {
  }

  /** A cancelled subscription is in no slot any more; every other one stays. */
  lemma UnsubscribeRemovesOne<F>(r: Registry<F>, token: nat)
    ensures
      var q := StreamRegistry.Unsubscribe(r, token);
      && q.slots.Keys == r.slots.Keys && q.names == r.names && q.others == r.others && q.generation == r.generation
      && forall id :: id in r.slots ==>
           && token !in q.slots[id].subscribers
           && (forall other :: other != token ==>
                 (other in q.slots[id].subscribers <==> other in r.slots[id].subscribers))
           && q.slots[id] == r.slots[id].(subscribers := q.slots[id].subscribers)
  {
  }

  /**
    A publication to somebody becomes the pending frame, and the one it replaces counts as dropped; a
    publication to nobody is not accepted, and lets go of the pending frame without counting it.
   */
  lemma PublishOffersTheFrame<F>(r: Registry<F>, name: string, frame: F)
    requires RegistryInv(r) && name in r.names
    ensures
      var q := PublishFrame(r, name, frame);
      var before, after := SlotOf(r, name), SlotOf(q, name);
      && q.names == r.names && q.slots.Keys == r.slots.Keys && q.generation == r.generation
      && (forall id :: id in r.slots && id != r.names[name] ==> q.slots[id] == r.slots[id])
      && after.subscribers == before.subscribers && after.taken == before.taken
      && (before.subscribers != {} ==>
           && after.pending == Some(frame) && after.accepted == before.accepted + [frame] && after.scheduled
           && after.dropped == before.dropped + (if before.pending.Some? then 1 else 0)
           && after.discarded == before.discarded)
      && (before.subscribers == {} ==>
           && after.pending == None && after.accepted == before.accepted && after.scheduled == before.scheduled
           && after.dropped == before.dropped)
  {
  }

  /** A removed stream keeps no pending frame, and its name is free; the other streams stay as they are. */
  lemma RemoveLetsGo<F>(r: Registry<F>, name: string)
    requires RegistryInv(r) && name in r.names
    ensures RemoveStream(r, name).Ok?
    ensures
      var q := RemoveStream(r, name).value;
      && q.names == r.names - {name} && q.others == r.others && q.slots.Keys == r.slots.Keys
      && q.slots[r.names[name]].pending == None && q.slots[r.names[name]].dropped == SlotOf(r, name).dropped
      && forall id :: id in r.slots && id != r.names[name] ==> q.slots[id] == r.slots[id]
  {
  }

  /** `clear` leaves no name and no pending frame, and makes every dispatch from before it find nothing. */
  lemma ClearForgetsAll<F>(r: Registry<F>, name: string, generation: nat)
    requires generation <= r.generation
    ensures
      var q := ClearAll(r);
      && q.names == map[] && q.others == {} && q.generation > r.generation
      && (forall id :: id in q.slots ==> q.slots[id].pending == None)
      && Taken(q, name, generation) == None && TakeFrame(q, name, generation) == q
  {
  }

  // ---------------------------------------------------------------- tokens over runs

  lemma StepKeepsTokens<F>(s: System<F>, a: Action<F>)
    requires TokensInv(s.registry) && Enabled(s, a)
    ensures TokensInv(Next(s, a).registry)
  {
    if ChangesRegistry(a) {
      ChangeKeepsTokens(s.registry, a);
    } else {
      match a
      case Publish(_, _) =>
      case StartOther(_) =>
      case Post(_) =>
      case Shutdown =>
      case PopTask =>
      case RunTask(_) =>
      case MakeCall =>
      case Exit =>
      case _ =>
    }
  }

  lemma ChangeKeepsTokens<F>(r: Registry<F>, a: Action<F>)
    requires NamesKnown(r) && TokensInv(r) && ChangesRegistry(a)
    ensures TokensInv(Changed(r, a))
  {
    match a
    case Register(_) =>
    case RegisterOther(_) =>
    case Remove(_) =>
    case Clear =>
    case Subscribe(_) =>
    case Unsubscribe(_) =>
    case _ =>
  }

  lemma {:induction false} RunKeepsTokens<F>(s: System<F>, run: seq<Action<F>>)
    requires TokensInv(s.registry) && ValidRun(s, run)
    ensures TokensInv(After(s, run).registry)
    decreases |run|
  {
    if run != [] {
      StepKeepsTokens(s, run[0]);
      RunKeepsTokens(Next(s, run[0]), run[1..]);
    }
  }

  lemma ReachableTokens<F(!new)>(s: System<F>)
    requires Reachable(s)
    ensures TokensInv(s.registry)
  {
    var run :| ValidRun(Init<F>(), run) && After(Init(), run) == s;
    RunKeepsTokens(Init(), run);
  }

  // ---------------------------------------------------------------- from a subscription to its callback

  lemma Before<F>(s: System<F>, a: Action<F>, rest: seq<Action<F>>) returns (run: seq<Action<F>>)
    requires Enabled(s, a) && ValidRun(Next(s, a), rest)
    ensures ValidRun(s, run) && After(s, run) == After(Next(s, a), rest) && run == [a] + rest
  {
    run := [a] + rest;
    assert run[1..] == rest;
  }

  lemma OneStep<F(!new)>(s: System<F>, a: Action<F>) returns (t: System<F>)
    requires Reachable(s) && Enabled(s, a)
    ensures t == Next(s, a) && Reachable(t)
  {
    t := Next(s, a);
    var run :| ValidRun(Init<F>(), run) && After(Init(), run) == s;
    RunExtends(Init(), run, a);
  }

  lemma RunExtends<F>(s: System<F>, run: seq<Action<F>>, a: Action<F>)
    requires ValidRun(s, run) && Enabled(After(s, run), a)
    ensures ValidRun(s, run + [a]) && After(s, run + [a]) == Next(After(s, run), a)
    decreases |run|
  {
    if run == [] {
      assert [a][1..] == [];
    } else {
      assert (run + [a])[0] == run[0] && (run + [a])[1..] == run[1..] + [a];
      RunExtends(Next(s, run[0]), run[1..], a);
    }
  }

  lemma Enumeration(tokens: set<nat>) returns (order: seq<nat>)
    ensures Enumerates(order, tokens)
  {
    if tokens == {} {
      order := [];
    } else {
      var token :| token in tokens;
      var rest := Enumeration(tokens - {token});
      order := [token] + rest;
    }
  }

  /** The worker makes the calls it has left. */
  lemma CallsAreMade<F>(s: System<F>) returns (run: seq<Action<F>>)
    requires NamesKnown(s.registry) && (s.worker.Waiting? || (s.worker.Calling? && s.worker.remaining != []))
    ensures ValidRun(s, run) && After(s, run).calls == s.calls + Remaining(s.worker)
    ensures After(s, run).worker == Waiting
    decreases |Remaining(s.worker)|
  {
    if s.worker.Waiting? {
      run := [];
    } else {
      OneCallIsMade(s);
      var rest := CallsAreMade(Next(s, MakeCall));
      run := Before(s, MakeCall, rest);
    }
  }

  lemma OneCallIsMade<F>(s: System<F>)
    requires NamesKnown(s.registry) && s.worker.Calling? && s.worker.remaining != []
    ensures
      var t := Next(s, MakeCall);
      && NamesKnown(t.registry) && (t.worker.Waiting? || (t.worker.Calling? && t.worker.remaining != []))
      && Remaining(t.worker) == s.worker.remaining[1..]
      && t.calls + Remaining(t.worker) == s.calls + Remaining(s.worker)
  {
  }

  /** What there is to take from a stream with a pending frame. */
  ghost function Offered<F>(r: Registry<F>, name: string): Take<F>
    requires name in r.names && r.names[name] in r.slots
    requires SlotOf(r, name).pending.Some? && SlotOf(r, name).accepted != []
  {
    var slot := SlotOf(r, name);
    Take(r.names[name], |slot.accepted| - 1, slot.pending.value, slot.subscribers)
  }

  /** The worker that has popped the dispatch of a pending frame takes it, for everybody subscribed. */
  lemma DispatchTakes<F>(s: System<F>, name: string, order: seq<nat>)
    requires NamesKnown(s.registry) && name in s.registry.names && SlotInv(SlotOf(s.registry, name))
    requires SlotOf(s.registry, name).pending.Some? && s.worker == Holding(Current(s.registry, name))
    requires Enumerates(order, SlotOf(s.registry, name).subscribers)
    ensures Enabled(s, RunTask(order))
    ensures
      var t := Next(s, RunTask(order));
      NamesKnown(t.registry) && t.worker == Idle(CallsOf(Offered(s.registry, name), order)) && t.calls == s.calls
  {
    assert Taken(s.registry, name, s.registry.generation) == Some(Offered(s.registry, name));
  }

  lemma DispatchIsPopped<F>(s: System<F>, task: Task)
    requires NamesKnown(s.registry) && s.worker.Waiting? && s.tasks == [] && !s.stopping && task in s.posting
    ensures Enabled(s, Post(task)) && Enabled(Next(s, Post(task)), PopTask)
    ensures
      var t := Next(Next(s, Post(task)), PopTask);
      t.registry == s.registry && t.worker == Holding(task) && t.calls == s.calls
  {
  }

  lemma EveryCallIsListed<F>(take: Take<F>, order: seq<nat>, token: nat)
    requires token in order
    ensures Call(take.slot, take.index, take.frame, token) in CallsOf(take, order)
  {
    var i :| 0 <= i < |order| && order[i] == token;
    assert CallsOf(take, order)[i] == Call(take.slot, take.index, take.frame, token);
  }

  /** From `s` to `t` everybody in `tokens` was called with that frame. */
  ghost predicate AllCalled<F>(s: System<F>, t: System<F>, slot: nat, index: nat, frame: F, tokens: set<nat>) {
    && s.calls <= t.calls
    && forall token :: token in tokens ==> Call(slot, index, frame, token) in t.calls[|s.calls|..]
  }

  lemma ListedAreCalled<F>(s: System<F>, t: System<F>, take: Take<F>, order: seq<nat>)
    requires Enumerates(order, take.subscribers) && t.calls == s.calls + CallsOf(take, order)
    ensures AllCalled(s, t, take.slot, take.index, take.frame, take.subscribers)
  {
    assert t.calls[|s.calls|..] == CallsOf(take, order);
    forall token | token in take.subscribers
      ensures Call(take.slot, take.index, take.frame, token) in CallsOf(take, order)
    {
      EveryCallIsListed(take, order, token);
    }
  }

  /** A dispatch that is about to be posted ends, on a free worker, with everybody subscribed called. */
  lemma DispatchCalls<F>(s: System<F>, name: string) returns (run: seq<Action<F>>)
    requires NamesKnown(s.registry) && name in s.registry.names && SlotInv(SlotOf(s.registry, name))
    requires s.worker.Waiting? && s.tasks == [] && !s.stopping
    requires SlotOf(s.registry, name).pending.Some? && Current(s.registry, name) in s.posting
    ensures ValidRun(s, run)
    ensures
      var slot := SlotOf(s.registry, name);
      AllCalled(s, After(s, run), s.registry.names[name], |slot.accepted| - 1, slot.pending.value, slot.subscribers)
  {
    var task, take := Current(s.registry, name), Offered(s.registry, name);
    var order := Enumeration(take.subscribers);
    DispatchIsPopped(s, task);
    var s1 := Next(s, Post(task));
    var s2 := Next(s1, PopTask);
    DispatchTakes(s2, name, order);
    var s3 := Next(s2, RunTask(order));
    var rest := CallsAreMade(s3);
    assert Remaining(s3.worker) == CallsOf(take, order);
    ListedAreCalled(s, After(s3, rest), take, order);
    run := Before(s2, RunTask(order), rest);
    run := Before(s1, PopTask, run);
    run := Before(s, Post(task), run);
  }

  /** A scheduled stream of a free, running dispatcher has its dispatch at a publisher. */
  lemma DispatchIsAtAPublisher<F(!new)>(s: System<F>, name: string)
    requires Reachable(s) && name in s.registry.names && s.worker.Waiting? && s.tasks == [] && !s.stopping
    ensures s.registry.names[name] in s.registry.slots
    ensures SlotOf(s.registry, name).scheduled ==> Current(s.registry, name) in s.posting
  {
    ReachableInv(s);
    assert TightAt(s.registry, Known(s), name);
    assert Known(s) == s.posting + multiset(s.tasks) + Hand(s.worker) + s.refused;
  }

  /** What a publication to somebody leaves behind, on a free, running dispatcher. */
  lemma PublicationIsPending<F(!new)>(s: System<F>, name: string, frame: F) returns (t: System<F>)
    requires Reachable(s) && name in s.registry.names && s.worker.Waiting? && s.tasks == [] && !s.stopping
    ensures Enabled(s, Publish(name, frame)) && t == Next(s, Publish(name, frame)) && Reachable(t)
    ensures NamesKnown(t.registry)
    ensures t.worker.Waiting? && t.tasks == [] && !t.stopping && t.calls == s.calls
    ensures s.registry.names[name] in s.registry.slots
    ensures name in t.registry.names && t.registry.names[name] == s.registry.names[name]
    ensures
      var before, after := SlotOf(s.registry, name), SlotOf(t.registry, name);
      before.subscribers != {} ==>
        && SlotInv(after) && after.subscribers == before.subscribers
        && after.pending == Some(frame) && |after.accepted| == |before.accepted| + 1
        && Current(t.registry, name) in t.posting
  {
    ReachableInv(s);
    t := OneStep(s, Publish(name, frame));
    ReachableInv(t);
    PublishOffersTheFrame(s.registry, name, frame);
    DispatchIsAtAPublisher(t, name);
  }

  /** A publication on a free, running dispatcher can be carried through to everybody subscribed. */
  lemma PublicationIsDelivered<F(!new)>(s: System<F>, name: string, frame: F) returns (run: seq<Action<F>>)
    requires Reachable(s) && name in s.registry.names && s.worker.Waiting? && s.tasks == [] && !s.stopping
    ensures s.registry.names[name] in s.registry.slots
    ensures |run| >= 1 && run[0] == Publish(name, frame) && ValidRun(s, run)
    ensures
      var slot := SlotOf(s.registry, name);
      AllCalled(s, After(s, run), s.registry.names[name], |slot.accepted|, frame, slot.subscribers)
  {
    var t := PublicationIsPending(s, name, frame);
    run := [];
    if SlotOf(s.registry, name).subscribers != {} {
      run := DispatchCalls(t, name);
    }
    run := Before(s, Publish(name, frame), run);
  }

  /**
    From every reachable state with a free worker, no task queued and no shutdown: subscribe to a stream,
    publish a frame, and there is a run in which the new subscriber, and everybody who had been
    subscribed before, is called with that frame.
   */
  lemma SubscriberIsCalled<F(!new)>(s: System<F>, name: string, frame: F) returns (run: seq<Action<F>>)
    requires Reachable(s) && name in s.registry.names && s.worker.Waiting? && s.tasks == [] && !s.stopping
    ensures s.registry.names[name] in s.registry.slots
    ensures |run| >= 2 && run[0] == Subscribe(name) && run[1] == Publish(name, frame) && ValidRun(s, run)
    ensures
      var slot := SlotOf(s.registry, name);
      AllCalled(s, After(s, run), s.registry.names[name], |slot.accepted|, frame,
                slot.subscribers + {s.registry.nextToken})
  {
    ReachableInv(s);
    ReachableTokens(s);
    var t := OneStep(s, Subscribe(name));
    SubscribeAddsOne(s.registry, name);
    var rest := PublicationIsDelivered(t, name, frame);
    run := Before(s, Subscribe(name), rest);
  }

  // ---------------------------------------------------------------- other tasks, and the end

  /** A state delivery takes its turn in the same queue. */
  lemma OtherTaskRuns<F>(s: System<F>, number: nat) returns (run: seq<Action<F>>)
    requires NamesKnown(s.registry) && s.worker.Waiting? && s.tasks == [] && !s.stopping
    ensures ValidRun(s, run)
    ensures
      var t := After(s, run);
      && t.ran == s.ran + [Task.Other(number)] && t.worker.Waiting? && t.tasks == []
      && t.registry == s.registry && t.calls == s.calls
  {
    var task: Task := Task.Other(number);
    var s1 := Next(s, StartOther(number));
    assert task in s1.posting;
    DispatchIsPopped(s1, task);
    var s2 := Next(s1, Post(task));
    var s3 := Next(s2, PopTask);
    assert s3.ran == s.ran + [task];
    var none: seq<Action<F>> := [];
    run := Before(s3, RunTask([]), none);
    run := Before(s2, PopTask, run);
    run := Before(s1, Post(task), run);
    run := Before(s, StartOther(number), run);
  }

  /** After `shutdown` a post is let fall, and a worker with nothing left to do leaves. */
  lemma ShutdownEndsTheWorker<F>(s: System<F>, task: Task) returns (run: seq<Action<F>>)
    requires NamesKnown(s.registry)
    ensures Enabled(s, Shutdown) && Next(s, Shutdown).stopping
    ensures
      var t := Next(s, Shutdown);
      task in s.posting ==>
        Enabled(t, Post(task)) && Next(t, Post(task)).tasks == s.tasks
        && Next(t, Post(task)).posting == s.posting - multiset{task}
    ensures ValidRun(s, run) && (s.worker.Waiting? && s.tasks == [] ==> After(s, run).worker.Exited?)
  {
    var none: seq<Action<F>> := [];
    run := none;
    if s.worker.Waiting? && s.tasks == [] {
      run := Before(Next(s, Shutdown), Exit, none);
      run := Before(s, Shutdown, run);
    }
  }

  // ---------------------------------------------------------------- nobody else is called

  ghost predicate IsServedBy<F>(takes: seq<Take<F>>, call: Call<F>, k: nat) {
    && k < |takes| && call.token in takes[k].subscribers
    && takes[k].slot == call.slot && takes[k].index == call.index && takes[k].frame == call.frame
  }

  ghost predicate ServedBySome<F>(takes: seq<Take<F>>, call: Call<F>) { exists k: nat :: IsServedBy(takes, call, k) }

  ghost predicate ScriptInv<F>(s: System<F>) {
    forall i :: 0 <= i < |Script(s)| ==> ServedBySome(s.takes, Script(s)[i])
  }

  lemma StepKeepsScript<F>(s: System<F>, a: Action<F>)
    requires ScriptInv(s) && Enabled(s, a)
    ensures ScriptInv(Next(s, a))
  {
    if a.RunTask? {
      RunKeepsScript(s, a.order);
    } else if a.MakeCall? {
      assert Script(Next(s, a)) == Script(s);
    } else {
      OthersKeepScript(s, a);
    }
  }

  lemma OthersKeepScript<F>(s: System<F>, a: Action<F>)
    requires Enabled(s, a) && !a.RunTask? && !a.MakeCall?
    ensures Script(Next(s, a)) == Script(s) && Next(s, a).takes == s.takes
  {
    if !ChangesRegistry(a) {
      match a
      case Publish(_, _) =>
      case StartOther(_) =>
      case Post(_) =>
      case Shutdown =>
      case PopTask =>
      case Exit =>
      case _ =>
    }
  }

  lemma RunKeepsScript<F>(s: System<F>, order: seq<nat>)
    requires ScriptInv(s) && Enabled(s, RunTask(order))
    ensures ScriptInv(Run(s, order))
  {
    var t := Run(s, order);
    forall i | 0 <= i < |Script(t)|
      ensures ServedBySome(t.takes, Script(t)[i])
    {
      if i < |s.calls| {
        assert Script(s)[i] == s.calls[i];
        var k: nat :| IsServedBy(s.takes, s.calls[i], k);
        assert IsServedBy(t.takes, Script(t)[i], k);
      } else {
        assert IsServedBy(t.takes, Script(t)[i], |s.takes|);
      }
    }
  }

  lemma {:induction false} RunsKeepScript<F>(s: System<F>, run: seq<Action<F>>)
    requires ScriptInv(s) && ValidRun(s, run)
    ensures ScriptInv(After(s, run))
    decreases |run|
  {
    if run != [] {
      StepKeepsScript(s, run[0]);
      RunsKeepScript(Next(s, run[0]), run[1..]);
    }
  }

  /** Every callback goes to somebody who was subscribed when the frame was taken, with that frame. */
  lemma OnlySubscribersAreCalled<F(!new)>(s: System<F>, i: nat) returns (k: nat)
    requires Reachable(s) && i < |s.calls|
    ensures k < |s.takes| && s.calls[i].token in s.takes[k].subscribers
    ensures s.takes[k].slot == s.calls[i].slot && s.takes[k].index == s.calls[i].index
    ensures s.takes[k].frame == s.calls[i].frame
  {
    var run :| ValidRun(Init<F>(), run) && After(Init(), run) == s;
    RunsKeepScript(Init(), run);
    assert Script(s)[i] == s.calls[i];
    k :| IsServedBy(s.takes, s.calls[i], k);
  }

  /** A take names the subscribers and the newest accepted frame of its stream, as they were then. */
  lemma TakeIsOfItsMoment<F(!new)>(s: System<F>, order: seq<nat>)
    requires Reachable(s) && Enabled(s, RunTask(order)) && |Next(s, RunTask(order)).takes| > |s.takes|
    ensures
      var r, name, take := s.registry, s.worker.task.name, Next(s, RunTask(order)).takes[|s.takes|];
      && s.worker.task.Dispatch? && name in r.names && r.names[name] in r.slots && take.slot == r.names[name]
      && take.subscribers == SlotOf(r, name).subscribers
      && SlotOf(r, name).accepted != [] && take.index == |SlotOf(r, name).accepted| - 1
      && take.frame == SlotOf(r, name).accepted[take.index]
  {
    ReachableInv(s);
  }
}
