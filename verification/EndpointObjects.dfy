/**
  The registry's streams and the dispatcher's queue as the objects that endpointRegistry.cpp and
  endpointDispatcher.cpp update.
 */
module EndpointObjects {
  import opened Core
  import S = StreamRegistry
  import opened StreamDispatch

  class EndpointRegistry<F> {
    var slots: map<nat, S.Slot<F>>
    var names: map<string, nat>
    var others: set<string>
    var generation: nat
    var nextSlot: nat
    var nextToken: nat
    ghost var removals: map<string, nat>

    ghost function Snapshot(): S.Registry<F>
      reads this
    {
      S.Registry(slots, names, others, generation, nextSlot, nextToken, removals)
    }

    ghost predicate Valid()
      reads this
    {
      S.RegistryInv(Snapshot())
    }

    constructor ()
      ensures Valid() && Snapshot() == S.EmptyRegistry()
    {
      slots, names, others, generation, nextSlot, nextToken, removals := map[], map[], {}, 0, 0, 1, map[];
    }

    method CheckNameAvailable(name: string) returns (failure: Option<Status>)
      ensures failure == S.CheckNameAvailable(Snapshot(), name)
    {
      if name == "" {
        return Some(Status(InvalidArgument, "endpoint name must not be empty"));
      }
      if name in others || name in names {
        return Some(Status(AlreadyExists, "endpoint already registered"));
      }
      failure := None;
    }

    /** A parameter, command or state, as far as its name goes. */
    method RegisterOther(name: string) returns (failure: Option<Status>)
      requires Valid()
      modifies this
      ensures Valid() && Snapshot() == Keep(S.RegisterOther(old(Snapshot()), name), old(Snapshot()))
      ensures failure.None? <==> S.RegisterOther(old(Snapshot()), name).Ok?
    {
      failure := CheckNameAvailable(name);
      if failure.None? {
        S.RegisterOtherKeepsInv(Snapshot(), name);
        others := others + {name};
      }
    }

    method RegisterStream(name: string) returns (failure: Option<Status>)
      requires Valid()
      modifies this
      ensures Valid() && Snapshot() == Keep(S.RegisterStream(old(Snapshot()), name), old(Snapshot()))
      ensures failure.None? <==> S.RegisterStream(old(Snapshot()), name).Ok?
    {
      failure := CheckNameAvailable(name);
      if failure.Some? {
        return;
      }
      S.RegisterKeepsInv(Snapshot(), name);
      slots := slots[nextSlot := S.EmptySlot()];
      names := names[name := nextSlot];
      nextSlot := nextSlot + 1;
      failure := None;
    }

    method EraseStream(name: string)
      requires name in names && names[name] in slots
      modifies this
      ensures Snapshot() == S.EraseStream(old(Snapshot()), name)
    {
      slots := slots[names[name] := S.Discard(slots[names[name]])];
      removals := removals[name := S.Removals(Snapshot(), name) + 1];
      names := names - {name};
    }

    method Remove(name: string) returns (failure: Option<Status>)
      requires Valid()
      modifies this
      ensures Valid() && Snapshot() == Keep(S.RemoveStream(old(Snapshot()), name), old(Snapshot()))
      ensures failure.None? <==> S.RemoveStream(old(Snapshot()), name).Ok?
    {
      if name !in others && name !in names {
        return Some(Status(NotFound, "endpoint not registered"));
      }
      S.RemoveKeepsInv(Snapshot(), name);
      failure := None;
      others := others - {name};
      if name in names {
        EraseStream(name);
      }
    }

    method SubscribeStream(name: string) returns (token: Result<nat>)
      requires Valid()
      modifies this
      ensures Valid() && Snapshot() == Keep(S.SubscribeStream(old(Snapshot()), name), old(Snapshot()))
      ensures token.Ok? <==> name in old(names)
      ensures token.Ok? ==> token.value == old(nextToken)
    {
      if name !in names {
        return Err(Status(NotFound, "stream endpoint not registered"));
      }
      SubscribeKeepsInv(Snapshot(), name);
      ghost var after := S.SubscribeStream(Snapshot(), name).value;
      var slot := slots[names[name]];
      token := Ok(nextToken);
      nextToken := nextToken + 1;
      slots := slots[names[name] := slot.(subscribers := slot.subscribers + {token.value})];
      assert Snapshot() == after;
    }

    method Unsubscribe(token: nat)
      requires Valid()
      modifies this
      ensures Valid() && Snapshot() == S.Unsubscribe(old(Snapshot()), token)
    {
      UnsubscribeKeepsInv(Snapshot(), token);
      slots := map id | id in slots :: slots[id].(subscribers := slots[id].subscribers - {token});
    }

    /** The first region of publishFrame; a task is returned when the caller has to post it. */
    method PublishFrame(name: string, frame: F) returns (post: Option<Task>)
      requires Valid()
      modifies this
      ensures Valid() && Snapshot() == S.PublishFrame(old(Snapshot()), name, frame)
      ensures post == if S.MustSchedule(old(Snapshot()), name) then Some(Dispatch(name, generation)) else None
    {
      PublishKeepsRegistryInv(Snapshot(), name, frame);
      post := None;
      if name !in names {
        return;
      }
      var slot := slots[names[name]];
      if slot.subscribers == {} {
        slots := slots[names[name] := S.Discard(slot)];
        return;
      }
      var schedule;
      slot, schedule := Replace(slot, frame);
      slots := slots[names[name] := slot];
      if schedule {
        post := Some(Dispatch(name, generation));
      }
    }

    /** The pending frame of a slot with subscribers is replaced; the first one since a dispatch schedules another. */
    static method Replace(before: S.Slot<F>, frame: F) returns (slot: S.Slot<F>, schedule: bool)
      requires before.subscribers != {}
      ensures slot == S.Offer(before, frame) && schedule == !before.scheduled
    {
      slot := before;
      if slot.pending.Some? {
        slot := slot.(dropped := slot.dropped + 1);
      }
      slot := slot.(pending := Some(frame), accepted := slot.accepted + [frame]);
      schedule := !slot.scheduled;
      if schedule {
        slot := slot.(scheduled := true);
      }
    }

    /** The region the dispatched task runs before it calls anybody. */
    method TakeFrame(name: string, taskGeneration: nat) returns (take: Option<S.Take<F>>)
      requires Valid()
      modifies this
      ensures Valid() && Snapshot() == S.TakeFrame(old(Snapshot()), name, taskGeneration)
      ensures take == S.Taken(old(Snapshot()), name, taskGeneration)
    {
      S.TakeKeepsInv(Snapshot(), name, taskGeneration);
      take := None;
      if taskGeneration != generation || name !in names {
        return;
      }
      assert S.SlotInv(slots[names[name]]);
      var slot;
      slot, take := TakePending(slots[names[name]], names[name]);
      slots := slots[names[name] := slot];
    }

    /** The slot is free to be scheduled again; its pending frame, if there is one, goes to its subscribers. */
    static method TakePending(before: S.Slot<F>, id: nat) returns (slot: S.Slot<F>, take: Option<S.Take<F>>)
      requires before.pending.Some? ==> before.accepted != []
      ensures slot == S.Relieve(before) && take == S.TakeOf(before, id)
    {
      slot := before.(scheduled := false, pending := None);
      take := None;
      if before.pending.Some? {
        var newest := |before.accepted| - 1;
        take := Some(S.Take(id, newest, before.pending.value, before.subscribers));
        slot := slot.(taken := slot.taken + [newest]);
      } else {
        assert before.taken + [] == before.taken;
      }
    }
  }

  class EndpointDispatcher {
    var tasks: seq<Task>
    var stopping: bool

    constructor ()
      ensures tasks == [] && !stopping
    {
      tasks, stopping := [], false;
    }

    method Post(task: Task) returns (accepted: bool)
      modifies this
      ensures stopping == old(stopping) && accepted == !stopping
      ensures tasks == if accepted then old(tasks) + [task] else old(tasks)
    {
      if stopping {
        return false;
      }
      tasks := tasks + [task];
      accepted := true;
    }

    method Shutdown()
      modifies this
      ensures stopping && tasks == old(tasks)
    {
      stopping := true;
    }

    /** One turn of the worker, which waits until there is a task or a stop: tasks go before the stop. */
    method NextTask() returns (task: Option<Task>)
      requires stopping || tasks != []
      modifies this
      ensures stopping == old(stopping)
      ensures task == if old(tasks) == [] then None else Some(old(tasks)[0])
      ensures tasks == if old(tasks) == [] then [] else old(tasks)[1..]
    {
      if |tasks| == 0 {
        return None;
      }
      task := Some(tasks[0]);
      tasks := tasks[1..];
    }
  }
}
