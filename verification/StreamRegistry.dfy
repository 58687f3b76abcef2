/**
  The stream endpoints of endpointRegistry.cpp: every function here is one region under the
  registry's mutex. Slots are numbered so that their history outlives their name.
 */
module StreamRegistry {
  import opened Core

  /**
    `accepted`, `taken` (positions in `accepted`) and `discarded` only record what happened to the
    frames that were published while somebody was subscribed.
   */
  datatype Slot<F> = Slot(
    subscribers: set<nat>,
    pending: Option<F>,
    scheduled: bool,
    dropped: nat,
    accepted: seq<F>,
    taken: seq<nat>,
    discarded: nat
  )

  /**
    `names` maps the registered streams to their slots, `others` are the names of parameters, commands
    and states; `removals` counts removals of streams since the last clear.
   */
  datatype Registry<F> = Registry(
    slots: map<nat, Slot<F>>,
    names: map<string, nat>,
    others: set<string>,
    generation: nat,
    nextSlot: nat,
    nextToken: nat,
    removals: map<string, nat>
  )

  /** What a dispatch takes out of a slot, and whom it is going to call. */
  datatype Take<F> = Take(slot: nat, index: nat, frame: F, subscribers: set<nat>)

  function EmptySlot<F>(): Slot<F> { Slot({}, None, false, 0, [], [], 0) }

  function EmptyRegistry<F>(): Registry<F> { Registry(map[], map[], {}, 0, 0, 1, map[]) }

  function One(b: bool): nat { if b then 1 else 0 }

  function SlotOf<F>(r: Registry<F>, name: string): Slot<F>
    requires name in r.names && r.names[name] in r.slots
  {
    r.slots[r.names[name]]
  }

  function WithSlot<F>(r: Registry<F>, name: string, slot: Slot<F>): Registry<F>
    requires name in r.names
  {
    r.(slots := r.slots[r.names[name] := slot])
  }

  /** A pending frame that nobody is going to take. */
  function Discard<F>(slot: Slot<F>): Slot<F> {
    slot.(pending := None, discarded := slot.discarded + One(slot.pending.Some?))
  }

  /** The four kinds of endpoints share one name space. */
  predicate NameTaken<F>(r: Registry<F>, name: string) { name in r.names || name in r.others }

  function CheckNameAvailable<F>(r: Registry<F>, name: string): Option<Status> {
    if name == "" then Some(Status(InvalidArgument, "endpoint name must not be empty"))
    else if NameTaken(r, name) then Some(Status(AlreadyExists, "endpoint already registered"))
    else None
  }

  function RegisterOther<F>(r: Registry<F>, name: string): Result<Registry<F>> {
    var failure := CheckNameAvailable(r, name);
    if failure.Some? then Err(failure.value) else Ok(r.(others := r.others + {name}))
  }

  function RegisterStream<F>(r: Registry<F>, name: string): Result<Registry<F>> {
    var failure := CheckNameAvailable(r, name);
    if failure.Some? then Err(failure.value)
    else Ok(r.(slots := r.slots[r.nextSlot := EmptySlot()], names := r.names[name := r.nextSlot],
        nextSlot := r.nextSlot + 1))
  }

  function Removals<F>(r: Registry<F>, name: string): nat { if name in r.removals then r.removals[name] else 0 }

  /** The stream goes with its pending frame. */
  function EraseStream<F>(r: Registry<F>, name: string): Registry<F>
    requires name in r.names && r.names[name] in r.slots
  {
    WithSlot(r, name, Discard(SlotOf(r, name)))
    .(names := r.names - {name}, removals := r.removals[name := Removals(r, name) + 1])
  }

  function RemoveStream<F>(r: Registry<F>, name: string): Result<Registry<F>>
    requires name in r.names ==> r.names[name] in r.slots
  {
    if !NameTaken(r, name) then Err(Status(NotFound, "endpoint not registered"))
    else
      var rest := r.(others := r.others - {name});
      Ok(if name in r.names then EraseStream(rest, name) else rest)
  }

  function ClearAll<F>(r: Registry<F>): Registry<F> {
    r.(generation := r.generation + 1, names := map[], others := {}, removals := map[],
       slots := map id | id in r.slots :: Discard(r.slots[id]))
  }

  function SubscribeStream<F>(r: Registry<F>, name: string): Result<Registry<F>>
    requires name in r.names ==> r.names[name] in r.slots
  {
    if name !in r.names then Err(Status(NotFound, "stream endpoint not registered"))
    else
      var slot := SlotOf(r, name);
      Ok(WithSlot(r, name, slot.(subscribers := slot.subscribers + {r.nextToken})).(nextToken := r.nextToken + 1))
  }

  function Unsubscribe<F>(r: Registry<F>, token: nat): Registry<F> {
    r.(slots := map id | id in r.slots :: r.slots[id].(subscribers := r.slots[id].subscribers - {token}))
  }

  /** A published frame replaces the pending one, which counts as dropped; without subscribers both are let go. */
  function Offer<F>(slot: Slot<F>, frame: F): Slot<F> {
    if slot.subscribers == {} then Discard(slot)
    else slot.(pending := Some(frame), dropped := slot.dropped + One(slot.pending.Some?), scheduled := true,
               accepted := slot.accepted + [frame])
  }

  function PublishFrame<F>(r: Registry<F>, name: string, frame: F): Registry<F>
    requires name in r.names ==> r.names[name] in r.slots
  {
    if name in r.names then WithSlot(r, name, Offer(SlotOf(r, name), frame)) else r
  }

  /** Whether a publication has to post a dispatch: only when none is scheduled yet. */
  predicate MustSchedule<F>(r: Registry<F>, name: string)
    requires name in r.names ==> r.names[name] in r.slots
  {
    name in r.names && SlotOf(r, name).subscribers != {} && !SlotOf(r, name).scheduled
  }

  /** What the dispatched task finds: a stale generation or a removed stream leaves nothing to do. */
  predicate Finds<F>(r: Registry<F>, name: string, generation: nat) { generation == r.generation && name in r.names }

  function TakeFrame<F>(r: Registry<F>, name: string, generation: nat): Registry<F>
    requires name in r.names ==> r.names[name] in r.slots
  {
    if Finds(r, name, generation) then WithSlot(r, name, Relieve(SlotOf(r, name))) else r
  }

  /** The slot is free to be scheduled again; its pending frame counts as taken. */
  function Relieve<F>(slot: Slot<F>): Slot<F> {
    var newest := if slot.pending.Some? && slot.accepted != [] then [|slot.accepted| - 1] else [];
    slot.(scheduled := false, pending := None, taken := slot.taken + newest)
  }

  /** What there is to take in a slot. */
  function TakeOf<F>(slot: Slot<F>, id: nat): Option<Take<F>> {
    if slot.pending.Some? && slot.accepted != [] then
      Some(Take(id, |slot.accepted| - 1, slot.pending.value, slot.subscribers))
    else None
  }

  function Taken<F>(r: Registry<F>, name: string, generation: nat): Option<Take<F>>
    requires name in r.names ==> r.names[name] in r.slots
  {
    if Finds(r, name, generation) then TakeOf(SlotOf(r, name), r.names[name]) else None
  }

  // ---------------------------------------------------------------- what every region keeps

  ghost predicate Increasing(xs: seq<nat>) { forall i, j :: 0 <= i < j < |xs| ==> xs[i] < xs[j] }

  /** Every accepted frame is accounted for, the pending one is the newest, and taken ones are in order. */
  ghost predicate SlotInv<F>(slot: Slot<F>) {
    && |slot.accepted| == |slot.taken| + slot.dropped + slot.discarded + One(slot.pending.Some?)
    && (slot.pending.Some? ==>
         slot.scheduled && slot.accepted != [] && slot.pending.value == slot.accepted[|slot.accepted| - 1])
    && Increasing(slot.taken)
    && (forall i :: 0 <= i < |slot.taken| ==> slot.taken[i] < |slot.accepted| - One(slot.pending.Some?))
  }

  ghost predicate NamesInv<F>(r: Registry<F>) {
    && (forall id :: id in r.slots ==> id < r.nextSlot)
    && (forall name :: name in r.names ==> r.names[name] in r.slots && name !in r.others)
    && (forall one, other :: one in r.names && other in r.names && r.names[one] == r.names[other] ==> one == other)
    && (forall id :: id in r.slots && r.slots[id].pending.Some? ==>
         exists name :: name in r.names && r.names[name] == id)
  }

  ghost predicate RegistryInv<F>(r: Registry<F>) { NamesInv(r) && forall id :: id in r.slots ==> SlotInv(r.slots[id]) }

  lemma DiscardKeepsInv<F>(slot: Slot<F>)
    requires SlotInv(slot)
    ensures SlotInv(Discard(slot))
  {
  }

  lemma OfferKeepsInv<F>(slot: Slot<F>, frame: F)
    requires SlotInv(slot)
    ensures SlotInv(Offer(slot, frame))
  {
  }

  lemma WithSlotKeepsInv<F>(r: Registry<F>, name: string, slot: Slot<F>)
    requires RegistryInv(r) && name in r.names && SlotInv(slot)
    ensures RegistryInv(WithSlot(r, name, slot))
  {
    var q := WithSlot(r, name, slot);
    forall id | id in q.slots && q.slots[id].pending.Some? ensures exists n :: n in q.names && q.names[n] == id {
      if id == r.names[name] {
        assert name in q.names && q.names[name] == id;
      }
    }
  }

  lemma RegisterKeepsInv<F>(r: Registry<F>, name: string)
    requires RegistryInv(r) && RegisterStream(r, name).Ok?
    ensures RegistryInv(RegisterStream(r, name).value)
  {
    var q := RegisterStream(r, name).value;
    forall id | id in q.slots && q.slots[id].pending.Some? ensures exists n :: n in q.names && q.names[n] == id {
      var n :| n in r.names && r.names[n] == id;
      assert q.names[n] == id;
    }
  }

  lemma RemoveKeepsInv<F>(r: Registry<F>, name: string)
    requires RegistryInv(r) && RemoveStream(r, name).Ok?
    ensures RegistryInv(RemoveStream(r, name).value)
  {
    var q := RemoveStream(r, name).value;
    if name in r.names { DiscardKeepsInv(SlotOf(r, name)); }
    forall id | id in q.slots && q.slots[id].pending.Some? ensures exists n :: n in q.names && q.names[n] == id {
      var n :| n in r.names && r.names[n] == id;
      assert n != name && q.names[n] == id;
    }
  }

  lemma RegisterOtherKeepsInv<F>(r: Registry<F>, name: string)
    requires RegistryInv(r) && RegisterOther(r, name).Ok?
    ensures RegistryInv(RegisterOther(r, name).value)
  {
    var q := RegisterOther(r, name).value;
    forall id | id in q.slots && q.slots[id].pending.Some? ensures exists n :: n in q.names && q.names[n] == id {
      var n :| n in r.names && r.names[n] == id;
      assert q.names[n] == id;
    }
  }

  /** No two endpoints of any kind ever share a name, and a name is free again after its removal. */
  lemma NamesAreUnique<F>(r: Registry<F>, name: string)
    requires RegistryInv(r)
    ensures !(name in r.names && name in r.others)
    ensures NameTaken(r, name) ==> RegisterStream(r, name).Err? && RegisterOther(r, name).Err?
    ensures RemoveStream(r, name).Ok? <==> NameTaken(r, name)
    ensures NameTaken(r, name) ==>
              !NameTaken(RemoveStream(r, name).value, name)
              && forall other :: other != name ==>
                   (NameTaken(RemoveStream(r, name).value, other) <==> NameTaken(r, other))
  {
  }

  lemma TakeKeepsInv<F>(r: Registry<F>, name: string, generation: nat)
    requires RegistryInv(r)
    ensures RegistryInv(TakeFrame(r, name, generation))
  {
    if Finds(r, name, generation) {
      WithSlotKeepsInv(r, name, SlotOf(TakeFrame(r, name, generation), name));
    }
  }
}
