/**
  Publishers, the registry and the dispatcher's worker thread running together
  (endpointRegistry.cpp with endpointDispatcher.cpp). A step is one region under one of the two
  mutexes, or one callback.
 */
module StreamDispatch {
  import opened Core
  import opened StreamRegistry

  /** `Other` stands for the state deliveries, which share the queue. */
  datatype Task = Dispatch(name: string, generation: nat) | Other(number: nat)

  datatype Call<F> = Call(slot: nat, index: nat, frame: F, token: nat)

  datatype Worker<F> =
    | Waiting
    | Holding(task: Task)
    | Calling(remaining: seq<Call<F>>)
    | Exited

  /**
    `posting` are the tasks of publishers that left the registry's mutex and have not yet entered
    the dispatcher's; `posted`, `ran`, `refused`, `takes` and `calls` only record.
   */
  datatype System<F> = System(
    registry: Registry<F>,
    posting: multiset<Task>,
    tasks: seq<Task>,
    stopping: bool,
    worker: Worker<F>,
    posted: seq<Task>,
    ran: seq<Task>,
    refused: multiset<Task>,
    takes: seq<Take<F>>,
    calls: seq<Call<F>>
  )

  datatype Action<F> =
    | Register(name: string)
    | RegisterOther(name: string)
    | Remove(name: string)
    | Clear
    | Subscribe(name: string)
    | Unsubscribe(token: nat)
    | Publish(name: string, frame: F)
    | StartOther(number: nat)
    | Post(task: Task)
    | Shutdown
    | PopTask
    | RunTask(order: seq<nat>)
    | MakeCall
    | Exit

  function Init<F>(): System<F> {
    System(EmptyRegistry(), multiset{}, [], false, Waiting, [], [], multiset{}, [], [])
  }

  ghost predicate Distinct<T>(xs: seq<T>) { forall i, j :: 0 <= i < j < |xs| ==> xs[i] != xs[j] }

  /** The callbacks are copied out of an unordered map: any order, each once. */
  ghost predicate Enumerates(order: seq<nat>, tokens: set<nat>) {
    Distinct(order) && (forall token :: token in tokens <==> token in order)
  }

  function CallsOf<F>(take: Take<F>, order: seq<nat>): (calls: seq<Call<F>>)
    ensures |calls| == |order|
  {
    seq(|order|, i requires 0 <= i < |order| => Call(take.slot, take.index, take.frame, order[i]))
  }

  ghost predicate NamesKnown<F>(r: Registry<F>) { forall name :: name in r.names ==> r.names[name] in r.slots }

  ghost predicate Enabled<F>(s: System<F>, a: Action<F>) {
    NamesKnown(s.registry) &&
    match a
    case Post(task) => s.posting[task] > 0
    case PopTask => s.worker.Waiting? && s.tasks != []
    case RunTask(order) =>
      s.worker.Holding? &&
      (s.worker.task.Dispatch? ==>
         var taken := Taken(s.registry, s.worker.task.name, s.worker.task.generation);
         if taken.Some? then Enumerates(order, taken.value.subscribers) else order == [])
    case MakeCall => s.worker.Calling? && s.worker.remaining != []
    case Exit => s.worker.Waiting? && s.stopping && s.tasks == []
    case _ => true
  }

  function Keep<T>(result: Result<T>, otherwise: T): T { if result.Ok? then result.value else otherwise }

  ghost predicate ChangesRegistry<F>(a: Action<F>) {
    a.Register? || a.RegisterOther? || a.Remove? || a.Clear? || a.Subscribe? || a.Unsubscribe?
  }

  /** Registrations and subscriptions; one that fails leaves the registry as it is. */
  ghost function Changed<F>(r: Registry<F>, a: Action<F>): Registry<F>
    requires NamesKnown(r) && ChangesRegistry(a)
  {
    if a.Register? then Keep(RegisterStream(r, a.name), r)
    else if a.RegisterOther? then Keep(StreamRegistry.RegisterOther(r, a.name), r)
    else if a.Remove? then Keep(RemoveStream(r, a.name), r)
    else if a.Clear? then ClearAll(r)
    else if a.Subscribe? then Keep(SubscribeStream(r, a.name), r)
    else StreamRegistry.Unsubscribe(r, a.token)
  }

  function Idle<F>(calls: seq<Call<F>>): Worker<F> { if calls == [] then Waiting else Calling(calls) }

  ghost function Run<F>(s: System<F>, order: seq<nat>): System<F>
    requires NamesKnown(s.registry) && s.worker.Holding?
  {
    match s.worker.task
    case Other(_) => s.(worker := Waiting)
    case Dispatch(name, generation) =>
      var taken := Taken(s.registry, name, generation);
      var after := s.(registry := TakeFrame(s.registry, name, generation));
      if taken.None? then after.(worker := Waiting)
      else after.(takes := s.takes + [taken.value], worker := Idle(CallsOf(taken.value, order)))
  }

  /** A publisher that finds no dispatch scheduled leaves the mutex with one to post. */
  ghost function Published<F>(s: System<F>, name: string, frame: F): System<F>
    requires NamesKnown(s.registry)
  {
    var to := if MustSchedule(s.registry, name) then multiset{Dispatch(name, s.registry.generation)} else multiset{};
    s.(registry := PublishFrame(s.registry, name, frame), posting := s.posting + to)
  }

  /** A stopping dispatcher lets the task fall. */
  ghost function Sent<F>(s: System<F>, task: Task): System<F> {
    var sent := s.(posting := s.posting - multiset{task});
    if s.stopping then sent.(refused := s.refused + multiset{task})
    else sent.(tasks := s.tasks + [task], posted := s.posted + [task])
  }

  ghost function Popped<F>(s: System<F>): System<F>
    requires s.tasks != []
  {
    s.(tasks := s.tasks[1..], worker := Holding(s.tasks[0]), ran := s.ran + [s.tasks[0]])
  }

  ghost function Next<F>(s: System<F>, a: Action<F>): System<F>
    requires Enabled(s, a)
  {
    var r := s.registry;
    match a
    case Register(_) => s.(registry := Changed(r, a))
    case RegisterOther(_) => s.(registry := Changed(r, a))
    case Remove(_) => s.(registry := Changed(r, a))
    case Clear => s.(registry := Changed(r, a))
    case Subscribe(_) => s.(registry := Changed(r, a))
    case Unsubscribe(_) => s.(registry := Changed(r, a))
    case Publish(name, frame) => Published(s, name, frame)
    case StartOther(number) => s.(posting := s.posting + multiset{Other(number)})
    case Post(task) => Sent(s, task)
    case Shutdown => s.(stopping := true)
    case PopTask => Popped(s)
    case RunTask(order) => Run(s, order)
    case MakeCall => s.(calls := s.calls + [s.worker.remaining[0]], worker := Idle(s.worker.remaining[1..]))
    case Exit => s.(worker := Exited)
  }

  ghost predicate ValidRun<F>(s: System<F>, run: seq<Action<F>>)
    decreases |run|
  {
    run == [] || (Enabled(s, run[0]) && ValidRun(Next(s, run[0]), run[1..]))
  }

  ghost function After<F>(s: System<F>, run: seq<Action<F>>): System<F>
    requires ValidRun(s, run)
    decreases |run|
  {
    if run == [] then s else After(Next(s, run[0]), run[1..])
  }

  ghost predicate Reachable<F(!new)>(s: System<F>) {
    exists run: seq<Action<F>> :: ValidRun(Init(), run) && After(Init(), run) == s
  }

  // ---------------------------------------------------------------- invariants

  function Hand<F>(w: Worker<F>): multiset<Task> { if w.Holding? then multiset{w.task} else multiset{} }

  /** Dispatches on their way: about to be posted, queued, or popped and not yet in the registry. */
  function Outstanding<F>(s: System<F>): multiset<Task> { s.posting + multiset(s.tasks) + Hand(s.worker) }

  function Current<F>(r: Registry<F>, name: string): Task { Dispatch(name, r.generation) }

  predicate Scheduled<F>(r: Registry<F>, name: string)
    requires name in r.names ==> r.names[name] in r.slots
  {
    name in r.names && SlotOf(r, name).scheduled
  }

  /** The same, with those the stopping dispatcher refused. */
  function Known<F>(s: System<F>): multiset<Task> { Outstanding(s) + s.refused }

  ghost predicate TightAt<F>(r: Registry<F>, known: multiset<Task>, name: string)
    requires name in r.names ==> r.names[name] in r.slots
  {
    && (Scheduled(r, name) ==> known[Current(r, name)] >= 1)
    && known[Current(r, name)] <= Removals(r, name) + One(Scheduled(r, name))
  }

  /** A scheduled stream has a dispatch; a stream has at most one, and one more for every removal. */
  ghost predicate Tight<F>(r: Registry<F>, known: multiset<Task>) {
    && NamesKnown(r)
    && (forall name :: TightAt(r, known, name))
    && (forall task :: task in known && task.Dispatch? ==> task.generation <= r.generation)
  }

  function InHand<F>(w: Worker<F>): seq<Task> { if w.Holding? then [w.task] else [] }

  /** The queue is first in, first out; a worker that left has run all of it. */
  ghost predicate QueueInv<F>(s: System<F>) {
    s.ran + s.tasks == s.posted && (s.worker.Exited? ==> s.stopping && s.tasks == [])
  }

  ghost predicate Inv<F>(s: System<F>) {
    && RegistryInv(s.registry) && Tight(s.registry, Known(s)) && QueueInv(s)
    && (s.refused != multiset{} ==> s.stopping)
  }

  lemma SameScheduleStaysTight<F>(r: Registry<F>, q: Registry<F>, known: multiset<Task>)
    requires Tight(r, known) && NamesKnown(q) && q.generation == r.generation
    requires forall n :: Scheduled(q, n) == Scheduled(r, n) && Removals(q, n) == Removals(r, n)
    ensures Tight(q, known)
  {
    forall n ensures TightAt(q, known, n) {
      assert TightAt(r, known, n);
      assert Current(q, n) == Current(r, n);
    }
  }

  lemma PublishStaysTight<F>(r: Registry<F>, name: string, frame: F, known: multiset<Task>)
    requires NamesInv(r) && Tight(r, known)
    ensures Tight(PublishFrame(r, name, frame),
                  if MustSchedule(r, name) then known + multiset{Current(r, name)} else known)
  {
    var q := PublishFrame(r, name, frame);
    var after := if MustSchedule(r, name) then known + multiset{Current(r, name)} else known;
    forall n ensures TightAt(q, after, n) {
      assert TightAt(r, known, n);
      assert Current(q, n) == Current(r, n) && Removals(q, n) == Removals(r, n);
    }
  }

  lemma RemoveStaysTight<F>(r: Registry<F>, name: string, known: multiset<Task>)
    requires NamesInv(r) && Tight(r, known) && RemoveStream(r, name).Ok?
    ensures Tight(RemoveStream(r, name).value, known)
  {
    var q := RemoveStream(r, name).value;
    forall n ensures TightAt(q, known, n) {
      assert TightAt(r, known, n);
      assert Current(q, n) == Current(r, n);
    }
  }

  lemma ClearStaysTight<F>(r: Registry<F>, known: multiset<Task>)
    requires Tight(r, known)
    ensures Tight(ClearAll(r), known)
  {
    var q := ClearAll(r);
    forall n ensures TightAt(q, known, n) {
      assert Current(q, n) !in known;
    }
  }

  lemma TakeStaysTight<F>(r: Registry<F>, task: Task, known: multiset<Task>)
    requires NamesInv(r) && Tight(r, known + multiset{task}) && task.Dispatch?
    ensures Tight(TakeFrame(r, task.name, task.generation), known)
  {
    var q := TakeFrame(r, task.name, task.generation);
    forall n ensures TightAt(q, known, n) {
      assert TightAt(r, known + multiset{task}, n);
      assert Current(q, n) == Current(r, n) && Removals(q, n) == Removals(r, n);
    }
    forall other | other in known && other.Dispatch? ensures other.generation <= q.generation {
      assert other in known + multiset{task};
    }
  }

  lemma RegistryStepKeepsInv<F>(s: System<F>, a: Action<F>)
    requires Inv(s) && ChangesRegistry(a)
    ensures RegistryInv(Changed(s.registry, a)) && Tight(Changed(s.registry, a), Known(s))
  {
    var r, q := s.registry, Changed(s.registry, a);
    if a.Register? || a.RegisterOther? {
      RegistrationKeepsInv(s, a);
    } else if a.Remove? && RemoveStream(r, a.name).Ok? {
      RemoveKeepsInv(r, a.name);
      RemoveStaysTight(r, a.name, Known(s));
    } else if a.Subscribe? && SubscribeStream(r, a.name).Ok? {
      SubscribeKeepsInv(r, a.name);
      SameScheduleStaysTight(r, q, Known(s));
    } else if a.Unsubscribe? {
      UnsubscribeKeepsInv(r, a.token);
      SameScheduleStaysTight(r, q, Known(s));
    } else if a.Clear? {
      ClearStaysTight(r, Known(s));
    }
  }

  lemma RegistrationKeepsInv<F>(s: System<F>, a: Action<F>)
    requires Inv(s) && (a.Register? || a.RegisterOther?)
    ensures RegistryInv(Changed(s.registry, a)) && Tight(Changed(s.registry, a), Known(s))
  {
    var r, q := s.registry, Changed(s.registry, a);
    if a.Register? && RegisterStream(r, a.name).Ok? {
      RegisterKeepsInv(r, a.name);
      SameScheduleStaysTight(r, q, Known(s));
    } else if a.RegisterOther? && StreamRegistry.RegisterOther(r, a.name).Ok? {
      RegisterOtherKeepsInv(r, a.name);
      SameScheduleStaysTight(r, q, Known(s));
    }
  }

  lemma SubscribeKeepsInv<F>(r: Registry<F>, name: string)
    requires RegistryInv(r) && SubscribeStream(r, name).Ok?
    ensures RegistryInv(SubscribeStream(r, name).value)
  {
    var slot := SlotOf(r, name).(subscribers := SlotOf(r, name).subscribers + {r.nextToken});
    WithSlotKeepsInv(r, name, slot);
  }

  lemma UnsubscribeKeepsInv<F>(r: Registry<F>, token: nat)
    requires RegistryInv(r)
    ensures RegistryInv(StreamRegistry.Unsubscribe(r, token))
  {
    var q := StreamRegistry.Unsubscribe(r, token);
    forall id | id in q.slots && q.slots[id].pending.Some? ensures exists n :: n in q.names && q.names[n] == id {
      var n :| n in r.names && r.names[n] == id;
      assert q.names[n] == id;
    }
  }

  lemma PublishKeepsRegistryInv<F>(r: Registry<F>, name: string, frame: F)
    requires RegistryInv(r)
    ensures RegistryInv(PublishFrame(r, name, frame))
  {
    if name in r.names {
      OfferKeepsInv(SlotOf(r, name), frame);
      WithSlotKeepsInv(r, name, Offer(SlotOf(r, name), frame));
    }
  }

  lemma PublishKeepsInv<F>(s: System<F>, name: string, frame: F)
    requires Inv(s)
    ensures Inv(Published(s, name, frame))
  {
    var t := Published(s, name, frame);
    PublishKeepsRegistryInv(s.registry, name, frame);
    PublishStaysTight(s.registry, name, frame, Known(s));
    if MustSchedule(s.registry, name) {
      assert Known(t) == Known(s) + multiset{Current(s.registry, name)};
    } else {
      assert Known(t) == Known(s);
    }
  }

  /** What running a task changes, apart from the takes and calls it records. */
  lemma RunEffect<F>(s: System<F>, order: seq<nat>)
    requires Enabled(s, RunTask(order))
    ensures var t := Run(s, order);
      && Known(s) == Known(t) + multiset{s.worker.task}
      && t.refused == s.refused && t.stopping == s.stopping && t.ran == s.ran && t.tasks == s.tasks &&
           t.posted == s.posted
      && !t.worker.Exited?
      && t.registry ==
         (if s.worker.task.Dispatch? then TakeFrame(s.registry, s.worker.task.name, s.worker.task.generation)
          else s.registry)
  {
  }

  lemma RunTaskKeepsInv<F>(s: System<F>, order: seq<nat>)
    requires Inv(s) && Enabled(s, RunTask(order))
    ensures Inv(Run(s, order))
  {
    var t, task := Run(s, order), s.worker.task;
    RunEffect(s, order);
    if task.Dispatch? {
      TakeKeepsInv(s.registry, task.name, task.generation);
      TakeStaysTight(s.registry, task, Known(t));
    } else {
      OtherIsIrrelevant(s.registry, task, Known(t));
    }
  }

  lemma OtherIsIrrelevant<F>(r: Registry<F>, task: Task, known: multiset<Task>)
    requires task.Other?
    ensures Tight(r, known + multiset{task}) <==> Tight(r, known)
  {
    if NamesKnown(r) {
      assert forall n :: TightAt(r, known + multiset{task}, n) <==> TightAt(r, known, n);
    }
  }

  lemma PostKeepsTheTask<F>(s: System<F>, task: Task)
    requires s.posting[task] > 0
    ensures Known(Sent(s, task)) == Known(s)
  {
    assert multiset(s.tasks + [task]) == multiset(s.tasks) + multiset{task};
    assert s.posting == (s.posting - multiset{task}) + multiset{task};
  }

  lemma PostKeepsInv<F>(s: System<F>, task: Task)
    requires Inv(s) && s.posting[task] > 0
    ensures Inv(Sent(s, task))
  {
    var t := Sent(s, task);
    PostKeepsTheTask(s, task);
    if !s.stopping {
      assert t.ran + t.tasks == (s.ran + s.tasks) + [task];
    }
  }

  lemma PopKeepsInv<F>(s: System<F>)
    requires Inv(s) && s.worker.Waiting? && s.tasks != []
    ensures Inv(Popped(s))
  {
    var t := Popped(s);
    assert s.tasks == [s.tasks[0]] + s.tasks[1..];
    assert Known(t) == Known(s);
    assert t.ran + t.tasks == s.ran + ([s.tasks[0]] + s.tasks[1..]);
  }

  lemma StartOtherKeepsInv<F>(s: System<F>, number: nat)
    requires Inv(s)
    ensures Inv(Next(s, StartOther(number)))
  {
    MorePosting(s, Other(number));
    OtherIsIrrelevant(s.registry, Other(number), Known(s));
  }

  lemma MorePosting<F>(s: System<F>, task: Task)
    ensures Known(s.(posting := s.posting + multiset{task})) == Known(s) + multiset{task}
  {
    var rest := multiset(s.tasks) + Hand(s.worker) + s.refused;
    assert Known(s) == s.posting + rest;
    assert Known(s.(posting := s.posting + multiset{task})) == (s.posting + multiset{task}) + rest;
  }

  lemma OtherStepKeepsInv<F>(s: System<F>, a: Action<F>)
    requires Inv(s) && Enabled(s, a) && (a.Shutdown? || a.MakeCall? || a.Exit?)
    ensures Inv(Next(s, a))
  {
    if !a.Shutdown? { OtherStepKeepsQueue(s, a); }
    SameKnown(s, Next(s, a));
  }

  lemma SameKnown<F>(s: System<F>, t: System<F>)
    requires t.posting == s.posting && t.tasks == s.tasks && Hand(t.worker) == Hand(s.worker) && t.refused == s.refused
    ensures Known(t) == Known(s)
  {
  }

  lemma OtherStepKeepsQueue<F>(s: System<F>, a: Action<F>)
    requires QueueInv(s) && Enabled(s, a) && (a.MakeCall? || a.Exit?)
    ensures
      var t := Next(s, a);
      && QueueInv(t) && t.registry == s.registry && (s.stopping ==> t.stopping)
      && t.posting == s.posting && t.tasks == s.tasks && t.refused == s.refused
      && !s.worker.Holding? && !t.worker.Holding?
  {
    match a
    case MakeCall =>
    case Exit =>
    case _ =>
  }

  lemma StepKeepsInv<F>(s: System<F>, a: Action<F>)
    requires Inv(s) && Enabled(s, a)
    ensures Inv(Next(s, a))
  {
    if ChangesRegistry(a) {
      RegistryStepKeepsInv(s, a);
      assert Known(Next(s, a)) == Known(s);
    } else if a.Publish? {
      PublishKeepsInv(s, a.name, a.frame);
    } else if a.RunTask? {
      RunTaskKeepsInv(s, a.order);
    } else if a.Post? {
      PostKeepsInv(s, a.task);
    } else if a.PopTask? {
      PopKeepsInv(s);
    } else if a.StartOther? {
      StartOtherKeepsInv(s, a.number);
    } else {
      OtherStepKeepsInv(s, a);
    }
  }

  // ---------------------------------------------------------------- deliveries

  function Remaining<F>(w: Worker<F>): seq<Call<F>> { if w.Calling? then w.remaining else [] }

  /** The calls made and those the worker is about to make. */
  function Script<F>(s: System<F>): seq<Call<F>> { s.calls + Remaining(s.worker) }

  /** Frames only go forward: what was accepted stays, and what was passed over never comes back. */
  ghost predicate SlotGrows<F>(before: Slot<F>, after: Slot<F>) {
    && before.accepted <= after.accepted
    && |before.accepted| - One(before.pending.Some?) <= |after.accepted| - One(after.pending.Some?)
  }

  ghost predicate Grows<F>(r: Registry<F>, q: Registry<F>) {
    forall id :: id in r.slots ==> id in q.slots && SlotGrows(r.slots[id], q.slots[id])
  }

  /** A recorded frame is the accepted one, and no longer pending. */
  ghost predicate IsPast<F>(r: Registry<F>, slot: nat, index: nat, frame: F) {
    && slot in r.slots && index < |r.slots[slot].accepted| - One(r.slots[slot].pending.Some?)
    && r.slots[slot].accepted[index] == frame
  }

  ghost predicate CallsPast<F>(r: Registry<F>, script: seq<Call<F>>) {
    forall i :: 0 <= i < |script| ==> IsPast(r, script[i].slot, script[i].index, script[i].frame)
  }

  ghost predicate InOrder<F>(script: seq<Call<F>>) {
    forall i, j :: 0 <= i < j < |script| && script[i].slot == script[j].slot ==>
      script[i].index < script[j].index || (script[i].index == script[j].index && script[i].token != script[j].token)
  }

  /** Everybody who was subscribed when a frame was taken is called with it. */
  ghost predicate TakesServed<F>(r: Registry<F>, takes: seq<Take<F>>, script: seq<Call<F>>) {
    forall k :: 0 <= k < |takes| ==>
      && IsPast(r, takes[k].slot, takes[k].index, takes[k].frame)
      && forall token :: token in takes[k].subscribers ==>
           Call(takes[k].slot, takes[k].index, takes[k].frame, token) in script
  }

  ghost predicate DeliveryInv<F>(s: System<F>) {
    CallsPast(s.registry, Script(s)) && InOrder(Script(s)) && TakesServed(s.registry, s.takes, Script(s))
  }

  lemma GrowthKeepsDelivery<F>(s: System<F>, t: System<F>)
    requires DeliveryInv(s) && Grows(s.registry, t.registry) && Script(t) == Script(s) && t.takes == s.takes
    ensures DeliveryInv(t)
  {
    forall slot, index, frame | IsPast(s.registry, slot, index, frame) ensures IsPast(t.registry, slot, index, frame) {
    }
  }

  lemma ChangeGrows<F>(r: Registry<F>, a: Action<F>)
    requires RegistryInv(r) && ChangesRegistry(a)
    ensures Grows(r, Changed(r, a))
  {
    if a.Remove? || a.Clear? {
      EraseGrows(r, a);
    } else {
      match a
      case Register(_) =>
      case RegisterOther(_) =>
      case Subscribe(_) =>
      case Unsubscribe(_) =>
      case _ =>
    }
  }

  lemma EraseGrows<F>(r: Registry<F>, a: Action<F>)
    requires RegistryInv(r) && (a.Remove? || a.Clear?)
    ensures Grows(r, Changed(r, a))
  {
    match a
    case Remove(_) =>
    case Clear =>
    case _ =>
  }

  lemma PublishGrows<F>(r: Registry<F>, name: string, frame: F)
    requires RegistryInv(r)
    ensures Grows(r, PublishFrame(r, name, frame))
  {
  }

  lemma TakeGrows<F>(r: Registry<F>, name: string, generation: nat)
    requires RegistryInv(r)
    ensures Grows(r, TakeFrame(r, name, generation))
    ensures Taken(r, name, generation).Some? ==>
      var take := Taken(r, name, generation).value;
      && IsPast(TakeFrame(r, name, generation), take.slot, take.index, take.frame)
      && take.slot in r.slots && take.index == |r.slots[take.slot].accepted| - 1 && r.slots[take.slot].pending.Some?
  {
  }

  /** The calls of a new take come after all earlier calls of its stream. */
  lemma NewCallsAreInOrder<F>(r: Registry<F>, script: seq<Call<F>>, take: Take<F>, order: seq<nat>)
    requires CallsPast(r, script) && InOrder(script) && Enumerates(order, take.subscribers)
    requires take.slot in r.slots && take.index == |r.slots[take.slot].accepted| - 1 && r.slots[take.slot].pending.Some?
    ensures InOrder(script + CallsOf(take, order))
    ensures forall token :: token in take.subscribers ==>
      Call(take.slot, take.index, take.frame, token) in script + CallsOf(take, order)
  {
    var more := CallsOf(take, order);
    forall token | token in take.subscribers ensures Call(take.slot, take.index, take.frame, token) in script + more {
      var i :| 0 <= i < |order| && order[i] == token;
      assert (script + more)[|script| + i] == more[i];
    }
  }

  lemma TakingEffect<F>(s: System<F>, order: seq<nat>)
    requires Enabled(s, RunTask(order)) && s.worker.task.Dispatch?
    requires Taken(s.registry, s.worker.task.name, s.worker.task.generation).Some?
    ensures var t := Run(s, order); var take := Taken(s.registry, s.worker.task.name, s.worker.task.generation).value;
      && t.registry == TakeFrame(s.registry, s.worker.task.name, s.worker.task.generation)
      && t.takes == s.takes + [take] && Script(t) == Script(s) + CallsOf(take, order) &&
           Enumerates(order, take.subscribers)
  {
  }

  lemma TakingKeepsDelivery<F>(s: System<F>, order: seq<nat>)
    requires Inv(s) && DeliveryInv(s) && Enabled(s, RunTask(order)) && s.worker.task.Dispatch?
    requires Taken(s.registry, s.worker.task.name, s.worker.task.generation).Some?
    ensures DeliveryInv(Run(s, order))
  {
    var t, task := Run(s, order), s.worker.task;
    var take := Taken(s.registry, task.name, task.generation).value;
    TakingEffect(s, order);
    TakeGrows(s.registry, task.name, task.generation);
    GrowthKeepsDelivery(s, s.(registry := t.registry));
    NewCallsAreInOrder(s.registry, Script(s), take, order);
    MoreIsServed(t.registry, s.takes, Script(s), take, CallsOf(take, order));
    CallsAreFromTheTake(t.registry, take, order);
  }

  lemma CallsAreFromTheTake<F>(r: Registry<F>, take: Take<F>, order: seq<nat>)
    requires IsPast(r, take.slot, take.index, take.frame)
    ensures CallsPast(r, CallsOf(take, order))
  {
  }

  lemma RunKeepsDelivery<F>(s: System<F>, order: seq<nat>)
    requires Inv(s) && DeliveryInv(s) && Enabled(s, RunTask(order))
    ensures DeliveryInv(Run(s, order))
  {
    var task := s.worker.task;
    if task.Dispatch? && Taken(s.registry, task.name, task.generation).Some? {
      TakingKeepsDelivery(s, order);
    } else {
      if task.Dispatch? {
        TakeGrows(s.registry, task.name, task.generation);
      }
      GrowthKeepsDelivery(s, Run(s, order));
    }
  }

  lemma MoreIsServed<F>(r: Registry<F>, takes: seq<Take<F>>, script: seq<Call<F>>, take: Take<F>, more: seq<Call<F>>)
    requires TakesServed(r, takes, script) && IsPast(r, take.slot, take.index, take.frame)
    requires forall token :: token in take.subscribers ==>
        Call(take.slot, take.index, take.frame, token) in script + more
    ensures TakesServed(r, takes + [take], script + more)
  {
    assert forall k :: 0 <= k < |takes| ==> (takes + [take])[k] == takes[k];
  }

  lemma StepKeepsDelivery<F>(s: System<F>, a: Action<F>)
    requires Inv(s) && DeliveryInv(s) && Enabled(s, a)
    ensures DeliveryInv(Next(s, a))
  {
    var t := Next(s, a);
    if a.RunTask? {
      RunKeepsDelivery(s, a.order);
    } else {
      if ChangesRegistry(a) {
        ChangeGrows(s.registry, a);
      } else if a.Publish? {
        PublishGrows(s.registry, a.name, a.frame);
      }
      OtherStepsKeepTheScript(s, a);
      GrowthKeepsDelivery(s, t);
    }
  }

  lemma OtherStepsKeepTheScript<F>(s: System<F>, a: Action<F>)
    requires Enabled(s, a) && !a.RunTask?
    ensures Script(Next(s, a)) == Script(s) && Next(s, a).takes == s.takes
    ensures Next(s, a).registry == (if ChangesRegistry(a) then Changed(s.registry, a)
                                    else if a.Publish? then PublishFrame(s.registry, a.name, a.frame) else s.registry)
  {
  }

  // ---------------------------------------------------------------- taken frames were delivered

  ghost predicate InTakes<F>(takes: seq<Take<F>>, slot: nat, index: nat) {
    exists k :: 0 <= k < |takes| && takes[k].slot == slot && takes[k].index == index
  }

  /** Every frame a slot counts as taken was handed to the worker. */
  ghost predicate TakenInv<F>(r: Registry<F>, takes: seq<Take<F>>) {
    forall id, i :: id in r.slots && 0 <= i < |r.slots[id].taken| ==> InTakes(takes, id, r.slots[id].taken[i])
  }

  ghost predicate SameTaken<F>(r: Registry<F>, q: Registry<F>) {
    forall id :: id in q.slots ==> q.slots[id].taken == if id in r.slots then r.slots[id].taken else []
  }

  lemma OthersTakeNothing<F>(s: System<F>, a: Action<F>)
    requires RegistryInv(s.registry) && Enabled(s, a) && !a.RunTask?
    ensures SameTaken(s.registry, Next(s, a).registry)
  {
    OtherStepsKeepTheScript(s, a);
    if ChangesRegistry(a) {
      ChangeTakesNothing(s.registry, a);
    } else if a.Publish? {
      PublishTakesNothing(s.registry, a.name, a.frame);
    }
  }

  lemma ChangeTakesNothing<F>(r: Registry<F>, a: Action<F>)
    requires RegistryInv(r) && ChangesRegistry(a)
    ensures SameTaken(r, Changed(r, a))
  {
    match a
    case Register(_) =>
    case RegisterOther(_) =>
    case Remove(_) =>
    case Clear =>
    case Subscribe(_) =>
    case Unsubscribe(_) =>
    case _ =>
  }

  lemma PublishTakesNothing<F>(r: Registry<F>, name: string, frame: F)
    requires RegistryInv(r)
    ensures SameTaken(r, PublishFrame(r, name, frame))
  {
  }

  lemma StepKeepsTaken<F>(s: System<F>, a: Action<F>)
    requires Inv(s) && TakenInv(s.registry, s.takes) && Enabled(s, a)
    ensures TakenInv(Next(s, a).registry, Next(s, a).takes)
  {
    if a.RunTask? {
      RunKeepsTaken(s, a.order);
    } else {
      OthersTakeNothing(s, a);
      OtherStepsKeepTheScript(s, a);
    }
  }

  lemma RunKeepsTaken<F>(s: System<F>, order: seq<nat>)
    requires Inv(s) && TakenInv(s.registry, s.takes) && Enabled(s, RunTask(order))
    ensures TakenInv(Run(s, order).registry, Run(s, order).takes)
  {
    var t := Run(s, order);
    RunTakes(s, order);
    if |t.takes| > |s.takes| {
      OneMoreTaken(s.registry, t.registry, s.takes, t.takes);
    }
  }

  lemma OneMoreTaken<F>(r: Registry<F>, q: Registry<F>, takes: seq<Take<F>>, more: seq<Take<F>>)
    requires TakenInv(r, takes) && takes <= more && |more| == |takes| + 1
    requires forall id :: id in q.slots ==>
               id in r.slots
               && (q.slots[id].taken == r.slots[id].taken
                   || (id == more[|takes|].slot && q.slots[id].taken == r.slots[id].taken + [more[|takes|].index]))
    ensures TakenInv(q, more)
  {
    MoreTakes(takes, more);
    forall id, i | id in q.slots && 0 <= i < |q.slots[id].taken|
      ensures InTakes(more, id, q.slots[id].taken[i])
    {
      if i < |r.slots[id].taken| {
        assert InTakes(takes, id, r.slots[id].taken[i]);
      }
    }
  }

  /** Running a task takes nothing, or one frame, which the slot and the record both get. */
  lemma RunTakes<F>(s: System<F>, order: seq<nat>)
    requires RegistryInv(s.registry) && Enabled(s, RunTask(order))
    ensures
      var t := Run(s, order);
      if |t.takes| == |s.takes| then t.takes == s.takes && SameTaken(s.registry, t.registry)
      else
        && |t.takes| == |s.takes| + 1 && t.takes[..|s.takes|] == s.takes
        && forall id :: id in t.registry.slots ==>
             id in s.registry.slots
             && (t.registry.slots[id].taken == s.registry.slots[id].taken
                 || (id == t.takes[|s.takes|].slot
                     && t.registry.slots[id].taken == s.registry.slots[id].taken + [t.takes[|s.takes|].index]))
  {
  }

  lemma MoreTakes<F>(takes: seq<Take<F>>, more: seq<Take<F>>)
    requires takes <= more
    ensures forall slot, index :: InTakes(takes, slot, index) ==> InTakes(more, slot, index)
    ensures |more| > |takes| ==> InTakes(more, more[|takes|].slot, more[|takes|].index)
  {
    forall slot, index | InTakes(takes, slot, index)
      ensures InTakes(more, slot, index)
    {
      var k :| 0 <= k < |takes| && takes[k].slot == slot && takes[k].index == index;
      assert more[k] == takes[k];
    }
  }

  lemma {:induction false} RunKeepsInv<F>(s: System<F>, run: seq<Action<F>>)
    requires Inv(s) && DeliveryInv(s) && TakenInv(s.registry, s.takes) && ValidRun(s, run)
    ensures Inv(After(s, run)) && DeliveryInv(After(s, run))
    ensures TakenInv(After(s, run).registry, After(s, run).takes)
    decreases |run|
  {
    if run != [] {
      StepKeepsInv(s, run[0]);
      StepKeepsDelivery(s, run[0]);
      StepKeepsTaken(s, run[0]);
      RunKeepsInv(Next(s, run[0]), run[1..]);
    }
  }

  lemma ReachableInv<F(!new)>(s: System<F>)
    requires Reachable(s)
    ensures Inv(s) && DeliveryInv(s) && TakenInv(s.registry, s.takes)
  {
    var run :| ValidRun(Init<F>(), run) && After(Init(), run) == s;
    assert Inv(Init<F>()) by {
      assert Known(Init<F>()) == multiset{};
    }
    RunKeepsInv(Init(), run);
  }
}
