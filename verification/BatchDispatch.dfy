/**
  The batch executor with the ring its two threads really hand completions to. `inner` is the executor
  of BatchExecutor, with a dispatcher that takes every completion the moment the ring accepts it; the
  tasks that are completed in fact are those whose completion the ring's consumer has popped.
 */
module BatchDispatch {
  import opened Core
  import opened Stages
  import opened Tasks
  import opened BoundedFifo
  import opened ExecutorParts
  import opened BatchExecutor
  import opened BatchInvariant
  import opened BatchTheorems
  import opened BatchPool
  import R = DispatcherRing

  /** Producer 0 is the batching thread, producer 1 the postprocess thread. */
  datatype Whole = Whole(inner: State, ring: R.Ring<Completion>)

  datatype Move =
    | Inner(action: Action)
    | Offer(who: nat)
    | Push(who: nat)
    | Pop
    | CloseInput
    | JoinDispatcher

  ghost function Start(c: Config): Whole { Whole(Init(c), R.Fresh(c.stageQueueCapacity, 2)) }

  /** The completion a thread is about to dispatch. */
  ghost function Offered(s: State, who: nat): Option<Completion> {
    if who == 0 then
      if s.batch.Early? then Some(Completion(s.batch.id, s.batch.result))
      else if s.batch.FailMembers? && s.batch.index < |s.batch.members| then
        Some(Completion(s.batch.members[s.batch.index].id, Err(s.batch.status)))
      else None
    else if s.post.PostDispatch? then Some(Completion(s.post.id, s.post.result))
    else None
  }

  ghost function HandOver(who: nat): Action { if who == 0 then BatchStep else PostStep }

  /** Steps that have nothing to do with the dispatcher. */
  ghost predicate Apart(s: State, a: Action) {
    && !a.DispStep? && !a.WaiterStep?
    && (a.BatchStep? ==> Offered(s, 0).None?)
    && (a.PostStep? ==> Offered(s, 1).None?)
  }

  ghost predicate StagesDone(s: State) { s.pre.PreDone? && s.batch.BatchDone? && s.post.PostDone? }

  ghost predicate Possible(c: Config, w: Whole, m: Move) {
    match m
    case Inner(a) => Enabled(c, w.inner, a) && Apart(w.inner, a)
    case Offer(who) =>
      who < 2 && Offered(w.inner, who).Some? && R.Can(w.ring, R.StartPush(who, Offered(w.inner, who).value))
    case Push(who) => R.Can(w.ring, R.PushStep(who))
    case Pop => R.Can(w.ring, R.PopStep)
    case CloseInput => w.inner.waiter.JoiningStages? && StagesDone(w.inner) && R.Can(w.ring, R.CloseRing)
    case JoinDispatcher => w.inner.waiter.JoiningDispatcher? && w.ring.popper.Ended?
  }

  /** The thread goes on behind its `dispatch`. */
  ghost function MovedOn(c: Config, s: State, who: nat): State {
    if Enabled(c, s, HandOver(who)) then Next(c, s, HandOver(who)).(completions := s.completions) else s
  }

  ghost function WithAnswer(s: State, x: Completion): State {
    if x.id < |s.tasks| then
      s.(delivered := s.delivered + [x.id],
         tasks := s.tasks[x.id := StoreTerminal(s.tasks[x.id], x.result).(promise := Some(x.result))])
    else s
  }

  ghost function PushMove(c: Config, w: Whole, who: nat): Whole
    requires R.Can(w.ring, R.PushStep(who))
  {
    var ring := R.Do(w.ring, R.PushStep(who));
    var p := w.ring.pushers[who];
    if p.PublishTail? then Whole(WithAnswer(MovedOn(c, w.inner, who), p.v), ring)
    else if ring.pushers[who].Idle? then Whole(MovedOn(c, w.inner, who), ring) // refused by a closed ring
    else Whole(w.inner, ring)
  }

  ghost function Closed(s: State): State {
    s.(waiter := JoiningDispatcher, completions := s.completions.Close(), disp := DispDone)
  }

  ghost function Moved(c: Config, w: Whole, m: Move): Whole
    requires Possible(c, w, m)
  {
    match m
    case Inner(a) => w.(inner := Next(c, w.inner, a))
    case Offer(who) => w.(ring := R.Do(w.ring, R.StartPush(who, Offered(w.inner, who).value)))
    case Push(who) => PushMove(c, w, who)
    case Pop => w.(ring := R.Do(w.ring, R.PopStep))
    case CloseInput => Whole(Closed(w.inner), R.Do(w.ring, R.CloseRing))
    case JoinDispatcher => w.(inner := w.inner.(waiter := WaitReturned))
  }

  ghost predicate Moves(c: Config, w: Whole, run: seq<Move>)
    decreases |run|
  {
    run == [] || (Possible(c, w, run[0]) && Moves(c, Moved(c, w, run[0]), run[1..]))
  }

  ghost function Ending(c: Config, w: Whole, run: seq<Move>): Whole
    requires Moves(c, w, run)
    decreases |run|
  {
    if run == [] then w else Ending(c, Moved(c, w, run[0]), run[1..])
  }

  ghost predicate Happens(c: Config, w: Whole) {
    exists run :: Moves(c, Start(c), run) && Ending(c, Start(c), run) == w
  }

  // ---------------------------------------------------------------- the two parts agree

  /** The dispatcher of `inner` is never behind. */
  ghost predicate Prompt(s: State, closed: bool) {
    && s.completions.items == [] && (s.completions.closed <==> closed)
    && s.disp == (if closed then DispDone else DispPop)
  }

  ghost predicate Answered(s: State, x: Completion) {
    x.id < |s.tasks| && s.tasks[x.id].promise == Some(x.result)
  }

  ghost predicate AllAnswered(s: State, xs: seq<Completion>) { forall k :: 0 <= k < |xs| ==> Answered(s, xs[k]) }

  /** Whoever is inside `push` carries what its thread is about to dispatch. */
  ghost predicate Carries(w: Whole, who: nat)
    requires who < |w.ring.pushers|
  {
    !w.ring.pushers[who].Idle? ==> Offered(w.inner, who) == Some(R.Carried(w.ring.pushers[who]))
  }

  ghost predicate RingFits(c: Config, r: R.Ring<Completion>) {
    R.RingInv(r) && |r.slots| == c.stageQueueCapacity && |r.pushers| == 2
  }

  ghost predicate WholeInv(c: Config, w: Whole) {
    && Reachable(c, w.inner) && RingFits(c, w.ring)
    && Prompt(w.inner, w.ring.closed)
    && CompletionIds(w.ring.accepted) == w.inner.delivered && AllAnswered(w.inner, w.ring.accepted)
    && Carries(w, 0) && Carries(w, 1)
    && (w.ring.popper.Ended? ==> w.ring.closed && w.ring.head == w.ring.tail)
    && (w.inner.waiter.WaitReturned? ==> w.ring.popper.Ended?)
  }

  lemma StartInv(c: Config)
    requires ValidConfig(c)
    ensures WholeInv(c, Start(c))
  {
    var run: seq<Action> := [];
    assert ValidRun(c, Init(c), run) && After(c, Init(c), run) == Init(c);
    R.FreshInv(c.stageQueueCapacity, 2, Start(c).ring);
  }

  // ---------------------------------------------------------------- steps apart from the dispatcher

  /** What such a step may not touch. */
  ghost predicate Untouched(s: State, t: State) {
    && t.completions == s.completions && t.disp == s.disp && t.delivered == s.delivered
    && |s.tasks| <= |t.tasks|
    && (forall id :: 0 <= id < |s.tasks| ==> t.tasks[id].promise == s.tasks[id].promise)
    && (t.waiter.WaitReturned? ==> s.waiter.WaitReturned?)
  }

  lemma ApartUntouched(c: Config, s: State, a: Action)
    requires Enabled(c, s, a) && Apart(s, a)
    ensures Untouched(s, Next(c, s, a))
  {
    if a.BatchStep? {
      BatchApartUntouched(c, s);
    } else if a.PreStep? {
      PreUntouched(c, s);
    } else {
      OtherUntouched(c, s, a);
    }
  }

  lemma PreUntouched(c: Config, s: State)
    requires PreReady(s)
    ensures Untouched(s, PreNext(c, s)) && PreNext(c, s).batch == s.batch && PreNext(c, s).post == s.post
  {
    PreTouches(c, s);
  }

  lemma BatchDispatchesNothing(c: Config, s: State)
    requires BatchReady(s) && Offered(s, 0).None?
    ensures BatchNext(c, s).completions == s.completions
  {
  }

  lemma BatchApartUntouched(c: Config, s: State)
    requires BatchReady(s) && Offered(s, 0).None?
    ensures Untouched(s, BatchNext(c, s)) && BatchNext(c, s).post == s.post
  {
    BatchTouches(c, s);
    BatchDispatchesNothing(c, s);
  }

  lemma OtherUntouched(c: Config, s: State, a: Action)
    requires Enabled(c, s, a) && Apart(s, a) && !a.BatchStep? && !a.PreStep?
    ensures Untouched(s, Next(c, s, a))
  {
  }

  lemma ApartKeepsOffers(c: Config, s: State, a: Action, who: nat)
    requires Enabled(c, s, a) && Apart(s, a) && who < 2 && Offered(s, who).Some?
    ensures Offered(Next(c, s, a), who) == Offered(s, who)
  {
    if a.BatchStep? {
      BatchApartUntouched(c, s);
    } else if a.PreStep? {
      PreUntouched(c, s);
    } else {
      OtherKeepsOffers(c, s, a, who);
    }
  }

  lemma OtherKeepsOffers(c: Config, s: State, a: Action, who: nat)
    requires Enabled(c, s, a) && Apart(s, a) && who < 2 && Offered(s, who).Some? && !a.BatchStep? && !a.PreStep?
    ensures Offered(Next(c, s, a), who) == Offered(s, who)
  {
  }

  lemma InnerKeepsInv(c: Config, w: Whole, a: Action)
    requires WholeInv(c, w) && Possible(c, w, Inner(a))
    ensures WholeInv(c, Moved(c, w, Inner(a)))
  {
    var t := Then(c, w.inner, a);
    ApartUntouched(c, w.inner, a);
    if Offered(w.inner, 0).Some? { ApartKeepsOffers(c, w.inner, a, 0); }
    if Offered(w.inner, 1).Some? { ApartKeepsOffers(c, w.inner, a, 1); }
    forall k | 0 <= k < |w.ring.accepted|
      ensures Answered(t, w.ring.accepted[k])
    {
      assert Answered(w.inner, w.ring.accepted[k]);
    }
  }

  // ---------------------------------------------------------------- handing over

  /** The thread's own step with an empty queue in front of the dispatcher. */
  lemma HandOverStep(c: Config, s: State, who: nat, x: Completion)
    requires s.completions.CanPush() && who < 2 && Offered(s, who) == Some(x)
    ensures Enabled(c, s, HandOver(who))
    ensures
      var t := Next(c, s, HandOver(who));
      && t == MovedOn(c, s, who).(completions := s.completions.Push(x))
      && t.tasks == s.tasks && t.delivered == s.delivered && t.disp == s.disp && t.waiter == s.waiter
      && (who == 0 ==> t.post == s.post) && (who == 1 ==> t.batch == s.batch)
  {
  }

  /** Who is offered has not been delivered yet. */
  lemma OfferedIsOpen(c: Config, s: State, who: nat, x: Completion)
    requires PlacesInv(c, s) && who < 2 && Offered(s, who) == Some(x)
    ensures x.id < |s.tasks| && s.tasks[x.id].promise.None? && c.stageQueueCapacity > 0
  {
    HandMeansCapacity(c, s);
    OccursMember(BatchHand(s.batch), x.id);
    OccursOne(x.id, x.id);
    OccursMember(s.delivered, x.id);
    if who == 0 {
      assert x.id in BatchHand(s.batch);
    }
    assert Census(s, x.id) == if x.id < Taken(s) then 1 else 0;
  }

  /** The hand-over and the dispatcher's work are a run of BatchExecutor. */
  lemma HandOverIsARun(c: Config, s: State, who: nat, x: Completion)
    requires Usable(c) && Reachable(c, s) && Prompt(s, false) && who < 2 && Offered(s, who) == Some(x)
    ensures
      var t := WithAnswer(MovedOn(c, s, who), x);
      && Reachable(c, t) && Prompt(t, false) && t.delivered == s.delivered + [x.id] && Answered(t, x)
      && (forall y: Completion :: Answered(s, y) ==> Answered(t, y))
      && (who == 0 ==> t.post == s.post) && (who == 1 ==> t.batch == s.batch) && t.waiter == s.waiter
  {
    ReachablePlaces(c, s);
    OfferedIsOpen(c, s, who, x);
    HandOverStep(c, s, who, x);
    var t := Then(c, s, HandOver(who));
    t := DeliverFirst(c, t);
    assert t == WithAnswer(MovedOn(c, s, who), x);
  }

  /** Once the ring is closed both threads have ended, so nobody is inside `push`. */
  lemma ClosedMeansQuiet(c: Config, w: Whole)
    requires Usable(c) && WholeInv(c, w) && w.ring.closed
    ensures w.inner.batch.BatchDone? && w.inner.post.PostDone?
    ensures R.NobodyPushes(w.ring)
  {
    ReachablePlaces(c, w.inner);
  }

  lemma PushKeepsInv(c: Config, w: Whole, who: nat)
    requires Usable(c) && WholeInv(c, w) && Possible(c, w, Push(who))
    ensures WholeInv(c, PushMove(c, w, who))
  {
    if w.ring.pushers[who].PublishTail? {
      PublishKeepsInv(c, w, who);
    } else {
      ApproachKeepsInv(c, w, who);
    }
  }

  lemma ApproachKeepsInv(c: Config, w: Whole, who: nat)
    requires Usable(c) && WholeInv(c, w) && Possible(c, w, Push(who)) && !w.ring.pushers[who].PublishTail?
    ensures WholeInv(c, PushMove(c, w, who))
  {
    if w.ring.closed { ClosedMeansQuiet(c, w); }
    R.DoKeepsInv(w.ring, R.PushStep(who));
    ApproachChangesLittle(w.ring, who);
  }

  lemma ApproachChangesLittle(r: R.Ring<Completion>, who: nat)
    requires R.Can(r, R.PushStep(who)) && !r.pushers[who].PublishTail? && !r.closed
    ensures
      var t := R.Do(r, R.PushStep(who));
      && t == r.(slots := t.slots, pushers := r.pushers[who := t.pushers[who]], overlapped := t.overlapped)
      && !t.pushers[who].Idle? && R.Carried(t.pushers[who]) == R.Carried(r.pushers[who])
  {
  }

  lemma PublishKeepsInv(c: Config, w: Whole, who: nat)
    requires Usable(c) && WholeInv(c, w) && Possible(c, w, Push(who)) && w.ring.pushers[who].PublishTail?
    ensures WholeInv(c, PushMove(c, w, who))
  {
    if w.ring.closed { ClosedMeansQuiet(c, w); }
    R.DoKeepsInv(w.ring, R.PushStep(who));
    var x := w.ring.pushers[who].v;
    assert Carries(w, who);
    HandOverIsARun(c, w.inner, who, x);
    var t := PushMove(c, w, who);
    assert t.ring.accepted == w.ring.accepted + [x];
    forall k | 0 <= k < |t.ring.accepted|
      ensures Answered(t.inner, t.ring.accepted[k])
    {
      assert k < |w.ring.accepted| ==> Answered(w.inner, w.ring.accepted[k]);
    }
  }

  lemma CloseKeepsInv(c: Config, w: Whole)
    requires Usable(c) && WholeInv(c, w) && Possible(c, w, CloseInput)
    ensures WholeInv(c, Moved(c, w, CloseInput))
  {
    R.DoKeepsInv(w.ring, R.CloseRing);
    var t := Then(c, w.inner, WaiterStep);
    t := Then(c, t, DispStep);
    assert t == Closed(w.inner);
    forall k | 0 <= k < |w.ring.accepted|
      ensures Answered(t, w.ring.accepted[k])
    {
      assert Answered(w.inner, w.ring.accepted[k]);
    }
  }

  lemma JoinKeepsInv(c: Config, w: Whole)
    requires Usable(c) && WholeInv(c, w) && Possible(c, w, JoinDispatcher)
    ensures WholeInv(c, Moved(c, w, JoinDispatcher))
  {
    var t := Then(c, w.inner, WaiterStep);
    forall k | 0 <= k < |w.ring.accepted|
      ensures Answered(t, w.ring.accepted[k])
    {
      assert Answered(w.inner, w.ring.accepted[k]);
    }
  }

  lemma MoveKeepsInv(c: Config, w: Whole, m: Move)
    requires Usable(c) && WholeInv(c, w) && Possible(c, w, m)
    ensures WholeInv(c, Moved(c, w, m))
  {
    match m
    case Inner(a) => InnerKeepsInv(c, w, a);
    case Offer(who) => R.DoKeepsInv(w.ring, R.StartPush(who, Offered(w.inner, who).value));
    case Push(who) => PushKeepsInv(c, w, who);
    case Pop => R.DoKeepsInv(w.ring, R.PopStep);
    case CloseInput => CloseKeepsInv(c, w);
    case JoinDispatcher => JoinKeepsInv(c, w);
  }

  lemma MovesKeepInv(c: Config, w: Whole, run: seq<Move>)
    requires Usable(c) && WholeInv(c, w) && Moves(c, w, run)
    ensures WholeInv(c, Ending(c, w, run))
    decreases |run|
  {
    if run != [] {
      MoveKeepsInv(c, w, run[0]);
      MovesKeepInv(c, Moved(c, w, run[0]), run[1..]);
    }
  }

  lemma HappensInv(c: Config, w: Whole)
    requires Usable(c) && Happens(c, w)
    ensures WholeInv(c, w)
  {
    var run :| Moves(c, Start(c), run) && Ending(c, Start(c), run) == w;
    StartInv(c);
    MovesKeepInv(c, Start(c), run);
  }
}
