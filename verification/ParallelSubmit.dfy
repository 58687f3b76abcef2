/** What `submit` of the parallel executor promises: who is accepted, who sleeps, who is refused. */
module ParallelSubmit {
  import opened Core
  import opened Stages
  import opened Tasks
  import opened BoundedFifo
  import opened ExecutorParts
  import opened ParallelExecutor
  import opened ParallelInvariant
  import opened ParallelDrain

  /** The packets that `submit` was called with. */
  ghost function Offered(run: seq<Action>): multiset<Packet> {
    if run == [] then multiset{}
    else (if run[0].Submit? then multiset{run[0].packet} else multiset{}) + Offered(run[1..])
  }

  predicate Usable(c: Config) { c.queueCapacity > 0 && c.stageQueueCapacity > 0 }

  /** Accepted packets and those whose submitters sleep. */
  ghost function Kept(s: State): multiset<Packet> { multiset(s.packets) + multiset(s.blocked) }

  lemma WakingKeeps(s: State, k: nat)
    requires k < |s.blocked| && s.accepting
    ensures Kept(WakeNext(s, k)) == Kept(s)
  {
    assert s.blocked == s.blocked[..k] + [s.blocked[k]] + s.blocked[k + 1..];
  }

  lemma SubmitKeeps(c: Config, s: State, p: Packet)
    requires Usable(c) && c.blockWhenFull && s.accepting
    ensures Kept(SubmitNext(c, s, p)) == Kept(s) + multiset{p}
  {
  }

  lemma StepKeeps(c: Config, s: State, a: Action)
    requires Usable(c) && c.blockWhenFull && Enabled(c, s, a) && s.accepting && Next(c, s, a).accepting
    ensures Kept(Next(c, s, a)) == Kept(s) + (if a.Submit? then multiset{a.packet} else multiset{})
  {
    match a
    case Submit(p) => SubmitKeeps(c, s, p);
    case RequestStop(_) =>
    case Cancel(_) =>
    case StartWait =>
    case WakeSubmitter(k) => WakingKeeps(s, k);
    case PreStep => PreKeepsSubmitters(c, s);
    case InfStep => InfKeepsSubmitters(c, s);
    case PostStep => PostKeepsSubmitters(c, s);
    case DispStep =>
    case WaiterStep =>
  }

  ghost predicate SameSubmitters(s: State, t: State) {
    t.packets == s.packets && t.blocked == s.blocked && t.accepting == s.accepting
  }

  lemma PreKeepsSubmitters(c: Config, s: State)
    requires PreReady(s)
    ensures SameSubmitters(s, PreNext(c, s))
  {
    PreTouches(c, s);
  }

  lemma InfKeepsSubmitters(c: Config, s: State)
    requires InfReady(s)
    ensures SameSubmitters(s, InfNext(c, s))
  {
  }

  lemma PostKeepsSubmitters(c: Config, s: State)
    requires PostReady(s)
    ensures SameSubmitters(s, PostNext(c, s))
  {
  }

  lemma StaysStopped(c: Config, s: State, run: seq<Action>)
    requires !s.accepting && ValidRun(c, s, run)
    ensures !After(c, s, run).accepting
    decreases |run|
  {
    if run != [] {
      StopStays(c, s, run[0]);
      StaysStopped(c, Next(c, s, run[0]), run[1..]);
    }
  }

  lemma StopStays(c: Config, s: State, a: Action)
    requires !s.accepting && Enabled(c, s, a)
    ensures !Next(c, s, a).accepting
  {
    match a
    case Submit(_) =>
    case RequestStop(_) =>
    case Cancel(_) =>
    case StartWait =>
    case WakeSubmitter(_) =>
    case PreStep => PreKeepsSubmitters(c, s);
    case InfStep => InfKeepsSubmitters(c, s);
    case PostStep => PostKeepsSubmitters(c, s);
    case DispStep =>
    case WaiterStep =>
  }

  /** A blocking executor turns nothing down before it is stopped: every packet is accepted or its submitter sleeps. */
  lemma {:induction false} BlockingRefusesNothing(c: Config, s: State, run: seq<Action>)
    requires Usable(c) && c.blockWhenFull && ValidRun(c, s, run) && After(c, s, run).accepting
    ensures Kept(After(c, s, run)) == Kept(s) + Offered(run)
    decreases |run|
  {
    if run != [] {
      var t := Next(c, s, run[0]);
      if !t.accepting { StaysStopped(c, t, run[1..]); }
      if !s.accepting { StaysStopped(c, s, run); }
      StepKeeps(c, s, run[0]);
      BlockingRefusesNothing(c, t, run[1..]);
    }
  }

  /**
    What one call comes to. On an open executor with room the packet becomes the last task, queued behind
    the others; on a full one its submitter sleeps or is told so, as configured; otherwise it is refused.
    No refusal changes anything.
   */
  lemma SubmissionIsDecided(c: Config, s: State, p: Packet)
    requires Reachable(c, s)
    ensures |s.entry| <= c.queueCapacity
    ensures
      var t := Next(c, s, Submit(p));
      var open := Usable(c) && s.accepting;
      && (open && |s.entry| < c.queueCapacity ==>
           && t.packets == s.packets + [p] && t.entry == s.entry + [|s.packets|] && t.blocked == s.blocked
           && |t.tasks| == |s.tasks| + 1 && t.tasks[|s.tasks|] == Task(Queued, false, None))
      && (open && |s.entry| == c.queueCapacity && c.blockWhenFull ==>
           t.blocked == s.blocked + [p] && t.packets == s.packets && t.entry == s.entry && t.tasks == s.tasks)
      && (!open || (|s.entry| == c.queueCapacity && !c.blockWhenFull) ==> t == s)
  {
    ReachablePlaces(c, s);
  }

  /** Without blocking nobody ever sleeps, and an executor without queues accepts nothing. */
  ghost predicate SleepInv(c: Config, s: State) {
    (!c.blockWhenFull ==> s.blocked == []) && (!Usable(c) ==> s.packets == [] && s.blocked == [])
  }

  lemma StepKeepsSleep(c: Config, s: State, a: Action)
    requires SleepInv(c, s) && Enabled(c, s, a)
    ensures SleepInv(c, Next(c, s, a))
  {
    match a
    case Submit(_) =>
    case RequestStop(_) =>
    case Cancel(_) =>
    case StartWait =>
    case WakeSubmitter(_) =>
    case PreStep => PreKeepsSubmitters(c, s);
    case InfStep => InfKeepsSubmitters(c, s);
    case PostStep => PostKeepsSubmitters(c, s);
    case DispStep =>
    case WaiterStep =>
  }

  lemma {:induction false} OnlyBlockingSleeps(c: Config, s: State, run: seq<Action>)
    requires SleepInv(c, s) && ValidRun(c, s, run)
    ensures SleepInv(c, After(c, s, run))
    decreases |run|
  {
    if run != [] {
      StepKeepsSleep(c, s, run[0]);
      OnlyBlockingSleeps(c, Next(c, s, run[0]), run[1..]);
    }
  }

  /** Stopped or not: when no executor step is left, every accepted task has been delivered and nobody sleeps. */
  lemma QuietMeansServed(c: Config, s: State)
    requires Reachable(c, s) && Settled(c, s)
    ensures s.delivered == Upto(|s.packets|) && |s.tasks| == |s.packets| && s.blocked == []
  {
    ReachablePlaces(c, s);
    if |s.delivered| < |s.tasks| {
      var a := SomeoneCanMove(c, s);
    }
    if s.blocked != [] {
      assert Enabled(c, s, WakeSubmitter(0));
    }
  }

  /**
    Together: a quiet blocking executor that was not stopped has accepted and delivered exactly the packets
    that `submit` was called with.
   */
  lemma EverySubmissionIsServed(c: Config, run: seq<Action>)
    requires Usable(c) && c.blockWhenFull && ValidRun(c, Init(c), run)
    requires After(c, Init(c), run).accepting && Settled(c, After(c, Init(c), run))
    ensures
      var t := After(c, Init(c), run);
      multiset(t.packets) == Offered(run) && t.delivered == Upto(|t.packets|)
  {
    var t := After(c, Init(c), run);
    BlockingRefusesNothing(c, Init(c), run);
    QuietMeansServed(c, t);
    assert Kept(Init(c)) == multiset{} && Kept(t) == multiset(t.packets);
  }
}
