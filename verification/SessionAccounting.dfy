/**
  The counters of MultiCameraSession (runtime/multiCameraSession.hpp) and FrameExecutor
  (executor/frameExecutor.hpp) while source threads, the completion thread, stop requests and
  `wait` interleave. A step is one region under the state mutex or one answer of the executor.
 */
module SessionAccounting {
  import opened Core

  datatype Summary = Summary(
    received: nat,
    submitted: nat,
    completed: nat,
    failed: nat,
    dropped: nat,
    sourceFailures: nat,
    droppedPerSource: seq<nat>,
    receivedPerSource: seq<nat>
  )

  /** A session of several cameras has no frame count and goes on after source failures. */
  datatype Config = Config(sources: nat, frameCount: Option<nat>, stopOnFailure: bool)

  /** A frame inside `onFrame`; `reached` tells that it made the frame count full. */
  datatype Ticket = Ticket(source: nat, reached: bool)

  /**
    The multisets hold the calls of `onFrame` by where they are; `outstanding` are the tasks the
    executor has accepted and not completed, `refused` the frames it turned down for good.
   */
  datatype State = State(
    summary: Summary,
    failing: multiset<Ticket>,
    submitting: multiset<Ticket>,
    accepted: multiset<Ticket>,
    full: multiset<Ticket>,
    rejected: multiset<Ticket>,
    stopping: multiset<Ticket>,
    outstanding: nat,
    refused: nat,
    stopRequested: bool,
    sourcesJoined: bool,
    finished: bool
  )

  datatype Action =
    | Receive(origin: nat, good: bool)
    | CountFailure(ticket: Ticket)
    | Accept(ticket: Ticket)
    | ReportFull(ticket: Ticket)
    | Reject(ticket: Ticket)
    | CountSubmitted(ticket: Ticket)
    | CountDropped(ticket: Ticket)
    | TakeRejection(ticket: Ticket)
    | StopFromFrame(ticket: Ticket)
    | Complete(succeeded: bool)
    | RequestStop
    | JoinSources
    | JoinExecutor

  function Zeros(n: nat): seq<nat> { seq(n, _ => 0) }

  function Init(c: Config): State {
    State(Summary(0, 0, 0, 0, 0, 0, Zeros(c.sources), Zeros(c.sources)),
          multiset{}, multiset{}, multiset{}, multiset{}, multiset{}, multiset{}, 0, 0, false, false, false)
  }

  function Inside(s: State): multiset<Ticket> {
    s.failing + s.submitting + s.accepted + s.full + s.rejected + s.stopping
  }

  /** The frames inside `onFrame` that no counter but `received` knows about. */
  function Uncounted(s: State): nat { |s.failing| + |s.submitting| + |s.accepted| + |s.full| + |s.rejected| }

  ghost predicate Enabled(c: Config, s: State, a: Action) {
    match a
    case Receive(source, _) => !s.sourcesJoined && source < c.sources
                               && |s.summary.receivedPerSource| == c.sources
    case CountFailure(t) => t in s.failing
    case Accept(t) => t in s.submitting
    case ReportFull(t) => t in s.submitting
    case Reject(t) => t in s.submitting
    case CountSubmitted(t) => t in s.accepted
    case CountDropped(t) => t in s.full && t.source < |s.summary.droppedPerSource|
    case TakeRejection(t) => t in s.rejected
    case StopFromFrame(t) => t in s.stopping
    case Complete(_) => s.outstanding > 0 && !s.finished // the executor calls back until its wait returns
    case RequestStop => true
    case JoinSources => Inside(s) == multiset{}
    case JoinExecutor => s.sourcesJoined && s.stopRequested
  }

  /** Where a counted frame goes: it asks for a stop before it leaves, or leaves. */
  ghost function Leave(s: State, t: Ticket, stop: bool): State {
    if t.reached || stop then s.(stopping := s.stopping + multiset{t}) else s
  }

  function Bump(counts: seq<nat>, source: nat): seq<nat>
    requires source < |counts|
  {
    counts[source := counts[source] + 1]
  }

  ghost function Next(c: Config, s: State, a: Action): State
    requires Enabled(c, s, a)
  {
    match a
    case Receive(source, good) => Received(c, s, source, good)
    case CountFailure(t) =>
      Leave(s.(failing := s.failing - multiset{t},
          summary := s.summary.(sourceFailures := s.summary.sourceFailures + 1)),
            t, c.stopOnFailure)
    case Accept(t) =>
      s.(submitting := s.submitting - multiset{t}, accepted := s.accepted + multiset{t},
          outstanding := s.outstanding + 1)
    case ReportFull(t) => s.(submitting := s.submitting - multiset{t}, full := s.full + multiset{t})
    case Reject(t) => s.(submitting := s.submitting - multiset{t}, rejected := s.rejected + multiset{t})
    case CountSubmitted(t) =>
      Leave(s.(accepted := s.accepted - multiset{t}, summary := s.summary.(submitted := s.summary.submitted + 1)), t,
          false)
    case CountDropped(t) =>
      Leave(s.(full := s.full - multiset{t},
               summary := s.summary.(dropped := s.summary.dropped + 1,
                                     droppedPerSource := Bump(s.summary.droppedPerSource, t.source))), t, false)
    case TakeRejection(t) =>
      Leave(s.(rejected := s.rejected - multiset{t}, refused := s.refused + 1), t, !s.stopRequested)
    case StopFromFrame(t) => Stop(s.(stopping := s.stopping - multiset{t}))
    case Complete(succeeded) =>
      s.(outstanding := s.outstanding - 1,
         summary := s.summary.(completed := s.summary.completed + 1,
             failed := s.summary.failed + (if succeeded then 0 else 1)))
    case RequestStop => Stop(s)
    case JoinSources => s.(sourcesJoined := true)
    case JoinExecutor => s.(finished := true)
  }

  /** requestStop does nothing once `wait` has finished. */
  ghost function Stop(s: State): State { if s.finished then s else s.(stopRequested := true) }

  ghost function Received(c: Config, s: State, source: nat, good: bool): State
    requires source < |s.summary.receivedPerSource|
  {
    var counted := s.summary.(received := s.summary.received + 1,
                              receivedPerSource := Bump(s.summary.receivedPerSource, source));
    var t := Ticket(source, c.frameCount.Some? && counted.received >= c.frameCount.value);
    if good then s.(summary := counted, submitting := s.submitting + multiset{t})
    else s.(summary := counted, failing := s.failing + multiset{t})
  }

  ghost predicate ValidRun(c: Config, s: State, run: seq<Action>)
    decreases |run|
  {
    run == [] || (Enabled(c, s, run[0]) && ValidRun(c, Next(c, s, run[0]), run[1..]))
  }

  ghost function After(c: Config, s: State, run: seq<Action>): State
    requires ValidRun(c, s, run)
    decreases |run|
  {
    if run == [] then s else After(c, Next(c, s, run[0]), run[1..])
  }

  ghost predicate Reachable(c: Config, s: State) {
    exists run :: ValidRun(c, Init(c), run) && After(c, Init(c), run) == s
  }

  // ---------------------------------------------------------------- invariants

  function Sum(counts: seq<nat>): nat { if counts == [] then 0 else counts[0] + Sum(counts[1..]) }

  lemma {:induction false} BumpAddsOne(counts: seq<nat>, source: nat)
    requires source < |counts|
    ensures Sum(Bump(counts, source)) == Sum(counts) + 1
  {
    if source > 0 {
      assert Bump(counts, source)[1..] == Bump(counts[1..], source - 1);
      BumpAddsOne(counts[1..], source - 1);
    } else {
      assert Bump(counts, source)[1..] == counts[1..];
    }
  }

  lemma {:induction false} ZerosSum(n: nat)
    ensures Sum(Zeros(n)) == 0
  {
    if n > 0 {
      assert Zeros(n)[1..] == Zeros(n - 1);
      ZerosSum(n - 1);
    }
  }

  /** Every received frame is counted under one heading or still inside; every accepted task likewise. */
  ghost predicate CountsInv(c: Config, s: State) {
    var m := s.summary;
    && m.received == m.sourceFailures + m.submitted + m.dropped + s.refused + Uncounted(s)
    && m.completed + s.outstanding == m.submitted + |s.accepted|
    && m.failed <= m.completed
    && |m.receivedPerSource| == |m.droppedPerSource| == c.sources
    && Sum(m.receivedPerSource) == m.received && Sum(m.droppedPerSource) == m.dropped
  }

  ghost predicate ReachedInside(s: State) { exists source :: Ticket(source, true) in Inside(s) }

  ghost predicate StopInv(c: Config, s: State) {
    && (forall t :: t in Inside(s) ==> t.source < c.sources)
    && (s.sourcesJoined ==> Inside(s) == multiset{})
    && (s.finished ==> s.sourcesJoined && s.stopRequested)
    && (c.frameCount.Some? && s.summary.received > 0 && s.summary.received >= c.frameCount.value ==>
         s.stopRequested || ReachedInside(s))
    && (s.refused > 0 ==> s.stopRequested || s.stopping != multiset{})
  }

  lemma TakenOut(m: multiset<Ticket>, t: Ticket)
    requires t in m
    ensures |m - multiset{t}| == |m| - 1 && (m - multiset{t}) + multiset{t} == m
  {
    assert (m - multiset{t}) + multiset{t} == m;
  }

  lemma MovesKeepCounts(c: Config, s: State, a: Action)
    requires CountsInv(c, s) && Enabled(c, s, a) && (a.Accept? || a.ReportFull? || a.Reject?)
    ensures CountsInv(c, Next(c, s, a))
  {
    TakenOut(s.submitting, a.ticket);
  }

  lemma FailureKeepsCounts(c: Config, s: State, t: Ticket)
    requires CountsInv(c, s) && t in s.failing
    ensures CountsInv(c, Next(c, s, CountFailure(t)))
  {
    TakenOut(s.failing, t);
  }

  lemma SubmittedKeepsCounts(c: Config, s: State, t: Ticket)
    requires CountsInv(c, s) && t in s.accepted
    ensures CountsInv(c, Next(c, s, CountSubmitted(t)))
  {
    TakenOut(s.accepted, t);
  }

  lemma DroppedKeepsCounts(c: Config, s: State, t: Ticket)
    requires CountsInv(c, s) && t in s.full && t.source < c.sources
    ensures CountsInv(c, Next(c, s, CountDropped(t)))
  {
    TakenOut(s.full, t);
    BumpAddsOne(s.summary.droppedPerSource, t.source);
  }

  lemma RejectionKeepsCounts(c: Config, s: State, t: Ticket)
    requires CountsInv(c, s) && t in s.rejected
    ensures CountsInv(c, Next(c, s, TakeRejection(t)))
  {
    TakenOut(s.rejected, t);
  }

  lemma ReceiveKeepsCounts(c: Config, s: State, source: nat, good: bool)
    requires CountsInv(c, s) && Enabled(c, s, Receive(source, good))
    ensures CountsInv(c, Received(c, s, source, good))
  {
    BumpAddsOne(s.summary.receivedPerSource, source);
  }

  lemma CountsKept(c: Config, s: State, a: Action)
    requires CountsInv(c, s) && Enabled(c, s, a)
    ensures CountsInv(c, Next(c, s, a))
  {
    if a.Receive? {
      ReceiveKeepsCounts(c, s, a.origin, a.good);
    } else if a.CountFailure? {
      FailureKeepsCounts(c, s, a.ticket);
    } else if a.CountSubmitted? {
      SubmittedKeepsCounts(c, s, a.ticket);
    } else if a.CountDropped? {
      DroppedKeepsCounts(c, s, a.ticket);
    } else if a.TakeRejection? {
      RejectionKeepsCounts(c, s, a.ticket);
    } else if a.Accept? || a.ReportFull? || a.Reject? {
      MovesKeepCounts(c, s, a);
    }
  }

  /** A counted frame that asks for a stop stays inside; another one leaves. */
  ghost predicate StaysOrLeaves(s: State, q: State, t: Ticket) {
    && (Inside(q) == Inside(s) || (!t.reached && Inside(s) == Inside(q) + multiset{t}))
    && s.stopping <= q.stopping
  }

  lemma LeaveOneStage(s: State, q: State, t: Ticket, stop: bool)
    requires Inside(s) == Inside(q) + multiset{t} && q.stopping == s.stopping
    ensures StaysOrLeaves(s, Leave(q, t, stop), t)
    ensures stop ==> t in Leave(q, t, stop).stopping
  {
    if t.reached || stop {
      assert Inside(Leave(q, t, stop)) == Inside(q) + multiset{t};
    }
  }

  lemma FailureInside(c: Config, s: State, t: Ticket)
    requires t in s.failing
    ensures StaysOrLeaves(s, Next(c, s, CountFailure(t)), t)
  {
    TakenOut(s.failing, t);
    var q := s.(failing := s.failing - multiset{t},
        summary := s.summary.(sourceFailures := s.summary.sourceFailures + 1));
    assert Inside(s) == Inside(q) + multiset{t};
    LeaveOneStage(s, q, t, c.stopOnFailure);
  }

  lemma SubmittedInside(c: Config, s: State, t: Ticket)
    requires t in s.accepted
    ensures StaysOrLeaves(s, Next(c, s, CountSubmitted(t)), t)
  {
    TakenOut(s.accepted, t);
    var q := s.(accepted := s.accepted - multiset{t}, summary := s.summary.(submitted := s.summary.submitted + 1));
    assert Inside(s) == Inside(q) + multiset{t};
    LeaveOneStage(s, q, t, false);
  }

  lemma DroppedInside(c: Config, s: State, t: Ticket)
    requires Enabled(c, s, CountDropped(t))
    ensures StaysOrLeaves(s, Next(c, s, CountDropped(t)), t)
  {
    TakenOut(s.full, t);
    var q := s.(full := s.full - multiset{t},
                summary := s.summary.(dropped := s.summary.dropped + 1,
                                      droppedPerSource := Bump(s.summary.droppedPerSource, t.source)));
    assert Inside(s) == Inside(q) + multiset{t};
    LeaveOneStage(s, q, t, false);
  }

  lemma RejectionInside(c: Config, s: State, t: Ticket)
    requires t in s.rejected
    ensures StaysOrLeaves(s, Next(c, s, TakeRejection(t)), t)
  {
    TakenOut(s.rejected, t);
    var q := s.(rejected := s.rejected - multiset{t}, refused := s.refused + 1);
    assert Inside(s) == Inside(q) + multiset{t};
    LeaveOneStage(s, q, t, !s.stopRequested);
  }

  lemma CountingInside(c: Config, s: State, a: Action)
    requires Enabled(c, s, a) && (a.CountFailure? || a.CountSubmitted? || a.CountDropped? || a.TakeRejection?)
    ensures StaysOrLeaves(s, Next(c, s, a), a.ticket)
  {
    if a.CountFailure? {
      FailureInside(c, s, a.ticket);
    } else if a.CountSubmitted? {
      SubmittedInside(c, s, a.ticket);
    } else if a.CountDropped? {
      DroppedInside(c, s, a.ticket);
    } else {
      RejectionInside(c, s, a.ticket);
    }
  }

  lemma ReachedStays(s: State, q: State, t: Ticket)
    requires Inside(q) == Inside(s) || (!t.reached && Inside(s) == Inside(q) + multiset{t})
    ensures ReachedInside(s) ==> ReachedInside(q)
    ensures forall u :: u in Inside(q) ==> u in Inside(s)
  {
    if ReachedInside(s) {
      var source :| Ticket(source, true) in Inside(s);
      assert Ticket(source, true) in Inside(q);
    }
  }

  lemma CountingKeepsStop(c: Config, s: State, a: Action)
    requires StopInv(c, s) && Enabled(c, s, a) &&
        (a.CountFailure? || a.CountSubmitted? || a.CountDropped? || a.TakeRejection?)
    ensures StopInv(c, Next(c, s, a))
  {
    var q := Next(c, s, a);
    CountingInside(c, s, a);
    ReachedStays(s, q, a.ticket);
    assert a.ticket in Inside(s);
    if a.TakeRejection? && !s.stopRequested {
      assert a.ticket in q.stopping;
    }
    if s.stopping != multiset{} {
      var u :| u in s.stopping;
      assert u in q.stopping;
    }
  }

  lemma MovesKeepStop(c: Config, s: State, a: Action)
    requires StopInv(c, s) && Enabled(c, s, a) && (a.Accept? || a.ReportFull? || a.Reject?)
    ensures StopInv(c, Next(c, s, a))
  {
    MovesStayInside(c, s, a);
    ReachedStays(s, Next(c, s, a), a.ticket);
  }

  lemma MovesStayInside(c: Config, s: State, a: Action)
    requires Enabled(c, s, a) && (a.Accept? || a.ReportFull? || a.Reject?)
    ensures Inside(Next(c, s, a)) == Inside(s) && a.ticket in Inside(s)
  {
    TakenOut(s.submitting, a.ticket);
  }

  lemma ReceiveKeepsStop(c: Config, s: State, source: nat, good: bool)
    requires StopInv(c, s) && Enabled(c, s, Receive(source, good))
    ensures StopInv(c, Received(c, s, source, good))
  {
    var q := Received(c, s, source, good);
    var t := Ticket(source, c.frameCount.Some? && q.summary.received >= c.frameCount.value);
    ReceivedInside(c, s, source, good);
    if t.reached {
      assert Ticket(source, true) in Inside(q);
    }
  }

  lemma ReceivedInside(c: Config, s: State, source: nat, good: bool)
    requires source < |s.summary.receivedPerSource|
    ensures Inside(Received(c, s, source, good)) == Inside(s)
      + multiset{Ticket(source, c.frameCount.Some? && s.summary.received + 1 >= c.frameCount.value)}
  {
  }

  lemma StopFromFrameKeepsStop(c: Config, s: State, t: Ticket)
    requires StopInv(c, s) && t in s.stopping
    ensures StopInv(c, Next(c, s, StopFromFrame(t)))
  {
    TakenOut(s.stopping, t);
    assert t in Inside(s);
    var q := Next(c, s, StopFromFrame(t));
    assert Inside(s) == Inside(q) + multiset{t};
    assert forall u :: u in Inside(q) ==> u in Inside(s);
  }

  lemma StopKept(c: Config, s: State, a: Action)
    requires StopInv(c, s) && Enabled(c, s, a)
    ensures StopInv(c, Next(c, s, a))
  {
    if a.Receive? {
      ReceiveKeepsStop(c, s, a.origin, a.good);
    } else if a.Accept? || a.ReportFull? || a.Reject? {
      MovesKeepStop(c, s, a);
    } else if a.CountFailure? || a.CountSubmitted? || a.CountDropped? || a.TakeRejection? {
      CountingKeepsStop(c, s, a);
    } else if a.StopFromFrame? {
      StopFromFrameKeepsStop(c, s, a.ticket);
    } else {
      assert Inside(Next(c, s, a)) == Inside(s);
      ReachedStays(s, Next(c, s, a), Ticket(0, false));
    }
  }

  lemma {:induction false} RunKeepsInv(c: Config, s: State, run: seq<Action>)
    requires CountsInv(c, s) && StopInv(c, s) && ValidRun(c, s, run)
    ensures CountsInv(c, After(c, s, run)) && StopInv(c, After(c, s, run))
    decreases |run|
  {
    if run != [] {
      CountsKept(c, s, run[0]);
      StopKept(c, s, run[0]);
      RunKeepsInv(c, Next(c, s, run[0]), run[1..]);
    }
  }

  lemma ReachableInv(c: Config, s: State)
    requires Reachable(c, s)
    ensures CountsInv(c, s) && StopInv(c, s)
  {
    ZerosSum(c.sources);
    var run :| ValidRun(c, Init(c), run) && After(c, Init(c), run) == s;
    RunKeepsInv(c, Init(c), run);
  }

  // ---------------------------------------------------------------- theorems over all runs

  /**
    At every moment a received frame is a source failure, submitted, dropped, refused, or still
    inside `onFrame`, the per-source counts add up to the totals, and the completion count is ahead
    of the submission count by no more than the accepted submissions not yet counted.
   */
  lemma AccountsBalance(c: Config, s: State)
    requires Reachable(c, s)
    ensures var m := s.summary;
      && m.received == m.sourceFailures + m.submitted + m.dropped + s.refused + Uncounted(s)
      && Sum(m.receivedPerSource) == m.received && Sum(m.droppedPerSource) == m.dropped
      && m.completed + s.outstanding == m.submitted + |s.accepted|
      && m.failed <= m.completed <= m.submitted + |s.accepted|
  {
    ReachableInv(c, s);
  }

  /**
    After `wait` every received frame is counted under one heading, and what is submitted and not
    completed is what the executor has left undone.
   */
  lemma WaitClosesTheAccounts(c: Config, s: State)
    requires Reachable(c, s) && s.finished
    ensures s.summary.completed + s.outstanding == s.summary.submitted
    ensures s.summary.completed == s.summary.submitted <==> s.outstanding == 0
    ensures s.summary.received == s.summary.sourceFailures + s.summary.submitted + s.summary.dropped + s.refused
  {
    ReachableInv(c, s);
    NobodyInside(s);
  }

  /** And nothing changes any more, whatever is called later. */
  lemma FinishedIsFinal(c: Config, s: State, a: Action)
    requires Reachable(c, s) && s.finished && Enabled(c, s, a)
    ensures Next(c, s, a) == s
  {
    ReachableInv(c, s);
    NobodyInside(s);
  }

  lemma NobodyInside(s: State)
    requires Inside(s) == multiset{}
    ensures s.failing == s.submitting == s.accepted == s.full == s.rejected == s.stopping == multiset{}
  {
    assert forall t: Ticket :: Inside(s)[t] == 0;
  }

  /** Once the frame count is reached and the frames have left, a stop has been requested. */
  lemma FrameCountStops(c: Config, s: State)
    requires Reachable(c, s) && Inside(s) == multiset{}
    requires c.frameCount.Some? && s.summary.received > 0 && s.summary.received >= c.frameCount.value
    ensures s.stopRequested
  {
    ReachableInv(c, s);
  }

  /** A frame the executor refuses for good ends the session. */
  lemma RefusalStops(c: Config, s: State)
    requires Reachable(c, s) && Inside(s) == multiset{} && s.refused > 0
    ensures s.stopRequested
  {
    ReachableInv(c, s);
    NobodyInside(s);
  }

  // ---------------------------------------------------------------- meeting the executor

  /** The steps in which the session and its executor meet. */
  predicate MeetsExecutor(a: Action) { a.Accept? || a.Complete? || a.JoinExecutor? }

  /** A completion callback. */
  ghost function Counted(c: Config, s: State, succeeded: bool): State {
    if Enabled(c, s, Complete(succeeded)) then Next(c, s, Complete(succeeded)) else s
  }

  lemma OwnStepKeepsOpen(c: Config, s: State, a: Action)
    requires Enabled(c, s, a) && !MeetsExecutor(a)
    ensures Next(c, s, a).outstanding == s.outstanding && Next(c, s, a).finished == s.finished
    ensures Next(c, s, a).summary.completed == s.summary.completed
  {
    match a
    case Receive(_, _) =>
    case CountFailure(_) =>
    case ReportFull(_) =>
    case Reject(_) =>
    case CountSubmitted(_) =>
    case CountDropped(_) =>
    case TakeRejection(_) =>
    case StopFromFrame(_) =>
    case RequestStop =>
    case JoinSources =>
    case _ =>
  }

  /** What accepting a frame and counting a completion change. */
  lemma MeetingSteps(c: Config, s: State, t: Ticket, succeeded: bool)
    ensures Enabled(c, s, Accept(t)) ==>
              var u := Next(c, s, Accept(t));
              u.outstanding == s.outstanding + 1 && u.summary == s.summary && u.finished == s.finished
    ensures Enabled(c, s, Complete(succeeded)) ==>
              var u := Next(c, s, Complete(succeeded));
              && u.outstanding == s.outstanding - 1 && u.finished == s.finished
              && u.summary.completed == s.summary.completed + 1
  {
  }

  lemma StepKeepsInv(c: Config, s: State, a: Action)
    requires CountsInv(c, s) && StopInv(c, s) && Enabled(c, s, a)
    ensures CountsInv(c, Next(c, s, a)) && StopInv(c, Next(c, s, a))
  {
    CountsKept(c, s, a);
    StopKept(c, s, a);
  }

  lemma CountedKeepsInv(c: Config, s: State, succeeded: bool)
    requires CountsInv(c, s) && StopInv(c, s) && Enabled(c, s, Complete(succeeded))
    ensures CountsInv(c, Counted(c, s, succeeded)) && StopInv(c, Counted(c, s, succeeded))
    ensures
      var u := Counted(c, s, succeeded);
      && u.outstanding == s.outstanding - 1 && u.finished == s.finished
      && u.summary.completed == s.summary.completed + 1
  {
    MeetingSteps(c, s, Ticket(0, false), succeeded);
    StepKeepsInv(c, s, Complete(succeeded));
  }

  // ---------------------------------------------------------------- the counters as an object

  /** The regions under the state mutex, as updates of the session's own fields. */
  class SessionCounters {
    var summary: Summary
    var stopRequested: bool
    var finished: bool

    constructor (sources: nat)
      ensures summary == Init(Config(sources, None, false)).summary && !stopRequested && !finished
    {
      summary := Summary(0, 0, 0, 0, 0, 0, Zeros(sources), Zeros(sources));
      stopRequested, finished := false, false;
    }

    method FrameReceived(source: nat, frameCount: Option<nat>) returns (reached: bool)
      requires source < |summary.receivedPerSource|
      modifies this`summary
      ensures summary == old(summary).(received := old(summary).received + 1,
                                       receivedPerSource := Bump(old(summary).receivedPerSource, source))
      ensures Sum(summary.receivedPerSource) - summary.received ==
              Sum(old(summary).receivedPerSource) - old(summary).received
      ensures reached <==> frameCount.Some? && summary.received >= frameCount.value
    {
      BumpAddsOne(summary.receivedPerSource, source);
      summary := summary.(received := summary.received + 1,
          receivedPerSource := Bump(summary.receivedPerSource, source));
      reached := frameCount.Some? && summary.received >= frameCount.value;
    }

    method FrameDropped(source: nat)
      requires source < |summary.droppedPerSource|
      modifies this`summary
      ensures summary == old(summary).(dropped := old(summary).dropped + 1,
                                       droppedPerSource := Bump(old(summary).droppedPerSource, source))
      ensures Sum(summary.droppedPerSource) - summary.dropped ==
              Sum(old(summary).droppedPerSource) - old(summary).dropped
    {
      BumpAddsOne(summary.droppedPerSource, source);
      summary := summary.(dropped := summary.dropped + 1, droppedPerSource := Bump(summary.droppedPerSource, source));
    }

    method TaskCompleted(succeeded: bool)
      modifies this`summary
      ensures summary == old(summary).(completed := old(summary).completed + 1,
                                       failed := old(summary).failed + (if succeeded then 0 else 1))
    {
      summary := summary.(completed := summary.completed + 1);
      if !succeeded {
        summary := summary.(failed := summary.failed + 1);
      }
    }

    /** True when the caller goes on to stop the sources and the executor. */
    method RequestStop() returns (forward: bool)
      modifies this`stopRequested
      ensures forward == !finished && stopRequested == (old(stopRequested) || !finished)
    {
      if finished {
        return false;
      }
      stopRequested := true;
      forward := true;
    }
  }
}
