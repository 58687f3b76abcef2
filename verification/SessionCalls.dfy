/** The session's counters and its stop, by the calls that were made: each counter counts its own calls. */
module SessionCalls {
  import opened Core
  import opened SessionAccounting

  // ---------------------------------------------------------------- counters

  datatype Counter =
    | Received | Failures | Submitted | Dropped | Refused | Completed | Failed
    | ReceivedFrom(source: nat) | DroppedFrom(source: nat)

  ghost function Value(s: State, counter: Counter): nat {
    match counter
    case Received => s.summary.received
    case Failures => s.summary.sourceFailures
    case Submitted => s.summary.submitted
    case Dropped => s.summary.dropped
    case Refused => s.refused
    case Completed => s.summary.completed
    case Failed => s.summary.failed
    case ReceivedFrom(i) => if i < |s.summary.receivedPerSource| then s.summary.receivedPerSource[i] else 0
    case DroppedFrom(i) => if i < |s.summary.droppedPerSource| then s.summary.droppedPerSource[i] else 0
  }

  /** The calls a counter is for. */
  predicate Counts(counter: Counter, a: Action) {
    match counter
    case Received => a.Receive?
    case Failures => a.CountFailure?
    case Submitted => a.CountSubmitted?
    case Dropped => a.CountDropped?
    case Refused => a.TakeRejection?
    case Completed => a.Complete?
    case Failed => a == Complete(false)
    case ReceivedFrom(i) => a.Receive? && a.origin == i
    case DroppedFrom(i) => a.CountDropped? && a.ticket.source == i
  }

  ghost function Times(run: seq<Action>, counter: Counter): nat {
    if run == [] then 0 else (if Counts(counter, run[0]) then 1 else 0) + Times(run[1..], counter)
  }

  lemma StepCounts(c: Config, s: State, a: Action, counter: Counter)
    requires Enabled(c, s, a)
    ensures Value(Next(c, s, a), counter) == Value(s, counter) + (if Counts(counter, a) then 1 else 0)
  {
    if counter.ReceivedFrom? {
      StepCountsReceived(c, s, a, counter.source);
    } else if counter.DroppedFrom? {
      StepCountsDropped(c, s, a, counter.source);
    } else if a.Receive? || a.CountDropped? {
      FrameCounts(c, s, a, counter);
    } else {
      OthersCount(c, s, a, counter);
    }
  }

  lemma FrameCounts(c: Config, s: State, a: Action, counter: Counter)
    requires Enabled(c, s, a) && (a.Receive? || a.CountDropped?) && !counter.ReceivedFrom? && !counter.DroppedFrom?
    ensures Value(Next(c, s, a), counter) == Value(s, counter) + (if Counts(counter, a) then 1 else 0)
  {
  }

  lemma OthersCount(c: Config, s: State, a: Action, counter: Counter)
    requires Enabled(c, s, a) && !a.Receive? && !a.CountDropped? && !counter.ReceivedFrom? && !counter.DroppedFrom?
    ensures Value(Next(c, s, a), counter) == Value(s, counter) + (if Counts(counter, a) then 1 else 0)
  {
    match a
    case CountFailure(_) =>
    case Accept(_) =>
    case ReportFull(_) =>
    case Reject(_) =>
    case CountSubmitted(_) =>
    case TakeRejection(_) =>
    case StopFromFrame(_) =>
    case Complete(_) =>
    case RequestStop =>
    case JoinSources =>
    case JoinExecutor =>
    case _ =>
  }

  lemma StepCountsReceived(c: Config, s: State, a: Action, source: nat)
    requires Enabled(c, s, a)
    ensures Value(Next(c, s, a), ReceivedFrom(source)) ==
            Value(s, ReceivedFrom(source)) + (if Counts(ReceivedFrom(source), a) then 1 else 0)
  {
    if a.Receive? {
      ReceiveCounts(c, s, a.origin, a.good);
    } else if a.CountDropped? {
      DropCounts(c, s, a.ticket);
    } else {
      OthersCountNoSource(c, s, a);
    }
  }

  lemma StepCountsDropped(c: Config, s: State, a: Action, source: nat)
    requires Enabled(c, s, a)
    ensures Value(Next(c, s, a), DroppedFrom(source)) ==
            Value(s, DroppedFrom(source)) + (if Counts(DroppedFrom(source), a) then 1 else 0)
  {
    if a.Receive? {
      ReceiveCounts(c, s, a.origin, a.good);
    } else if a.CountDropped? {
      DropCounts(c, s, a.ticket);
    } else {
      OthersCountNoSource(c, s, a);
    }
  }

  lemma ReceiveCounts(c: Config, s: State, origin: nat, good: bool)
    requires Enabled(c, s, Receive(origin, good))
    ensures
      var m, n := s.summary, Next(c, s, Receive(origin, good)).summary;
      && n.receivedPerSource == m.receivedPerSource[origin := m.receivedPerSource[origin] + 1]
      && n.droppedPerSource == m.droppedPerSource
  {
  }

  lemma DropCounts(c: Config, s: State, t: Ticket)
    requires Enabled(c, s, CountDropped(t))
    ensures
      var m, n := s.summary, Next(c, s, CountDropped(t)).summary;
      && n.droppedPerSource == m.droppedPerSource[t.source := m.droppedPerSource[t.source] + 1]
      && n.receivedPerSource == m.receivedPerSource
  {
  }

  lemma OthersCountNoSource(c: Config, s: State, a: Action)
    requires Enabled(c, s, a) && !a.Receive? && !a.CountDropped?
    ensures
      var m, n := s.summary, Next(c, s, a).summary;
      n.receivedPerSource == m.receivedPerSource && n.droppedPerSource == m.droppedPerSource
  {
    match a
    case CountFailure(_) =>
    case Accept(_) =>
    case ReportFull(_) =>
    case Reject(_) =>
    case CountSubmitted(_) =>
    case TakeRejection(_) =>
    case StopFromFrame(_) =>
    case Complete(_) =>
    case RequestStop =>
    case JoinSources =>
    case JoinExecutor =>
    case _ =>
  }

  /** Over every run each counter, in total and by source, rises by the number of its own calls. */
  lemma {:induction false} CountersCountCalls(c: Config, s: State, run: seq<Action>, counter: Counter)
    requires ValidRun(c, s, run)
    ensures Value(After(c, s, run), counter) == Value(s, counter) + Times(run, counter)
    decreases |run|
  {
    if run != [] {
      StepCounts(c, s, run[0], counter);
      CountersCountCalls(c, Next(c, s, run[0]), run[1..], counter);
    }
  }

  // ---------------------------------------------------------------- the stop

  ghost predicate CountReached(c: Config, s: State) {
    c.frameCount.Some? && s.summary.received > 0 && s.summary.received >= c.frameCount.value
  }

  /** What makes the session stop itself. */
  ghost predicate Reason(c: Config, s: State) {
    CountReached(c, s) || s.refused > 0 || (c.stopOnFailure && s.summary.sourceFailures > 0)
  }

  ghost predicate ReasonInv(c: Config, s: State, asked: bool) {
    && (s.stopRequested || s.stopping != multiset{} ==> asked || Reason(c, s))
    && (asked ==> s.stopRequested)
    && (c.stopOnFailure && s.summary.sourceFailures > 0 ==> s.stopRequested || s.stopping != multiset{})
    && (forall t :: t in Inside(s) && t.reached ==> CountReached(c, s))
  }

  lemma StepKeepsReason(c: Config, s: State, a: Action, asked: bool)
    requires StopInv(c, s) && ReasonInv(c, s, asked) && Enabled(c, s, a)
    ensures ReasonInv(c, Next(c, s, a), asked || a == RequestStop)
  {
    if a.CountFailure? || a.CountSubmitted? || a.CountDropped? || a.TakeRejection? {
      CountingKeepsReason(c, s, a, asked);
    } else if a.Accept? || a.ReportFull? || a.Reject? {
      MovesKeepReason(c, s, a, asked);
    } else if a.Receive? {
      ReceiveKeepsReason(c, s, a.origin, a.good, asked);
    } else if a.StopFromFrame? {
      StopKeepsReason(c, s, a.ticket, asked);
    } else {
      assert Inside(Next(c, s, a)) == Inside(s);
    }
  }

  lemma MovesKeepReason(c: Config, s: State, a: Action, asked: bool)
    requires ReasonInv(c, s, asked) && Enabled(c, s, a) && (a.Accept? || a.ReportFull? || a.Reject?)
    ensures ReasonInv(c, Next(c, s, a), asked)
  {
    MovesStayInside(c, s, a);
    assert Next(c, s, a).stopping == s.stopping;
  }

  lemma CountingKeepsReason(c: Config, s: State, a: Action, asked: bool)
    requires StopInv(c, s) && ReasonInv(c, s, asked) && Enabled(c, s, a)
    requires a.CountFailure? || a.CountSubmitted? || a.CountDropped? || a.TakeRejection?
    ensures ReasonInv(c, Next(c, s, a), asked)
  {
    var q := Next(c, s, a);
    CountingInside(c, s, a);
    CountingStops(c, s, a);
    assert a.ticket in Inside(s);
    assert Reason(c, s) ==> Reason(c, q);
    forall t | t in Inside(q) && t.reached
      ensures CountReached(c, q)
    {
      assert t in Inside(s);
    }
    if s.stopping != multiset{} {
      var u :| u in s.stopping;
      assert u in q.stopping;
    }
  }

  /** A counting step sends its frame on to the stop exactly if the count is full or its own branch says so. */
  lemma CountingStops(c: Config, s: State, a: Action)
    requires Enabled(c, s, a) && (a.CountFailure? || a.CountSubmitted? || a.CountDropped? || a.TakeRejection?)
    ensures
      var stop := a.ticket.reached || (a.CountFailure? && c.stopOnFailure) || (a.TakeRejection? && !s.stopRequested);
      Next(c, s, a).stopping == if stop then s.stopping + multiset{a.ticket} else s.stopping
    ensures Next(c, s, a).stopRequested == s.stopRequested && Next(c, s, a).summary.received == s.summary.received
    ensures Next(c, s, a).refused == s.refused + (if a.TakeRejection? then 1 else 0)
    ensures Next(c, s, a).summary.sourceFailures == s.summary.sourceFailures + (if a.CountFailure? then 1 else 0)
  {
    match a
    case CountFailure(_) =>
    case CountSubmitted(_) =>
    case CountDropped(_) =>
    case TakeRejection(_) =>
    case _ =>
  }

  lemma ReceiveKeepsReason(c: Config, s: State, source: nat, good: bool, asked: bool)
    requires ReasonInv(c, s, asked) && Enabled(c, s, Receive(source, good))
    ensures ReasonInv(c, Next(c, s, Receive(source, good)), asked)
  {
    var q := Next(c, s, Receive(source, good));
    ReceivedInside(c, s, source, good);
    assert Reason(c, s) ==> Reason(c, q);
  }

  lemma StopKeepsReason(c: Config, s: State, t: Ticket, asked: bool)
    requires StopInv(c, s) && ReasonInv(c, s, asked) && t in s.stopping
    ensures ReasonInv(c, Next(c, s, StopFromFrame(t)), asked)
  {
    TakenOut(s.stopping, t);
    var q := Next(c, s, StopFromFrame(t));
    assert Inside(s) == Inside(q) + multiset{t};
    assert forall u :: u in Inside(q) ==> u in Inside(s);
  }

  lemma {:induction false} RunKeepsReason(c: Config, s: State, run: seq<Action>, asked: bool)
    requires StopInv(c, s) && ReasonInv(c, s, asked) && ValidRun(c, s, run)
    ensures StopInv(c, After(c, s, run)) && ReasonInv(c, After(c, s, run), asked || RequestStop in run)
    decreases |run|
  {
    if run != [] {
      StopKept(c, s, run[0]);
      StepKeepsReason(c, s, run[0], asked);
      RunKeepsReason(c, Next(c, s, run[0]), run[1..], asked || run[0] == RequestStop);
      FirstOrLater(run, RequestStop);
    }
  }

  lemma FirstOrLater(run: seq<Action>, a: Action)
    requires run != []
    ensures a in run <==> run[0] == a || a in run[1..]
  {
    assert run == [run[0]] + run[1..];
  }

  /**
    Over every run, once the frames received have left `onFrame`: the session has stopped if and only if
    `requestStop` was called, the frame count was reached, the executor refused a frame for good, or a
    source failed and the session is one that stops on failures.
   */
  lemma StopsIffThereIsAReason(c: Config, run: seq<Action>)
    requires ValidRun(c, Init(c), run) && Inside(After(c, Init(c), run)) == multiset{}
    ensures
      var t := After(c, Init(c), run);
      t.stopRequested <==> RequestStop in run || Reason(c, t)
  {
    ZerosSum(c.sources);
    RunKeepsReason(c, Init(c), run, false);
    NobodyInside(After(c, Init(c), run));
  }

  // ---------------------------------------------------------------- a frame goes through

  lemma Before(c: Config, s: State, a: Action, rest: seq<Action>) returns (run: seq<Action>)
    requires Enabled(c, s, a) && ValidRun(c, Next(c, s, a), rest)
    ensures ValidRun(c, s, run) && After(c, s, run) == After(c, Next(c, s, a), rest) && run == [a] + rest
  {
    run := [a] + rest;
    assert run[1..] == rest;
  }

  /** Until the sources are joined, a good frame of any source can be received, submitted and completed. */
  lemma FrameGoesThrough(c: Config, s: State, source: nat, succeeded: bool) returns (run: seq<Action>)
    requires Reachable(c, s) && !s.sourcesJoined && source < c.sources
    ensures ValidRun(c, s, run) && |run| == 4
    ensures run[0] == Receive(source, true) && run[1].Accept? && run[2].CountSubmitted? && run[3] == Complete(succeeded)
  {
    ReachableInv(c, s);
    var t := ReceivedIsSubmitting(c, s, source);
    var s1 := Next(c, s, Receive(source, true));
    var rest := SubmittedGoesThrough(c, s1, t, succeeded);
    run := Before(c, s, Receive(source, true), rest);
  }

  lemma ReceivedIsSubmitting(c: Config, s: State, source: nat) returns (t: Ticket)
    requires CountsInv(c, s) && StopInv(c, s) && !s.sourcesJoined && source < c.sources
    ensures Enabled(c, s, Receive(source, true)) && t in Next(c, s, Receive(source, true)).submitting
    ensures !Next(c, s, Receive(source, true)).finished
  {
    t := Ticket(source, c.frameCount.Some? && s.summary.received + 1 >= c.frameCount.value);
  }

  lemma SubmittedGoesThrough(c: Config, s: State, t: Ticket, succeeded: bool) returns (run: seq<Action>)
    requires t in s.submitting && !s.finished
    ensures ValidRun(c, s, run) && run == [Accept(t), CountSubmitted(t), Complete(succeeded)]
  {
    var s1 := Next(c, s, Accept(t));
    assert t in s1.accepted;
    var s2 := Next(c, s1, CountSubmitted(t));
    assert s2.outstanding == s.outstanding + 1 && !s2.finished;
    var none: seq<Action> := [];
    run := Before(c, s2, Complete(succeeded), none);
    run := Before(c, s1, CountSubmitted(t), run);
    run := Before(c, s, Accept(t), run);
  }

  /** A stopped session whose sources are quiet can be waited for to the end, and not before its stop. */
  lemma WaitReturns(c: Config, s: State) returns (run: seq<Action>)
    requires Reachable(c, s) && Inside(s) == multiset{} && s.stopRequested
    ensures ValidRun(c, s, run) && After(c, s, run).finished
    ensures After(c, s, run).summary == s.summary
  {
    var none: seq<Action> := [];
    var s1 := Next(c, s, JoinSources);
    run := Before(c, s1, JoinExecutor, none);
    run := Before(c, s, JoinSources, run);
  }
}
