/**
  The timed trigger source (camera/timedTriggerSource.cpp): a scheduling thread that triggers the
  camera and waits, and the device's own thread that delivers responses, one call at a time. A
  step is one region under the state mutex, one call out of it, or a tick of the clock.
 */
module TimedTrigger {
  import opened Core

  /** The scheduling thread, by the wait or call it is in. */
  datatype Scheduler =
    | AwaitStart
    | Triggering
    | AwaitResponse(since: nat)
    | AwaitCallback
    | Pausing
    | DeliveringError
    | Leaving
    | Done

  /** The device's thread inside onDeviceFrame; `good` tells a frame from an error. */
  datatype Device = Idle | Admitted(good: bool) | InCallback(good: bool) | CallbackReturned(good: bool)

  datatype Config = Config(triggerInterval: nat, responseTimeout: nat)

  /**
    `accepted` holds the times of the accepted frames, `early` how many of them came before the
    first trigger, `triggers` the times triggers were issued; `successes`, `returned` and `errors`
    count callbacks begun, success callbacks returned, and errors begun; `overlap` is set when a
    trigger fails after the device has already reported an error, `overtook` when a trigger is issued
    while the callback of a frame is open. These only record.
   */
  datatype State = State(
    now: nat,
    activated: bool,
    stopRequested: bool,
    responseArrived: bool,
    callbackCompleted: bool,
    terminal: bool,
    responseTime: nat,
    scheduler: Scheduler,
    device: Device,
    accepted: seq<nat>,
    early: nat,
    triggers: seq<nat>,
    successes: nat,
    returned: nat,
    errors: nat,
    overlap: bool,
    overtook: bool
  )

  datatype Action =
    | Tick
    | Activate
    | RequestStop
    | BeginCycle
    | TriggerReturns(succeeded: bool)
    | ResponseSeen
    | TimeOut
    | DeliverError
    | CallbackSeen
    | Leave
    | DeviceCalls(good: bool)
    | CallbackStarts
    | CallbackReturns
    | MarkCompleted

  function Init(): State {
    State(0, false, false, false, false, false, 0, AwaitStart, Idle, [], 0, [], 0, 0, 0, false, false)
  }

  predicate Ending(s: State) { s.stopRequested || s.terminal }

  /** The callback of a frame is open: accepted and not yet marked completed. */
  predicate Busy(s: State) { !s.device.Idle? && s.device.good }

  predicate Enabled(c: Config, s: State, a: Action) {
    match a
    case Tick => true
    case Activate => true
    case RequestStop => true
    case BeginCycle =>
      || (s.scheduler.AwaitStart? && (s.activated || s.stopRequested))
      || (s.scheduler.Pausing? && (Ending(s) || s.now >= s.responseTime + c.triggerInterval))
    case TriggerReturns(_) => s.scheduler.Triggering?
    case ResponseSeen => s.scheduler.AwaitResponse? && (s.responseArrived || Ending(s))
    case TimeOut =>
      s.scheduler.AwaitResponse? && !(s.responseArrived || Ending(s)) && s.now >= s.scheduler.since + c.responseTimeout
    case DeliverError => s.scheduler.DeliveringError?
    case CallbackSeen => s.scheduler.AwaitCallback? && (s.callbackCompleted || s.stopRequested)
    case Leave => s.scheduler.Leaving?
    case DeviceCalls(_) => s.device.Idle?
    case CallbackStarts => s.device.Admitted?
    case CallbackReturns => s.device.InCallback?
    case MarkCompleted => s.device.CallbackReturned?
  }

  function One(b: bool): nat { if b then 1 else 0 }

  function Next(c: Config, s: State, a: Action): State
    requires Enabled(c, s, a)
  {
    match a
    case Tick => s.(now := s.now + 1)
    case Activate => s.(activated := true)
    case RequestStop => s.(stopRequested := true)
    case BeginCycle =>
      if Ending(s) then s.(scheduler := Leaving)
      else s.(responseArrived := false, callbackCompleted := false, responseTime := 0, scheduler := Triggering,
              triggers := s.triggers + [s.now], overtook := s.overtook || Busy(s))
    case TriggerReturns(succeeded) =>
      if !succeeded && !s.responseArrived then
        s.(terminal := true, scheduler := DeliveringError, overlap := s.overlap || s.terminal)
      else s.(scheduler := AwaitResponse(s.now))
    case ResponseSeen => s.(scheduler := if s.stopRequested then Leaving else AwaitCallback)
    case TimeOut => s.(terminal := true, scheduler := DeliveringError)
    case DeliverError => s.(errors := s.errors + 1, scheduler := Leaving)
    case CallbackSeen => s.(scheduler := if Ending(s) then Leaving else Pausing)
    case Leave => s.(scheduler := Done)
    case DeviceCalls(good) =>
      if Ending(s) || (good && s.responseArrived) then s
      else if good then
        s.(responseArrived := true, responseTime := s.now, device := Admitted(true), accepted := s.accepted + [s.now],
           early := s.early + One(s.triggers == []))
      else s.(terminal := true, device := Admitted(false))
    case CallbackStarts =>
      s.(device := InCallback(s.device.good), successes := s.successes + One(s.device.good),
         errors := s.errors + One(!s.device.good))
    case CallbackReturns => s.(device := CallbackReturned(s.device.good), returned := s.returned + One(s.device.good))
    case MarkCompleted => s.(callbackCompleted := true, device := Idle)
  }

  ghost predicate ValidRun(c: Config, s: State, run: seq<Action>)
    decreases |run|
  {
    run == [] || (Enabled(c, s, run[0]) && ValidRun(c, Next(c, s, run[0]), run[1..]))
  }

  ghost function After(c: Config, s: State, run: seq<Action>): State
    requires ValidRun(c, s, run)
    decreases |run|
  {
    if run == [] then s else After(c, Next(c, s, run[0]), run[1..])
  }

  ghost predicate Reachable(c: Config, s: State) {
    exists run :: ValidRun(c, Init(), run) && After(c, Init(), run) == s
  }
}
