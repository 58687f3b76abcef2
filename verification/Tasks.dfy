/** The shared state behind a task handle: its life-cycle state, cancellation flag and promise. */
module Tasks {
  import opened Core

  datatype TaskState = Queued | Running | Completed | Failed | WasCancelled

  datatype Task<R> = Task(state: TaskState, cancelRequested: bool, promise: Option<Result<R>>)

  function NewTask<R>(): Task<R> { Task(Queued, false, None) }

  /** The terminal state that reports `r`. */
  function TerminalFor<R>(r: Result<R>): TaskState {
    if r.Ok? then Completed else if r.status.code.Cancelled? then WasCancelled else Failed
  }

  function MarkRunning<R>(t: Task<R>): Task<R> { t.(state := Running) }

  function RequestCancellation<R>(t: Task<R>): Task<R> { t.(cancelRequested := true) }

  /** `complete` first stores the terminal state ... */
  function StoreTerminal<R>(t: Task<R>, r: Result<R>): Task<R> { t.(state := TerminalFor(r)) }

  /** ... and then sets the promise, which C++ allows only once. */
  function SetPromise<R>(t: Task<R>, r: Result<R>): Task<R>
    requires t.promise.None?
  {
    t.(promise := Some(r))
  }

  /** Both versions of a task have the same promise and the same cancellation flag. */
  ghost predicate SameFlags<R>(before: Task<R>, after: Task<R>) {
    after.promise == before.promise && after.cancelRequested == before.cancelRequested
  }

  class ExecutorTask<R> {
    var state: TaskState
    var cancelRequested: bool
    var promise: Option<Result<R>>

    function Snapshot(): Task<R>
      reads this
    {
      Task(state, cancelRequested, promise)
    }

    constructor ()
      ensures state == Queued && !cancelRequested && promise == None
      ensures Snapshot() == NewTask()
    {
      state, cancelRequested, promise := Queued, false, None;
    }

    method MarkAsRunning()
      modifies this
      ensures state == Running && promise == old(promise) && cancelRequested == old(cancelRequested)
      ensures Snapshot() == MarkRunning(old(Snapshot()))
    {
      state := Running;
    }

    /**
      TaskHandle::cancel: true only for the one call that turns the flag on before the task is
      terminal. It promises nothing about the outcome, which the last stage check decides.
     */
    method Cancel() returns (accepted: bool)
      modifies this
      ensures accepted <==> !old(cancelRequested) && (old(state) == Queued || old(state) == Running)
      ensures cancelRequested <==> old(cancelRequested) || old(state) == Queued || old(state) == Running
      ensures state == old(state) && promise == old(promise)
    {
      if state.Queued? || state.Running? {
        accepted := !cancelRequested;
        cancelRequested := true;
      } else {
        accepted := false;
      }
    }

    method Complete(result: Result<R>)
      requires promise.None?
      modifies this
      ensures promise == Some(result) && cancelRequested == old(cancelRequested)
      ensures state == Completed <==> result.Ok?
      ensures state == WasCancelled <==> result.Err? && result.status.code == Cancelled
      ensures state == Failed <==> result.Err? && result.status.code != Cancelled
      ensures Snapshot() == SetPromise(StoreTerminal(old(Snapshot()), result), result)
    {
      if result.Ok? {
        state := Completed;
      } else if result.status.code.Cancelled? {
        state := WasCancelled;
      } else {
        state := Failed;
      }
      promise := Some(result);
    }
  }
}
