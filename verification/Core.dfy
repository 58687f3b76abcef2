/** Values shared by every component: optional values, status codes and results. */
module Core {

  datatype Option<+T> = None | Some(value: T)

  /** The codes an error status can carry. */
  datatype StatusCode =
    | Cancelled
    | InvalidArgument
    | InvalidState
    | NotFound
    | AlreadyExists
    | Unsupported
    | ShapeMismatch
    | ResourceExhausted
    | QueueFull
    | Unavailable
    | DeadlineExceeded
    | DataLoss
    | BackendError
    | Internal

  datatype Status = Status(code: StatusCode, message: string)

  /** A stage either produces a value or reports a status, which later stages pass on unchanged. */
  datatype Result<+T> = Ok(value: T) | Err(status: Status) {
    function PropagateErr<U>(): Result<U>
      requires Err?
    {
      Err(status)
    }
  }
}
