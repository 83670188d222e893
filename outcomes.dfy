/** Failure-carrying results shared by the server modules. */
module Outcomes {

  datatype Option<+T> = None | Some(value: T)

  /** The outcome of a step that either produces a value or fails with an error value. */
  datatype Result<+T, +E> = Success(value: T) | Failure(error: E)
}
