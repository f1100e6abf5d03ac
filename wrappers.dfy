/** Failure-carrying result types shared by every component of the model. */
module Wrappers {

  /** A value that may be absent (a Go nil pointer or a missing map entry). */
  datatype Option<+T> = None | Some(value: T)

  /** A value or an error (a Go `(T, error)` pair where exactly one is meaningful). */
  datatype Result<+T, +E> = Success(value: T) | Failure(error: E)

  /** Success without a value, or an error (a Go function returning only `error`). */
  datatype Outcome<+E> = Pass | Fail(error: E)
}
