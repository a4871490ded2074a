/** Result and Outcome wrappers for the error returns of the Go code. */
module Wrappers {

  /** A value or the error that prevented it, like Go's `(T, error)` pair. */
  datatype Result<+T, +E> = Success(value: T) | Failure(error: E)

  /** Success or an error, like a Go function that returns only `error`. */
  datatype Outcome<+E> = Pass | Fail(error: E)
}
