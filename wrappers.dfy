/** Failure-carrying wrappers: the model's stand-ins for Go's nil pointers and (value, error) pairs. */
module Wrappers {

  /** A Go pointer field: None is nil. */
  datatype Option<+T> = None | Some(value: T)

  /** A Go `(value, error)` return: exactly one of the two is meaningful. */
  datatype Result<+T, +E> = Success(value: T) | Failure(error: E)

  /** A Go `error` return with no value: Pass is a nil error. */
  datatype Outcome<+E> = Pass | Fail(error: E)
}
