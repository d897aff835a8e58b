/** Optional values and results with an error, shared by the other modules. */
module Wrappers {

  /** A value that may be absent (Go's `ok` flag or a nil interface). */
  datatype Option<+T> = None | Some(value: T)

  /** A value or the error that replaced it (Go's `(T, error)` pair). */
  datatype Result<+T, +E> = Success(value: T) | Failure(error: E)
}
