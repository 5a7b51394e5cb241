/** Small failure-compatible datatypes shared by the other modules. */
module Wrappers {

  /** A value that may be absent (a Go `ok` flag or a nil pointer). */
  datatype Option<+T> = None | Some(value: T)

  /** A value or an error (a Go `(value, error)` pair where exactly one side is meaningful). */
  datatype Result<+R, +E> = Success(value: R) | Failure(error: E)
}
