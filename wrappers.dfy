/** Option and Result datatypes shared by the other modules. */
module Wrappers {

  /** An optional value; `None` plays the role of Go's nil error or nil pointer. */
  datatype Option<+T> = None | Some(value: T)

  /** A value or the error that prevented it, as Go's `(T, error)` pairs. */
  datatype Result<+T, +E> = Success(value: T) | Failure(error: E)
}
