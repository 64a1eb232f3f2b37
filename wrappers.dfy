/** The optional-value and result types used across the model. */
module Wrappers {

  /** An optional value: a pointer that may be nil, a map entry that may be absent. */
  datatype Option<+T> = None | Some(value: T)

  /** A value or an error, the model of Go's `(T, error)` pair. */
  datatype Result<+T, +E> = Success(value: T) | Failure(error: E)
}
