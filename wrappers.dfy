/** The Option and Result types used across the model. */
module Wrappers {

  /** A value that may be absent (Python's `None`). */
  datatype Option<+T> = None | Some(value: T)

  /** A value or an error, for operations of the source that raise. */
  datatype Result<+R, +E> = Success(value: R) | Failure(error: E)
}
