/** Option and Result, the two failure-carrying wrappers the rest of the model uses. */
module Wrappers {

  /** Python's `None` or a value. */
  datatype Option<+T> = None | Some(value: T)

  /** A value, or the exception that was raised instead of returning one. */
  datatype Result<+R, +E> = Success(value: R) | Failure(error: E)
}
