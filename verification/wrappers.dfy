/** Option and Result, for the source's nulls and exceptions. */
module Wrappers {

  /** A value that may be absent: C#'s null. */
  datatype Option<+T> = None | Some(value: T)

  /** A value or the exception that was thrown instead. */
  datatype Result<+T, +E> = Success(value: T) | Failure(error: E)
}
