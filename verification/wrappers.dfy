/** Failure-carrying datatypes used in place of Python's `None` and exceptions. */
module Wrappers {

  /** A value that may be absent (a missing dictionary key, an unresolved channel). */
  datatype Option<T> = None | Some(value: T)

  /** Either a value or the message of the exception the source would have raised. */
  datatype Result<T, E> = Success(value: T) | Failure(error: E)
}
