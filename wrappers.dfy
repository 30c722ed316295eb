/** Failure-carrying values: the source's `None` and its raised exceptions. */
module Wrappers {

  /** A Python value that may be `None`. */
  datatype Option<+T> = None | Some(value: T)

  /** A computation that yields a value or raises an error. */
  datatype Result<+T, +E> = Success(value: T) | Failure(error: E)

  /** A statement that completes normally or raises an error. */
  datatype Outcome<+E> = Pass | Fail(error: E)
}
