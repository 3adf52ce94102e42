/** Failure-carrying values used in place of Python's None returns and raised exceptions. */
module Wrappers {

  datatype Option<+T> = None | Some(value: T)

  /** A computation that either produces a value or raises an exception with a message. */
  datatype Result<+T> = Success(value: T) | Failure(error: string)
}
