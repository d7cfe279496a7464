/** Failure-carrying values: Python's None, return values and caught exceptions. */
module Wrappers {

  /** A Python `Optional[T]`: `None` or a present value. */
  datatype Option<+T> = None | Some(value: T)

  /** The result of a call that either returns a value or raises an error. */
  datatype Result<+T, +E> = Success(value: T) | Failure(error: E)

  /** The result of a call that returns nothing or raises an error. */
  datatype Outcome<+E> = Pass | Fail(error: E)
}
