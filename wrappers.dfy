/** Option and Result datatypes used throughout the model in place of PHP's
    `null` values and thrown exceptions. */
module Wrappers {

  datatype Option<+T> = None | Some(value: T)

  /** The outcome of an operation that either returns a value or throws. */
  datatype Result<+T, +E> = Success(value: T) | Failure(error: E)

  /** The outcome of a check that returns nothing on success and throws on failure. */
  datatype Check<+E> = Pass | Fail(error: E)
}
