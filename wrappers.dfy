/** Failure-compatible wrappers used throughout the model: PHP's nullable
    returns become Option, and a call that may throw becomes Result or Outcome. */
module Wrappers {

  /** A nullable value: `?T` in the PHP signatures. */
  datatype Option<+T> = None | Some(value: T)

  /** A call that either returns a value or throws. */
  datatype Result<+T, +E> = Success(value: T) | Failure(error: E)

  /** A `void` call that either completes or throws. */
  datatype Outcome<+E> = Pass | Fail(error: E)
}
