/** Failure-compatible wrappers used across the model: Python's `None`-or-value
    fields and the exceptions the source raises become these values. */
module Wrappers {

  datatype Option<+T> = None | Some(value: T)

  /** The outcome of an operation that either completes or raises. */
  datatype Outcome<+E> = Pass | Fail(error: E)

  datatype Result<+T, +E> = Success(value: T) | Failure(error: E)
}
