/** Failure-carrying wrappers used throughout the model. */
module Wrappers {

  /** An optional value: Python's `None` or a present value. */
  datatype Option<+T> = None | Some(value: T)

  /** The outcome of an operation that may raise: a value or the error raised. */
  datatype Result<+R, +E> = Success(value: R) | Failure(error: E)
}
