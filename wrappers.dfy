/** Failure-carrying wrappers used throughout the model. */
module Wrappers {

  datatype Option<T> = None | Some(value: T)

  datatype Result<R, E> = Success(value: R) | Failure(error: E)

  /** The outcome of an operation that returns nothing (Python's `None`) or raises. */
  datatype Outcome<E> = Pass | Fail(error: E)
}
