/** Failure-carrying values used in place of the planner's exceptions. */
module Wrappers {

  datatype Option<+T> = None | Some(value: T)

  /** The outcome of an operation that either produces a value or raises an error. */
  datatype Result<+T, +E> = Success(value: T) | Failure(error: E)

  /** The outcome of a check that produces nothing but may raise an error. */
  datatype Outcome<+E> = Pass | Fail(error: E)
}
