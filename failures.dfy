/** Failure values that stand for the C++ exceptions of the library: an
    operation that throws in the original returns a Failure (or Fail) here. */
module Failures {

  /** The value of an operation that either produces a result or fails. */
  datatype Result<+T, +E> = Success(value: T) | Failure(error: E)

  /** The outcome of an operation that produces nothing but may fail. */
  datatype Outcome<+E> = Pass | Fail(error: E)
}
