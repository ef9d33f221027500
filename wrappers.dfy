/** Failure-carrying result types shared by the other modules. */
module Wrappers {

  datatype Option<+T> = None | Some(value: T)

  /** A value, or the exception the operation raised instead. */
  datatype Result<+T, +E> = Success(value: T) | Failure(error: E)

  /** Success without a value (a Python method returning None), or an exception. */
  datatype Outcome<+E> = Pass | Fail(error: E)
}
