/** Failure-carrying result types shared by the executor and the pipelines. */
module Wrappers {

  datatype Option<+T> = None | Some(value: T)

  /** A value on success, an error otherwise (a Python function that returns or raises). */
  datatype Result<+R, +E> = Success(value: R) | Failure(error: E)

  /** Success without a value, or an error (a Python function that returns None or raises). */
  datatype Outcome<+E> = Pass | Fail(error: E)
}
