/** Option and result types shared by the modules of this model. */
module Wrappers {

  /** A value that may be missing. */
  datatype Option<+T> = None | Some(value: T)

  /** The result of an operation that either produces a value or throws. */
  datatype Result<+T, +E> = Success(value: T) | Failure(error: E)

  /** The outcome of an operation that either completes or throws, with no value. */
  datatype Outcome<+E> = Pass | Fail(error: E)
}
