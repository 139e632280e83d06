/** Option and Result datatypes used for the JavaScript values that may be
    absent (`undefined` or `null`) and for the thrown error of a request. */
module Wrappers {

  /** A value that may be missing; `None` stands for both `undefined` and `null`. */
  datatype Option<+T> = None | Some(value: T)

  /** The outcome of an operation that either returns a value or throws. */
  datatype Result<+R, +E> = Success(value: R) | Failure(error: E)
}
