/** Option and Result, used for absent values and for operations that fail. */
module Wrappers {

  /** An absent value (JavaScript `null`) is `None`. */
  datatype Option<+T> = None | Some(value: T)

  /** The outcome of an operation that either yields a value or fails with an error. */
  datatype Result<+R, +E> = Success(value: R) | Failure(error: E)
}
