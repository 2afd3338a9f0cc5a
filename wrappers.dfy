/** Option and Result: the model's rendering of Go's `(value, error)` returns. */
module Wrappers {

  datatype Option<+T> = None | Some(value: T)

  /** Success carries the value of a call whose error was nil; Failure carries the error. */
  datatype Result<+T, +E> = Success(value: T) | Failure(error: E)
}
