/** Option and Result, the stock failure-carrying datatypes the rest of the model uses. */
module Wrappers {

  /** A value that may be absent: a JavaScript `null` or `undefined` is `None`. */
  datatype Option<+T> = None | Some(value: T)

  /** The outcome of an operation that can throw: `Failure` carries the thrown message. */
  datatype Result<+R, +E> = Success(value: R) | Failure(error: E)
}
