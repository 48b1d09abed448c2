/** Failure-carrying result types shared by the model. */
module Wrappers {

  /** A value that may be absent (an `undefined` return, a missing map entry). */
  datatype Option<+T> = None | Some(value: T)

  /** The result of an operation that may throw: the value, or the error it raises. */
  datatype Result<+T, +E> = Ok(value: T) | Err(error: E)
}
