/** Failure-carrying values used throughout the model. */
module Wrappers {

  /** A value that may be absent (JavaScript's `undefined`/`null`, or an absent callback error). */
  datatype Option<+T> = None | Some(value: T)

  /** The outcome of a fallible step: a value, or the error it was rejected with. */
  datatype Result<+T, +E> = Ok(value: T) | Err(error: E)
}
