/** Failure-carrying values shared by every module of the model. */
module Wrappers {

  /** A value that may be absent (a JavaScript `undefined`). */
  datatype Option<+T> = None | Some(value: T)

  /** A value or the error that replaced it (a resolved or a rejected promise). */
  datatype Result<+T, +E> = Ok(value: T) | Err(error: E)

  /** The outcome of an operation that returns nothing but may throw. */
  datatype Outcome<+E> = Pass | Fail(error: E)
}
