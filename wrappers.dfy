/** Option and Result, the two failure-carrying datatypes the rest of the model uses. */
module Wrappers {

  /** A value that may be missing (JavaScript's `null`/`undefined` in a typed position). */
  datatype Option<+T> = None | Some(value: T)

  /** The outcome of an operation that can throw: its value, or the thrown error. */
  datatype Result<+T, +E> = Ok(value: T) | Err(error: E)
}
