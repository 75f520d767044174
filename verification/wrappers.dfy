/** Failure-carrying values shared by the whole model. */
module Wrappers {

  /** A value that may be absent; for the server an absent error means success. */
  datatype Option<+T> = None | Some(value: T)

  /** The outcome of an abstract external call: a value, or the error it reported. */
  datatype Result<+T, +E> = Ok(value: T) | Err(error: E)
}
