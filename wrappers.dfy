/** The Option and Result datatypes shared by every module of the model. */
module Wrappers {

  datatype Option<+T> = None | Some(value: T)

  /** The outcome of a call that may throw: a value, or the message of the thrown error. */
  datatype Result<+T, +E> = Ok(value: T) | Err(error: E)
}
