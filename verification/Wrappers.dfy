/** The two failure-carrying datatypes used by every module of the model. */
module Wrappers {

  /** A value that may be absent: a nil reference or a missing map entry. */
  datatype Option<+T> = None | Some(value: T)

  /** The outcome of an operation that may return an error. */
  datatype Result<+T, +E> = Ok(value: T) | Err(error: E)
}
