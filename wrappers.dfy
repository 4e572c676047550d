/** Failure-carrying values shared by every module of the model. */
module Wrappers {

  datatype Option<+T> = None | Some(value: T)

  /** The result of an operation that the source ends with an exception on failure. */
  datatype Result<+T, +E> = Ok(value: T) | Err(error: E)
}
