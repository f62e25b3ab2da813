/** Option and Result, shared by every module of the model. */
module Wrappers {

  datatype Option<+T> = None | Some(value: T)

  /** The outcome of an operation that either computes a value or raises. */
  datatype Result<+T, +E> = Ok(value: T) | Err(error: E)
}
