/** Option and Result values used across the model for the source's `None` and exceptions. */
module Wrappers {

  datatype Option<+T> = None | Some(value: T)

  /** A call that either returns a value or raises the error it carries. */
  datatype Result<+R, +E> = Ok(value: R) | Err(error: E)
}
