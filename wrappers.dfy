/** Option and Result values shared by the model's modules. */
module Wrappers {

  /** A value that may be absent, as Python's `None`. */
  datatype Option<+T> = None | Some(value: T)

  /** Either a value or the error that was raised in its place. */
  datatype Result<+T, +E> = Ok(value: T) | Err(error: E)
}
