/** Option and Result values shared by every module of the model. */
module Wrappers {

  /** A value that may be missing (Python's None, Rust's Option). */
  datatype Option<+T> = None | Some(value: T)

  /** The value of a step that may raise or return an error instead. */
  datatype Result<+T, +E> = Ok(value: T) | Err(error: E)
}
