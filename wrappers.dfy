/** Failure-compatible wrappers used throughout the model. */
module Wrappers {

  /** An optional value; `None` is Rust's `Option::None`. */
  datatype Option<+T> = None | Some(value: T)

  /** A value or an error; used where the source panics on failure. */
  datatype Result<+T, +E> = Ok(value: T) | Err(error: E)
}
