/** Small failure-carrying wrappers used across the model. */
module Options {

  /** A value that may be absent (Rust's `Option`). */
  datatype Option<+T> = None | Some(value: T)

  /** The result of a fallible step that returns nothing (Rust's `Result<(), E>`). */
  datatype Outcome<+E> = Pass | Fail(error: E)

  /** A fallible step that returns a value (Rust's `Result<T, E>`). */
  datatype Result<+T, +E> = Ok(value: T) | Err(error: E)
}
