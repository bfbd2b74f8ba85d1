/** Failure-carrying values shared by the renderer and GUI modules. */
module Wrappers {

  /** An optional value: the model of Rust's `Option<T>`. */
  datatype Option<+T> = None | Some(value: T)

  /** A value or an error: the model of Rust's `Result<T, E>`. */
  datatype Result<+T, +E> = Ok(value: T) | Err(error: E)
}
