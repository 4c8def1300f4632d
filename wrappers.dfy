/** Rust's `Option<T>` and `Result<T, E>`, with Rust's constructor names. */
module Wrappers {

  datatype Option<+T> = None | Some(value: T)

  datatype Result<+T, +E> = Ok(value: T) | Err(error: E)
}
