/** Option and Result, the shapes of Rust's `Option<T>` and `Result<T, String>`. */
module Wrappers {

  datatype Option<+T> = None | Some(value: T)

  /** A fallible result; every error of the modelled code is a human-readable string. */
  datatype Result<+T> = Ok(value: T) | Err(error: string)

  /** Rust's unit type `()`, the success value of operations that only have effects. */
  datatype Unit = Unit
}
