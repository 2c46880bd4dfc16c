/** Option and Result, the two failure-carrying types the parsers return. */
module Wrappers {

  datatype Option<+T> = None | Some(value: T)

  /** Rust's `Result<T, &'static str>`: a value or a fixed error text. */
  datatype Result<+T, +E> = Ok(value: T) | Err(error: E)
}
