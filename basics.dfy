/** Option and Result, the two failure-carrying shapes the registry uses. */
module Basics {

  datatype Option<T> = None | Some(value: T)

  /** Rust's `Result<T, E>`: `Ok(v)` or `Err(e)`. */
  datatype Result<T, E> = Ok(value: T) | Err(error: E)
}
