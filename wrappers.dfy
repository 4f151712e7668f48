/** Optional values, fallible results and pass/fail outcomes, as the verifier's
    inputs and its verdict use them. */
module Wrappers {

  /** Rust's `Option<T>`. */
  datatype Option<+T> = None | Some(value: T)

  /** Rust's `Result<T, E>`. */
  datatype Result<+T, +E> = Ok(value: T) | Err(error: E)

  /** Rust's `Result<(), E>`: a check either passes or fails with an error. */
  datatype Outcome<+E> = Pass | Fail(error: E)
}
