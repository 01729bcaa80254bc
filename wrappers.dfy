/** The two failure-carrying values the model uses: `Option` for Rust's `Option`
    and `Result` for a constructor whose assertions may fail. */
module Wrappers {

  datatype Option<+T> = None | Some(value: T)

  datatype Result<+T, +E> = Ok(value: T) | Err(error: E)
}
