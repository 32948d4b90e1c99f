/** Optional values and results, shaped like the Rust `Option` and `Result` the system uses. */
module Wrappers {

  datatype Option<+T> = None | Some(value: T)

  datatype Result<+T, +E> = Ok(value: T) | Err(error: E)
}
