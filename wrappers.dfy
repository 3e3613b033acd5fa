/** Optional values and fallible results, as the Rust source uses `Option` and `Result<_, &'static str>`. */
module Wrappers {

  datatype Option<+T> = None | Some(value: T)

  /** A result whose error is a fixed human-readable message. */
  datatype Result<+T> = Ok(value: T) | Err(error: string)
}
