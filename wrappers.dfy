/** Optional values and fallible results, as the bot's Rust code uses `Option` and `anyhow::Result`. */
module Wrappers {

  datatype Option<T> = None | Some(value: T)

  /** A result whose error is the message text carried by an `anyhow` context. */
  datatype Result<T> = Ok(value: T) | Err(error: string)
}
