/** Optional values and results carrying a driver's integer error code. */
module Wrappers {

  datatype Option<T> = None | Some(value: T)

  /** A driver computation that either succeeds or returns the C error code `code`. */
  datatype Result<T> = Ok(value: T) | Err(code: int)
}
