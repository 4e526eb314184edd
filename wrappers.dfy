/** Optional values and outcomes that may carry a Python exception. */
module Wrappers {

  datatype Option<T> = None | Some(value: T)

  /** A Python call that either returns a value or raises; the error names the exception. */
  datatype Result<T> = Ok(value: T) | Err(error: string)
}
