/** Optional values and results, the two failure shapes the model uses. */
module Wrappers {

  /** A value that may be absent (Go's nil interface or nil error). */
  datatype Option<+T> = None | Some(value: T)

  /** The outcome of an external call that either yields a value or fails
      with the text of a Go `error`. */
  datatype Result<+T> = Ok(value: T) | Err(error: string)
}
