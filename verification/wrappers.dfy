/** Option and Result, the two failure-carrying shapes the rest of the model uses
    in place of Go's `nil` and its `(value, error)` return pairs. */
module Wrappers {

  /** A value that may be absent. */
  datatype Option<+T> = None | Some(value: T)

  /** Either a value or the text of the error that replaced it. */
  datatype Result<+T, +E> = Ok(value: T) | Err(error: E)
}
