/** Optional values and error-or-value results, standing for Go's nil pointers and
    (value, error) returns. */
module Wrappers {

  datatype Option<+T> = None | Some(value: T)

  /** A Go `(T, error)` pair where exactly one side is meaningful. */
  datatype Result<+T> = Ok(value: T) | Err(msg: string)
}
