/** Optional values and operation results. */
module Wrappers {

  datatype Option<+T> = None | Some(value: T)

  /** A Go `(value, error)` pair: exactly one of the two is meaningful. */
  datatype Result<+T, +E> = Ok(value: T) | Err(error: E)

  /** A Go `error` return: nil or an error. */
  datatype Outcome<+E> = Done | Failed(error: E)
}
