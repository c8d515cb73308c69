/** Failure-carrying values used across the model in place of Go's `(value, error)` pairs. */
module Wrappers {

  datatype Option<+T> = None | Some(value: T)

  /** `Ok(v)` is a nil Go error with result `v`; `Err(msg)` carries the error's text. */
  datatype Result<+T> = Ok(value: T) | Err(msg: string)
}
