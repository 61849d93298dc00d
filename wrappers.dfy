/** Option and Result, the failure-carrying values used throughout the model. */
module Wrappers {

  /** `undefined` (None) or a present value (Some). */
  datatype Option<+T> = None | Some(value: T)

  /** The value of a call that either returns (Ok) or throws (Err). */
  datatype Result<+T, +E> = Ok(value: T) | Err(error: E)
}
