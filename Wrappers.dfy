/** Option and Result, the two failure-carrying shapes the model uses. */
module Wrappers {

  /** A value that may be absent (`undefined`/`null` in the source). */
  datatype Option<+T> = None | Some(value: T)

  /** An action outcome: a success payload or a typed error. */
  datatype Result<+R, +E> = Ok(value: R) | Err(error: E)
}
