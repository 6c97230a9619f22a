/** Option and Result, the failure-carrying values used by the Ball2 model. */
module Wrappers {

  datatype Option<+T> = None | Some(value: T)

  /** Ok carries a value; Err carries the reason a raised exception stands for. */
  datatype Result<+T, +E> = Ok(value: T) | Err(error: E)
}
