/** Optional values and success/failure outcomes shared by every module. */
module Wrappers {

  /** A value that may be absent: JavaScript's `null` for a typed field. */
  datatype Option<+T> = None | Some(value: T)

  /** The outcome of an expression that may throw: `Err` carries what was thrown. */
  datatype Result<+T, +E> = Ok(value: T) | Err(error: E)
}
