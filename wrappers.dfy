/** Option and Result, used by the KickServer model. */
module Wrappers {

  /** A value that may be absent: JavaScript's `undefined`, a regex miss, a missing field. */
  datatype Option<+T> = None | Some(value: T)

  /** The outcome of an operation that may throw. */
  datatype Result<+T, +E> = Ok(value: T) | Err(error: E)
}
