/** Option and Result, the two failure-carrying wrappers used by the model. */
module Wrappers {

  /** A value that may be absent: a missing key, `undefined`, a `null` return. */
  datatype Option<+T> = None | Some(value: T) {

    /** The value, or `default` when absent. */
    function GetOr(default: T): T {
      match this
      case Some(v) => v
      case None => default
    }
  }

  /** The outcome of an operation that may throw: `Err` carries the error message. */
  datatype Result<+T> = Ok(value: T) | Err(message: string)
}
