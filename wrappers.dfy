/** Option and Result: the null / exception shapes of the modelled code. */
module Wrappers {

  /** A reference that may be null. */
  datatype Option<+T> = None | Some(value: T) {
    function GetOr(default: T): T {
      match this
      case Some(v) => v
      case None => default
    }
  }

  /** A value, or the exception that the modelled operation raises instead. */
  datatype Result<+T, +E> = Ok(value: T) | Err(error: E)
}
