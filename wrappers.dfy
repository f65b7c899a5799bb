/** Option and Result: absent values (JS `null`/`undefined`) and thrown errors. */
module Wrappers {

  datatype Option<+T> = None | Some(value: T) {
    /** The value, or `default` when absent (JS `x ?? default`, `x || default` for non-empty values). */
    function GetOr(default: T): T {
      match this
      case Some(v) => v
      case None => default
    }
  }

  /** `Err` models an exception thrown by the operation; the carried value is its message or kind. */
  datatype Result<+T, +E> = Ok(value: T) | Err(error: E)
}
