/** Failure-carrying values: JavaScript's `null` and thrown errors, made explicit. */
module Wrappers {

  /** A value that may be absent (`null` in the source). */
  datatype Option<+T> = None | Some(value: T) {

    /** The value, or `default` when absent (JavaScript's `x ?? default`). */
    function GetOr(default: T): T {
      match this
      case Some(v) => v
      case None => default
    }
  }

  /** The result of an operation that may throw: `Err` carries the error message. */
  datatype Result<+T> = Ok(value: T) | Err(error: string)
}
