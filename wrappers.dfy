/** Small failure-carrying datatypes shared by the whole model. */
module Wrappers {

  /** A value that may be absent: JavaScript's `undefined` / `null`. */
  datatype Option<+T> = None | Some(value: T) {

    /** The value, or `default` when absent (a destructuring default such as `{ page = 1 }`). */
    function GetOr(default: T): T {
      match this
      case Some(v) => v
      case None => default
    }
  }

  /** The abstract result of one HTTP call: the response payload, or a rejected promise. */
  datatype Outcome<+T> = Success(payload: T) | Failure

  /** A computation that either returns a value or throws an error message. */
  datatype Result<+T, +E> = Ok(value: T) | Err(error: E)
}
