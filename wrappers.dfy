/** Option and Result, the failure-carrying datatypes every other module uses. */
module Wrappers {

  /** A value that may be absent: JavaScript's `undefined`/`null`, Java's `null` or an empty `Optional`. */
  datatype Option<+T> = None | Some(value: T) {
    function GetOr(default: T): T {
      match this
      case Some(v) => v
      case None => default
    }
  }

  /** Either a value or the error that was raised (a thrown exception or an error response). */
  datatype Result<+T, +E> = Ok(value: T) | Err(error: E) {
    predicate IsFailure() {
      Err?
    }
  }
}
