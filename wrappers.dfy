/** Option and Result values standing in for the source's `undefined` and thrown errors. */
module Wrappers {

  datatype Option<+T> = None | Some(value: T) {
    function GetOr(default: T): T {
      match this
      case Some(v) => v
      case None => default
    }
  }

  datatype Result<+T, +E> = Ok(value: T) | Err(error: E)

  /** Result of an operation that returns nothing on success. */
  datatype Outcome<+E> = Pass | Fail(error: E)
}
