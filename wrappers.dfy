/** The optional-value and result wrappers used throughout the model. */
module Wrappers {

  /** An optional value: the model's `undefined` / absent key. */
  datatype Option<+T> = None | Some(value: T) {
    function GetOr(default: T): T {
      match this
      case Some(v) => v
      case None => default
    }
  }

  /** A computation that either produced a value or threw an error. */
  datatype Result<+T, +E> = Ok(value: T) | Err(error: E)
}
