/** The optional value and the result-or-error shared by every module of the model. */
module Wrappers {

  /** A value that may be absent: Go's nil pointer, nil map or nil interface. */
  datatype Option<+T> = None | Some(value: T) {
    function GetOr(default: T): T {
      match this
      case Some(v) => v
      case None => default
    }
  }

  /** Go's `(value, err)` pair where exactly one side is meaningful. */
  datatype Result<+T, +E> = Ok(value: T) | Err(error: E)
}
