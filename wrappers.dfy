/** The Option and Result datatypes shared by every module of the model. */
module Wrappers {

  /** A value that may be absent: a missing map key, `null`, `undefined`. */
  datatype Option<+T> = None | Some(value: T) {
    function GetOr(default: T): T {
      match this
      case Some(v) => v
      case None => default
    }
  }

  /** The outcome of an operation that can throw: the value, or the error message it throws with. */
  datatype Result<+T> = Ok(value: T) | Err(message: string)
}
