/** Failure-carrying values used throughout the model: an optional value and a
    value-or-error result (the model's stand-in for a raised exception). */
module Wrappers {

  datatype Option<+T> = None | Some(value: T) {
    function GetOr(default: T): T {
      match this
      case Some(v) => v
      case None => default
    }
  }

  datatype Result<+T> = Ok(value: T) | Err(error: string)
}
