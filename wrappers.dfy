/** Option and Result, the two failure-aware values the rest of the model uses. */
module Wrappers {

  datatype Option<+T> = None | Some(value: T) {
    function GetOr(default: T): T {
      match this
      case Some(v) => v
      case None => default
    }
  }

  /** The outcome of something that can throw: a value, or the message of the thrown Error. */
  datatype Result<+T> = Ok(value: T) | Err(message: string)
}
