/** Small failure-carrying datatypes shared by every module of the model. */
module Wrappers {

  /** A value that may be absent: JavaScript's `null` / `undefined`. */
  datatype Option<+T> = None | Some(value: T) {
    function GetOr(default: T): T {
      match this
      case Some(v) => v
      case None => default
    }
  }

  /** The outcome of a call that may throw: the value, or the thrown Error's message. */
  datatype Result<+T> = Ok(value: T) | Err(message: string)

  /** The outcome of a call whose value is ignored by the caller. */
  datatype Reply = Done | Failed(message: string)
}
