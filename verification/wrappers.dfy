/** Wrappers: an optional value, and a value or an error message. */
module Wrappers {

  /** A value that may be absent: a JavaScript property that is `undefined`. */
  datatype Option<+T> = None | Some(value: T) {
    function GetOr(default: T): T {
      match this
      case Some(v) => v
      case None => default
    }
  }

  /** The outcome of a step that may throw: its value, or the thrown error's text. */
  datatype Result<+T> = Ok(value: T) | Err(message: string)
}
