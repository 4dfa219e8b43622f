/** Option and Result: the absent-or-present values and the thrown-or-returned
    outcomes of the TypeScript code. */
module Wrappers {

  /** `undefined`/`null` versus a present value. */
  datatype Option<+T> = None | Some(value: T) {
    /** `x ?? d` for a value that cannot itself be falsy. */
    function GetOr(default: T): T {
      match this
      case Some(v) => v
      case None => default
    }
  }

  /** A returned value, or a thrown `Error` with its message. */
  datatype Result<+T> = Ok(value: T) | Err(message: string)
}
