/** An optional value: TypeScript's `T | undefined` (and `null`). */
module Wrappers {

  datatype Option<+T> = None | Some(value: T) {

    /** `x ?? d` and `x || d` for a value that is never falsy when present. */
    function GetOr(default: T): T {
      match this
      case Some(v) => v
      case None => default
    }
  }
}
