/** The optional value the source writes as `T | undefined` (a field or key that may be absent). */
module Wrappers {

  datatype Option<+T> = None | Some(value: T) {

    /** The value, or a default when absent (JavaScript's `x || d` on a defined-or-undefined field). */
    function GetOr(default: T): T {
      match this
      case Some(v) => v
      case None => default
    }
  }
}
