/** The optional value used wherever the console reads a field that may be
    absent (`undefined`/`null`) or a parse that may fail (`NaN`). */
module Wrappers {

  datatype Option<+T> = None | Some(value: T) {

    /** `x || d` and `x ?? d` for an optional value. */
    function GetOr(default: T): T {
      match this
      case Some(v) => v
      case None => default
    }
  }
}
