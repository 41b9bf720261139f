/** The Some/None datatype used where the JavaScript code holds `undefined`. */
module Wrappers {

  datatype Option<+T> = None | Some(value: T) {

    /** An optional argument's value: what the caller passed, or the
        parameter's declared default when the caller left it out. */
    function GetOr(default: T): T {
      match this
      case Some(v) => v
      case None => default
    }
  }
}
