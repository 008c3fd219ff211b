/** Option, the stand-in for JavaScript's `undefined`/`null` on optional values. */
module Wrappers {

  datatype Option<+T> = None | Some(value: T) {

    /** The value when present, otherwise `default` (the `a ?? b` / `a || b` idiom). */
    function GetOr(default: T): T {
      match this
      case Some(v) => v
      case None => default
    }
  }
}
