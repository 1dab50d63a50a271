/** A value that may be missing, as JavaScript's `undefined` result of `Array.prototype.find`. */
module Wrappers {

  datatype Option<T> = None | Some(value: T) {

    /** The carried value, or `default` when there is none (JavaScript's `x || default`). */
    function GetOr(default: T): T {
      match this
      case Some(v) => v
      case None => default
    }
  }
}
