/** The optional value the model uses for JavaScript's `find` results (`undefined` when nothing
    matches) and for record fields that may be missing. */
module Wrappers {

  datatype Option<T> = None | Some(value: T) {

    /** The value, or `default` when there is none (JavaScript's `x || default` on a number
        that is absent). */
    function GetOr(default: T): T {
      match this
      case Some(v) => v
      case None => default
    }
  }
}
