/** The optional value shared by the model. */
module Wrappers {

  /** A value that may be missing: JavaScript's `undefined` (or `null`) is `None`. */
  datatype Option<+T> = None | Some(value: T) {

    /** The wrapped value, or `default` when there is none (JavaScript's `??`). */
    function GetOr(default: T): T {
      match this
      case Some(v) => v
      case None => default
    }
  }
}
