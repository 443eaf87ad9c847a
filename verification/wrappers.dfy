/** The nullable and possibly-undefined values of the game model. */
module Wrappers {

  /** `None` stands for `null` and `undefined` alike. */
  datatype Option<+T> = None | Some(value: T) {

    /** The value, or `default` when absent: the source's `x ?? default`. */
    function GetOr(default: T): T {
      match this
      case Some(v) => v
      case None => default
    }
  }
}
