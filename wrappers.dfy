/** The optional value used wherever the kernel accepts an omitted argument
    (`undefined`) or returns `null`. */
module Wrappers {

  datatype Option<+T> = None | Some(value: T) {

    /** The value, or `default` when absent: the `if (x === undefined) x = default` idiom. */
    function GetOr(default: T): T {
      match this
      case Some(v) => v
      case None => default
    }
  }
}
