/** A value that may be absent: the model's stand-in for `null`, `undefined`
    and Python's `None`. */
module Base {

  datatype Option<+T> = None | Some(value: T) {

    /** The carried value, or `default` when absent. */
    function GetOr(default: T): T {
      match this
      case Some(v) => v
      case None => default
    }
  }
}
