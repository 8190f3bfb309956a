/** Python's `None`-or-value, as an algebraic datatype. */
module Options {

  datatype Option<+T> = None | Some(value: T) {

    /** The value if present, otherwise `default` (Python's `x if x is not None else default`). */
    function GetOr(default: T): T {
      match this
      case Some(v) => v
      case None => default
    }
  }
}
