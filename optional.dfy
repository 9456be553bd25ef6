/** An absent-or-present value, for JavaScript's optional and nullable
    values (`undefined`, `null`, a missing property). */
module Optional {

  datatype Option<+T> = None | Some(value: T) {

    /** The value, or `default` when absent. */
    function GetOr(default: T): T {
      match this
      case Some(v) => v
      case None => default
    }
  }
}
