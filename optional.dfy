/** PHP's nullable values: `null` is None. */
module Optional {

  datatype Option<+T> = None | Some(value: T) {

    /** The value, or `default` for null (PHP's `?? default`). */
    function GetOr(default: T): T {
      match this
      case Some(v) => v
      case None => default
    }
  }
}
