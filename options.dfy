/** An optional value, for things the browser may or may not have stored. */
module Options {

  datatype Option<+T> = None | Some(value: T) {

    /** The stored value, or the given default when nothing is stored. */
    function GetOr(default: T): T {
      match this
      case Some(v) => v
      case None => default
    }
  }
}
