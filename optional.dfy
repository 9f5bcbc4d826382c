/** The Some/None wrapper used for keys a response or a record may lack. */
module Optional {
  datatype Option<+T> = None | Some(value: T) {
    /** The wrapped value, or `default` when it is absent (a dict's `get(key, default)`). */
    function GetOr(default: T): T {
      match this
      case Some(v) => v
      case None => default
    }
  }
}
