/** Optional values: a JavaScript value that may be null, undefined or absent,
    and the outcome of a backend query that may fail. */
module Options {

  datatype Option<+T> = None | Some(value: T) {

    /** The contained value, or `default` when there is none. */
    function GetOr(default: T): T {
      match this
      case Some(v) => v
      case None => default
    }
  }
}
