/** A value that may be absent: a missing query parameter, a JSON field that is not
    there, a date string that does not parse. */
module Optional {

  datatype Option<+T> = None | Some(value: T) {

    /** The value, or `default` when absent (JavaScript's `x || default` for a
        field that is either missing or holds a truthy value). */
    function GetOr(default: T): T {
      match this
      case Some(v) => v
      case None => default
    }
  }
}
