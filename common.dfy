/** Small shared vocabulary: an optional value, used for PHP `null` / absent keys. */
module Common {

  /** A value that may be absent (a missing request parameter, a `null` lookup result). */
  datatype Option<+T> = None | Some(value: T) {

    /** The value, or `default` when absent (PHP's `getInput($name, $default)`). */
    function GetOr(default: T): T {
      match this
      case Some(v) => v
      case None => default
    }
  }
}
