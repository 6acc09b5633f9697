/** Failure-carrying values used in place of the script's `sys.exit(1)` calls. */
module Results {

  /** An optional value: an argument that may be omitted on the command line. */
  datatype Option<+T> = None | Some(value: T) {

    /** The carried value, or `default` when there is none. */
    function GetOr(default: T): (r: T)
      ensures Some? ==> r == value
      ensures None? ==> r == default
    {
      match this
      case Some(v) => v
      case None => default
    }
  }

  /** Either the value a stage hands on, or the reason the run stopped. */
  datatype Result<+T, +E> = Ok(value: T) | Err(error: E)
}
