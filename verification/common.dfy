/** Failure-carrying wrappers shared by every planning module. */
module Common {

  /** A value that may be absent: a missing dictionary key or an argument left as `None`. */
  datatype Option<+T> = None | Some(value: T) {
    function GetOr(default: T): (r: T)
      ensures Some? ==> r == value
      ensures None? ==> r == default
    {
      match this
      case Some(v) => v
      case None => default
    }
  }

  /** The outcome of a planning step: a value, or the error the source reports instead. */
  datatype Result<+T, +E> = Ok(value: T) | Err(error: E)
}
