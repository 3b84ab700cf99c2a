/** Small shared datatypes: an optional value, as used for JavaScript's
    `null`/`undefined` fields and Python's `None`, and the outcome of an
    operation that may raise or reject. */
module Common {

  datatype Option<+T> = None | Some(value: T) {
    /** The contained value, or `default` when there is none. */
    function GetOr(default: T): T {
      match this
      case Some(v) => v
      case None => default
    }
  }

  /** A value, or the message of the error raised instead. */
  datatype Result<+T> = Ok(value: T) | Err(msg: string)
}
