/** Small failure-carrying datatypes shared by every other module: an `Option`
    for Go's nil-or-value results and a `Result` whose failure is the text of
    the Go `error` that a foreign library returned. */
module Optional {

  datatype Option<+T> = None | Some(value: T) {

    /** The wrapped value, or `default` when there is none. */
    function GetOr(default: T): (r: T)
      ensures Some? ==> r == value
      ensures None? ==> r == default
    {
      match this
      case Some(v) => v
      case None => default
    }
  }

  /** The outcome of a foreign call that either yields a value or an error
      whose `Error()` text is `reason`. */
  datatype Result<+T> = Ok(value: T) | Err(reason: string)
}
