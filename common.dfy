/** Value types shared by the whole model: optional values (JavaScript's
    `null`/`undefined`), backend results and the outcome of an awaited call
    that either resolves or throws. */
module Common {

  datatype Option<T> = None | Some(value: T) {
    /** JavaScript's `x ?? d` for an optional value. */
    function GetOr(default: T): T {
      match this
      case Some(v) => v
      case None => default
    }
  }

  /** A promise that resolved with a value, or was rejected with an error message. */
  datatype Result<T> = Ok(value: T) | Err(message: string)

  /** A promise without a value: it resolved, or it was rejected with an error message. */
  datatype Outcome = Done | Failed(message: string)
}
