/** Optional values and outcomes with an error, shared by every module of the model. */
module Wrappers {

  /** A value that may be absent: a JavaScript `undefined`/`null` field, or a lookup that found nothing. */
  datatype Option<+T> = None | Some(value: T) {
    function GetOr(default: T): T {
      match this
      case Some(v) => v
      case None => default
    }
  }

  /** The outcome of an operation that either returns a value or throws. */
  datatype Result<+T, +E> = Ok(value: T) | Err(error: E)
}
