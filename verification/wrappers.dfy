/** Optional values and success/failure results, used for the source's
    `undefined`/`null` fields and for the outcomes of network calls. */
module Wrappers {

  /** A JavaScript value that may be `undefined` (or `null`). */
  datatype Option<+T> = None | Some(value: T) {

    /** The value, or `default` when absent (the source's `x || default`
        on non-empty values, `x ?? default` in general). */
    function GetOr(default: T): T {
      match this
      case Some(v) => v
      case None => default
    }
  }

  /** The outcome of an awaited call: a resolved value or a rejection
      carrying the error's message. */
  datatype Result<+T> = Ok(value: T) | Err(message: string)
}
