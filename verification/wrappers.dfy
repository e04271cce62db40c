/** Optional values and results with an error message, used for the source's `null`/`undefined`
    returns and its thrown exceptions. */
module Wrappers {

  /** `None` stands for JavaScript's `null` or `undefined`. */
  datatype Option<+T> = None | Some(value: T) {

    /** The value, or `default` when there is none. */
    function GetOr(default: T): T {
      match this
      case Some(v) => v
      case None => default
    }
  }

  /** `Err` stands for an exception the source throws and does not catch. */
  datatype Result<+T> = Ok(value: T) | Err(error: string)
}
