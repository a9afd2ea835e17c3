/** Optional values and error-or-value results, standing in for JavaScript's
    `undefined` fields and for the services' thrown `Error`s. */
module Wrappers {

  /** A value that may be absent (an object key that is not set). */
  datatype Option<T> = None | Some(value: T) {

    /** The value, or `default` when absent (the `a || b` and `??` defaults). */
    function GetOr(default: T): T {
      match this
      case Some(v) => v
      case None => default
    }
  }

  /** The outcome of a service call: a value, or the message of the error it throws. */
  datatype Result<T> = Ok(value: T) | Err(message: string)
}
