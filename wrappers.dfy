/** Optional values and results with an error, shared by every module of the model. */
module Wrappers {

  /** A value that may be absent: the model of TypeScript's `T | undefined` and `T | null`. */
  datatype Option<+T> = None | Some(value: T) {
    function GetOr(default: T): T {
      match this
      case Some(v) => v
      case None => default
    }
  }

  /**
   * A string setting that JavaScript treats as truthy: present and not empty.
   * A missing or empty token, secret or URL counts as not configured.
   */
  predicate Filled(s: Option<string>) {
    s.Some? && s.value != ""
  }

  /** The outcome of an operation that either returns a value or throws an error. */
  datatype Result<+R, +E> = Success(value: R) | Failure(error: E)
}
