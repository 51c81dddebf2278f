// Optional values: a dictionary key that may be absent, a JSON field that may be missing.
module Wrappers {

  datatype Option<+T> = None | Some(value: T) {

    /** The value, or `default` when absent (Python's `dict.get(key, default)`). */
    function GetOr(default: T): T {
      match this
      case Some(v) => v
      case None => default
    }
  }

  /** The outcome of one HTTP request to a catalog: it raised (network error, timeout,
      error status, undecodable body) or it returned a decoded body. */
  datatype Fetch<+T> = Failed | Received(body: T)
}
