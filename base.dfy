/** Optional values, results with an error case, and Python's truthiness of
    an optional string. */
module Base {

  /** Python's `T | None`. */
  datatype Option<+T> = None | Some(value: T) {
    function GetOr(default: T): T {
      match this
      case Some(v) => v
      case None => default
    }
  }

  /** A value or the error that a Python `raise` would have carried. */
  datatype Result<+T, +E> = Success(value: T) | Failure(error: E)

  /** `bool(s)` for `s: str | None`: false for `None` and for the empty string. */
  predicate Truthy(s: Option<string>) {
    s.Some? && s.value != ""
  }
}
