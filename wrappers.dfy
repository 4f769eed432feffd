/** Optional values and error-or-value results, standing in for Go's
    "value, ok" and "value, err" return pairs. */
module Wrappers {

  /** A value that may be missing (Go: `v, exists := ...`). */
  datatype Option<+T> = None | Some(value: T) {

    /** The value, or `default` when there is none. */
    function GetOr(default: T): T {
      match this
      case Some(v) => v
      case None => default
    }
  }

  /** A value or an error message (Go: `v, err := ...` with `err != nil` on failure). */
  datatype Result<+T> = Ok(value: T) | Err(message: string)
}
