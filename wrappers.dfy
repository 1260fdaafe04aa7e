/** Optional values and outcomes that may fail: `T | null` / `T | undefined`
    and "returns or throws" in the modelled TypeScript. */
module Wrappers {

  datatype Option<+T> = None | Some(value: T) {

    /** The wrapped value, or `default` when there is none (`x ?? default`). */
    function GetOr(default: T): T {
      match this
      case Some(v) => v
      case None => default
    }
  }

  /** A value returned (`Success`) or an error thrown (`Failure`). */
  datatype Result<+T, +E> = Success(value: T) | Failure(error: E)
}
