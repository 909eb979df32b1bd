/** Optional JSON fields and failing operations. */
module Wrappers {

  /** A field of a JSON object that may be absent. */
  datatype Option<+T> = None | Some(value: T) {
    /** The field's value, or `default` when the field is absent. */
    function GetOr(default: T): T {
      match this
      case Some(v) => v
      case None => default
    }
  }

  /** The outcome of a step that either returns a value or raises an exception. */
  datatype Result<+T, +E> = Success(value: T) | Failure(error: E)
}
