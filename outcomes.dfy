/** Optional values (a JSON key that may be absent, a keyword argument that may be
    omitted) and the outcome of a call that either returns a value or raises. */
module Outcomes {

  datatype Option<T> = None | Some(value: T) {

    /** The value if present, otherwise `default` (Python's `d.get(key, default)`). */
    function GetOr(default: T): (r: T)
      ensures Some? ==> r == value
      ensures None? ==> r == default
    {
      match this
      case Some(v) => v
      case None => default
    }
  }

  /** What a call that may raise produces: its value, or the text of the exception
      (`str(e)`, the form every handler in the backend uses). */
  datatype Outcome<T> = Success(value: T) | Failure(msg: string)
}
