/** Failure-compatible helper datatypes shared by the other modules. */
module Wrappers {

  /** A value that may be absent: a JSON key that was not sent, a failed `parseInt`. */
  datatype Option<+T> = None | Some(value: T)

  /** The outcome of a request handler: its value, or the error it answers with. */
  datatype Result<+R, +E> = Success(value: R) | Failure(error: E)

  /** The value of `o`, or `default` when it is absent (Python's `dict.get(key, default)`). */
  function GetOr<T>(o: Option<T>, default: T): (r: T)
    ensures o.Some? ==> r == o.value
    ensures o.None? ==> r == default
  {
    match o
    case Some(v) => v
    case None => default
  }
}
