/** Failure-carrying values: the outcome of a Python call that either returns or raises. */
module Wrappers {

  /** A value that may be absent (Python's `None`). */
  datatype Option<+T> = None | Some(value: T)

  /** A call that returns `value` or raises `error`. */
  datatype Result<+T, +E> = Success(value: T) | Failure(error: E)

  /** A call that returns nothing useful (`-> None`) or raises `error`. */
  datatype Outcome<+E> = Pass | Fail(error: E)

  /** The elements of an optional value, as a sequence of length 0 or 1. */
  function OptionToSeq<T>(o: Option<T>): (s: seq<T>)
    ensures |s| <= 1
    ensures o.Some? ==> s == [o.value]
    ensures o.None? <==> s == []
  {
    if o.Some? then [o.value] else []
  }
}
