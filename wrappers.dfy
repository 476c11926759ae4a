/** Option and Result for Python's `None` and raised exceptions, and Python's `dict.get`. */
module Wrappers {

  datatype Option<+T> = None | Some(value: T)

  datatype Result<+R, +E> = Success(value: R) | Failure(error: E)

  /** Python's `d.get(key, default)` on a dict. */
  function Get<K, V>(d: map<K, V>, key: K, default: V): (r: V)
    ensures key in d ==> r == d[key]
    ensures key !in d ==> r == default
  {
    if key in d then d[key] else default
  }
}
