/** Optional values and results with an error, as the Python code uses `None` and exceptions. */
module Wrappers {

  datatype Option<+T> = None | Some(value: T) {
    /** `value` when present, otherwise `default` (Python's `dict.get(key, default)` shape). */
    function GetOr(default: T): T {
      match this
      case Some(v) => v
      case None => default
    }
  }

  datatype Result<+R, +E> = Success(value: R) | Failure(error: E)

  /** Python's `mapping.get(key)`: the value stored under `key`, if any. */
  function Get<K, V>(m: map<K, V>, k: K): (r: Option<V>)
    ensures r.Some? <==> k in m
    ensures r.Some? ==> r.value == m[k]
  {
    if k in m then Some(m[k]) else None
  }
}
