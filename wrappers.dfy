/** Optional values and success/failure outcomes shared by the whole model. */
module Wrappers {

  datatype Option<+T> = None | Some(value: T) {
    function GetOrDefault(default: T): T {
      if Some? then value else default
    }
  }

  datatype Result<+T, +E> = Ok(value: T) | Err(error: E)

  /** A map read that yields None for a missing key (what `obj[key]` gives as `undefined`). */
  function Get<K, V>(m: map<K, V>, k: K): (r: Option<V>)
    ensures r.Some? <==> k in m
    ensures r.Some? ==> r.value == m[k]
  {
    if k in m then Some(m[k]) else None
  }
}
