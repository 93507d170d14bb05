/** Option and Result, used for JavaScript's `undefined`/`null` and for thrown errors. */
module Wrappers {

  datatype Option<+T> = None | Some(value: T)

  /** Ok carries a returned value, Err the error a JavaScript function throws (or a rejected promise). */
  datatype Result<+T, +E> = Ok(value: T) | Err(error: E)

  /** A JavaScript `Map.get`: the stored value, or None (`undefined`) for an absent key. */
  function MapGet<K, V>(m: map<K, V>, k: K): (r: Option<V>)
    ensures r.Some? <==> k in m
    ensures r.Some? ==> r.value == m[k]
  {
    if k in m then Some(m[k]) else None
  }
}
