/** Small helpers shared by the modules of the currency converter model. */
module Common {

  /** A value that may be absent (JavaScript's `undefined` or `null`). */
  datatype Option<T> = None | Some(value: T)

  /** Looks `k` up in `m`, answering None when the key is missing. */
  function Get<K, V>(m: map<K, V>, k: K): (r: Option<V>)
    ensures r.Some? <==> k in m
    ensures r.Some? ==> r.value == m[k]
  {
    if k in m then Some(m[k]) else None
  }
}
