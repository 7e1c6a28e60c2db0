/** The optional value used for "a callback may or may not be invoked" and for map lookups. */
module Wrappers {

  datatype Option<+T> = None | Some(value: T)

  /** The entry for `k` in `m`, if there is one (a JavaScript `Map.get`). */
  function Lookup<K, V>(m: map<K, V>, k: K): (r: Option<V>)
    ensures r.Some? <==> k in m
    ensures r.Some? ==> r.value == m[k]
  {
    if k in m then Some(m[k]) else None
  }
}
