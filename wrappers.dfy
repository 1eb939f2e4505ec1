/** Option, used for the source's `undefined` values and for map lookups. */
module Wrappers {

  datatype Option<+T> = None | Some(value: T)

  /** The entry stored under `k`, if any (the source's `Map.get`). */
  function Get<K, V>(m: map<K, V>, k: K): (o: Option<V>)
    ensures o.Some? <==> k in m
    ensures o.Some? ==> o.value == m[k]
  {
    if k in m then Some(m[k]) else None
  }
}
