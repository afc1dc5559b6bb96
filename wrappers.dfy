/** Option stands for a Java reference that may be null. */
module Wrappers {

  datatype Option<+T> = None | Some(value: T)

  /** Looks up a key of a map, yielding None for a missing key (Java's Map.get). */
  function Get<K, V>(m: map<K, V>, k: K): (r: Option<V>)
    ensures r.Some? <==> k in m
    ensures r.Some? ==> r.value == m[k]
  {
    if k in m then Some(m[k]) else None
  }
}
