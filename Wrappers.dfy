/** The optional value the model uses wherever the source works with a pointer that may be null. */
module Wrappers {

  datatype Option<+T> = None | Some(value: T)

  /** The value of a map at key k, when the map has one. */
  function Get<K, V>(m: map<K, V>, k: K): (r: Option<V>)
    ensures r.Some? <==> k in m
    ensures r.Some? ==> r.value == m[k]
  {
    if k in m then Some(m[k]) else None
  }
}
