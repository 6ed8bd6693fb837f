/** Optional values, used for the JavaScript `undefined` that the handler
    reads through optional chaining and map lookups. */
module Wrappers {

  datatype Option<+T> = None | Some(value: T)

  /** Map lookup that reports a missing key as `None`, like `Map.prototype.get`. */
  function Get<K, V>(m: map<K, V>, k: K): (r: Option<V>)
    ensures r.Some? <==> k in m
    ensures r.Some? ==> r.value == m[k]
  {
    if k in m then Some(m[k]) else None
  }
}
