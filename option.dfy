/** Swift's `Optional`: a value that may be absent (`nil`). */
module Optional {

  datatype Option<+T> = None | Some(value: T)

  /** Dictionary subscript `d[key]`: the value stored under `key`, or `nil`. */
  function Lookup<K, V>(d: map<K, V>, key: K): (r: Option<V>)
    ensures r.Some? <==> key in d
    ensures r.Some? ==> r.value == d[key]
  {
    if key in d then Some(d[key]) else None
  }
}
