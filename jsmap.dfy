/** A JavaScript `Map` with string keys, as the fusion step uses it: entries
    iterate in insertion order, and `set` on a key that is already present
    replaces its value without moving the entry. */
module JsMap {
  import opened Common

  datatype OrderedMap<V> = OrderedMap(order: seq<string>, values: map<string, V>)

  predicate Distinct(ks: seq<string>)
  {
    forall i, j :: 0 <= i < j < |ks| ==> ks[i] != ks[j]
  }

  /** Each key appears once in the iteration order, and the order lists
      exactly the stored keys. */
  ghost predicate Valid<V>(m: OrderedMap<V>)
  {
    Distinct(m.order) && forall k :: k in m.values <==> k in m.order
  }

  /** `new Map()`. */
  function Empty<V>(): (m: OrderedMap<V>)
    ensures Valid(m) && m.order == [] && m.values == map[]
  {
    OrderedMap([], map[])
  }

  /** `m.get(k)`. */
  function Get<V>(m: OrderedMap<V>, k: string): (r: Option<V>)
    ensures r.None? <==> k !in m.values
    ensures r.Some? ==> r.value == m.values[k]
  {
    if k in m.values then Some(m.values[k]) else None
  }

  /** `m.set(k, v)`: the key now maps to `v`, every other key keeps its
      value, and the iteration order changes only by appending a new key. */
  function Set<V>(m: OrderedMap<V>, k: string, v: V): (r: OrderedMap<V>)
    requires Valid(m)
    ensures Valid(r)
    ensures Get(r, k) == Some(v)
    ensures forall k' :: k' != k ==> Get(r, k') == Get(m, k')
    ensures k in m.values ==> r.order == m.order
    ensures k !in m.values ==> r.order == m.order + [k]
  {
    OrderedMap(if k in m.values then m.order else m.order + [k], m.values[k := v])
  }
}
