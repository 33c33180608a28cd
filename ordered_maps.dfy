/**
 * A JavaScript `Map` with number keys: a key-value table that remembers the
 * order in which keys were first set, which is the order `values()` yields.
 */
module OrderedMaps {
  import opened Wrappers

  datatype OrderedMap<V> = OrderedMap(keys: seq<int>, entries: map<int, V>) {

    /** Keys are listed once each, and exactly the keys with an entry are listed. */
    ghost predicate Valid()
    {
      && (forall i, j :: 0 <= i < j < |keys| ==> keys[i] != keys[j])
      && (forall k :: k in entries <==> k in keys)
    }

    /** `map.get(k)`: `undefined` exactly when `k` was never set. */
    function Get(k: int): (r: Option<V>)
      ensures r.Some? <==> k in entries
      ensures r.Some? ==> r.value == entries[k]
    {
      if k in entries then Some(entries[k]) else None
    }

    /**
     * `map.set(k, v)`: a new key goes to the end of the order, an existing
     * key keeps its place and gets the new value.
     */
    function Set(k: int, v: V): (r: OrderedMap<V>)
      requires Valid()
      ensures r.Valid()
      ensures r.Get(k) == Some(v)
      ensures forall k' :: k' != k ==> r.Get(k') == Get(k')
      ensures k in keys ==> r.keys == keys
      ensures k !in keys ==> r.keys == keys + [k]
    {
      if k in keys then OrderedMap(keys, entries[k := v])
      else OrderedMap(keys + [k], entries[k := v])
    }

    /** `Array.from(map.values())`: the values in key order. */
    function Values(): (r: seq<V>)
      requires Valid()
      ensures |r| == |keys|
      ensures forall i :: 0 <= i < |keys| ==> keys[i] in entries && r[i] == entries[keys[i]]
    {
      assert forall i :: 0 <= i < |keys| ==> keys[i] in keys && keys[i] in entries;
      seq(|keys|, i requires 0 <= i < |keys| => entries[keys[i]])
    }
  }

  /** `new Map()`. */
  function Empty<V>(): (r: OrderedMap<V>)
    ensures r.Valid() && r.Values() == []
    ensures forall k :: r.Get(k).None?
  {
    OrderedMap([], map[])
  }

  /** Setting a new key appends its value to `values()` and leaves the rest. */
  lemma SetNewKeyValues<V>(m: OrderedMap<V>, k: int, v: V)
    requires m.Valid() && k !in m.entries
    ensures m.Set(k, v).Values() == m.Values() + [v]
  {
    var r := m.Set(k, v);
    assert r.keys == m.keys + [k];
    forall i | 0 <= i < |m.keys|
      ensures r.Values()[i] == m.Values()[i]
    {
      assert m.keys[i] != k;
    }
  }
}
