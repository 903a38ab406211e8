/**
 * A JavaScript `Map<number, V>` as a value: the keys in insertion order and the
 * key-to-value table. `set` on a new key appends the key, `set` on a present key
 * replaces the value and keeps the key's position, and `values()` lists the values
 * in key insertion order.
 */
module OrderedMap {
  import opened Wrappers

  datatype OMap<V> = OMap(keys: seq<int>, entries: map<int, V>)
  {
    /** Keys are listed once each and are exactly the keys of the table. */
    ghost predicate Valid()
    {
      && (forall i, j :: 0 <= i < j < |keys| ==> keys[i] != keys[j])
      && (forall k :: k in entries <==> k in keys)
    }

    /** `map.get(k)`: defined exactly for the keys listed in insertion order. */
    function Get(k: int): (r: Option<V>)
      ensures Valid() ==> (r.Some? <==> k in keys)
    {
      if k in entries then Some(entries[k]) else None
    }

    /** `map.set(k, v)`. */
    function Set(k: int, v: V): (r: OMap<V>)
      requires Valid()
      ensures r.Valid()
      ensures r.Get(k) == Some(v)
      ensures forall j :: j != k ==> r.Get(j) == Get(j)
      ensures k in entries ==> r.keys == keys
      ensures k !in entries ==> r.keys == keys + [k]
    {
      if k in entries then OMap(keys, entries[k := v])
      else OMap(keys + [k], entries[k := v])
    }

    /** `Array.from(map.values())`: one value per key, in key insertion order. */
    function Values(): (r: seq<V>)
      requires Valid()
      ensures |r| == |keys|
      ensures forall i :: 0 <= i < |keys| ==> Get(keys[i]) == Some(r[i])
    {
      assert forall i :: 0 <= i < |keys| ==> keys[i] in keys;
      seq(|keys|, i requires 0 <= i < |keys| => entries[keys[i]])
    }
  }

  /** `new Map()`. */
  function Empty<V>(): (m: OMap<V>)
    ensures m.Valid() && m.Values() == []
    ensures forall k :: m.Get(k) == None
  {
    OMap([], map[])
  }

  /** Setting a key that is absent appends its value to the listing. */
  lemma SetFreshAppends<V>(m: OMap<V>, k: int, v: V)
    requires m.Valid() && m.Get(k) == None
    ensures m.Set(k, v).Values() == m.Values() + [v]
  {
    var r := m.Set(k, v);
    assert |r.Values()| == |m.Values()| + 1;
    forall i | 0 <= i < |r.keys|
      ensures r.Values()[i] == (m.Values() + [v])[i]
    {
      if i < |m.keys| {
        assert r.keys[i] == m.keys[i] != k;
        assert r.Get(m.keys[i]) == Some(r.Values()[i]);
        assert m.Get(m.keys[i]) == Some(m.Values()[i]);
      } else {
        assert r.keys[i] == k;
        assert r.Get(k) == Some(r.Values()[i]);
      }
    }
  }
}
