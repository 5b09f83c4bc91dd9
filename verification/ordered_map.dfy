/**
 * A JavaScript `Map` keyed by strings: lookups by key, and iteration in the order in
 * which keys were FIRST inserted (overwriting a key keeps its position).
 */
module OrderedMap {
  import opened Wrappers

  datatype OMap<V> = OMap(keys: seq<string>, entries: map<string, V>)
  {
    /** The keys are distinct and are exactly the keys that have entries. */
    ghost predicate Valid()
    {
      Distinct(keys) &&
      (forall k :: k in entries <==> k in keys)
    }
  }

  /** No key occurs twice. */
  ghost predicate Distinct(keys: seq<string>)
  {
    forall i, j :: 0 <= i < j < |keys| ==> keys[i] != keys[j]
  }

  function Empty<V>(): (m: OMap<V>)
    ensures m.Valid() && m.keys == [] && m.entries == map[]
  {
    OMap([], map[])
  }

  /** `map.set(key, v)`. */
  function Set<V>(m: OMap<V>, key: string, v: V): (r: OMap<V>)
    requires m.Valid()
    ensures r.Valid()
    ensures r.entries == m.entries[key := v]
    ensures key in m.entries ==> r.keys == m.keys
    ensures key !in m.entries ==> r.keys == m.keys + [key]
  {
    if key in m.entries then OMap(m.keys, m.entries[key := v])
    else OMap(m.keys + [key], m.entries[key := v])
  }

  /** The keys other than `key`, in order. */
  function Without(keys: seq<string>, key: string): (r: seq<string>)
    ensures forall k :: k in r <==> k in keys && k != key
  {
    if keys == [] then []
    else (if keys[0] == key then [] else [keys[0]]) + Without(keys[1..], key)
  }

  /** Removing a key that does not occur leaves the keys as they were. */
  lemma {:induction false} WithoutAbsent(keys: seq<string>, key: string)
    requires key !in keys
    ensures Without(keys, key) == keys
  {
    if keys != [] {
      WithoutAbsent(keys[1..], key);
      assert [keys[0]] + keys[1..] == keys;
    }
  }

  /** `map.delete(key)`: the entry goes, the other keys keep their order. */
  function Delete<V>(m: OMap<V>, key: string): (r: OMap<V>)
    requires m.Valid()
    ensures r.Valid()
    ensures r.entries == m.entries - {key}
    ensures m.keys != [] && m.keys[0] == key ==> r.keys == m.keys[1..]
  {
    WithoutDistinct(m.keys, key);
    WithoutFront(m.keys, key);
    OMap(Without(m.keys, key), m.entries - {key})
  }

  /** Removing the first of distinct keys leaves the rest. */
  lemma WithoutFront(keys: seq<string>, key: string)
    requires Distinct(keys)
    ensures keys != [] && keys[0] == key ==> Without(keys, key) == keys[1..]
  {
    if keys != [] && keys[0] == key {
      assert key !in keys[1..] by {
        forall i | 1 <= i < |keys| ensures keys[i] != key {
          assert keys[0] != keys[i];
        }
      }
      WithoutAbsent(keys[1..], key);
      assert Without(keys, key) == [] + Without(keys[1..], key);
    }
  }

  /** Dropping one key from distinct keys leaves them distinct. */
  lemma {:induction false} WithoutDistinct(keys: seq<string>, key: string)
    requires Distinct(keys)
    ensures Distinct(Without(keys, key))
  {
    if keys != [] {
      var rest := keys[1..];
      WithoutDistinct(rest, key);
      assert keys[0] !in rest by {
        forall i | 0 <= i < |rest| ensures rest[i] != keys[0] {
          assert rest[i] == keys[i + 1];
        }
      }
      var w := Without(rest, key);
      var r := Without(keys, key);
      if keys[0] != key {
        assert r == [keys[0]] + w;
        forall i, j | 0 <= i < j < |r| ensures r[i] != r[j] {
          if i == 0 {
            assert r[0] == keys[0];
            assert r[j] == w[j - 1] && r[j] in w;
            assert r[j] in rest;
          } else {
            assert r[i] == w[i - 1] && r[j] == w[j - 1];
          }
        }
      } else {
        assert r == [] + w;
        assert r == w;
        forall i, j | 0 <= i < j < |r| ensures r[i] != r[j] {
          assert r[i] == w[i] && r[j] == w[j];
        }
      }
    }
  }

  /** `map.get(key)`. */
  function Get<V>(m: OMap<V>, key: string): (r: Option<V>)
    ensures r.Some? <==> key in m.entries
    ensures r.Some? ==> r.value == m.entries[key]
  {
    if key in m.entries then Some(m.entries[key]) else None
  }

  /** `[...map.values()]`: the values in key-insertion order. */
  function Values<V>(m: OMap<V>): (r: seq<V>)
    requires m.Valid()
    ensures |r| == |m.keys|
    ensures forall i :: 0 <= i < |r| ==> r[i] == m.entries[m.keys[i]]
  {
    seq(|m.keys|, i requires 0 <= i < |m.keys| => m.entries[m.keys[i]])
  }

  /** Deleting the first key drops the first value. */
  lemma DeleteFirstValue<V>(m: OMap<V>)
    requires m.Valid() && m.keys != []
    ensures Values(m)[0] == m.entries[m.keys[0]]
    ensures Values(Delete(m, m.keys[0])) == Values(m)[1..]
  {
    var r := Delete(m, m.keys[0]);
    forall j | 0 <= j < |r.keys| ensures r.entries[r.keys[j]] == m.entries[m.keys[j + 1]] {
      assert r.keys[j] == m.keys[j + 1] && m.keys[j + 1] != m.keys[0];
    }
  }

  /** No keys, no entries. */
  lemma EmptyWithoutKeys<V>(m: OMap<V>)
    requires m.Valid() && m.keys == []
    ensures m == Empty()
  {
    assert m.entries == map[];
  }

  /** The map without its last key, as it was before that key was inserted. */
  function DropLast<V>(m: OMap<V>): OMap<V>
    requires m.keys != []
  {
    OMap(m.keys[..|m.keys| - 1], m.entries - {m.keys[|m.keys| - 1]})
  }

  /** Dropping the last key keeps the map well formed and removes exactly one entry. */
  lemma DropLastValid<V>(m: OMap<V>)
    requires m.Valid() && m.keys != []
    ensures DropLast(m).Valid() && |m.entries| == |DropLast(m).entries| + 1
  {
    var last := m.keys[|m.keys| - 1];
    var rest := DropLast(m);
    forall k ensures k in rest.entries <==> k in rest.keys {
      if k in rest.keys {
        var i :| 0 <= i < |rest.keys| && rest.keys[i] == k;
        assert m.keys[i] == k && i < |m.keys| - 1;
      }
    }
    assert m.entries.Keys == rest.entries.Keys + {last};
  }

  /** The number of entries equals the number of keys in iteration order. */
  lemma {:induction false} SizeIsKeyCount<V>(m: OMap<V>)
    requires m.Valid()
    ensures |m.entries| == |m.keys|
    decreases |m.keys|
  {
    if m.keys != [] {
      DropLastValid(m);
      SizeIsKeyCount(DropLast(m));
    }
  }
}
