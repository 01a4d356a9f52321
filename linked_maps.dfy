/**
 * java.util.LinkedHashMap as a value: the keys in insertion order beside the
 * key-to-value map. `put` of a key already present replaces its value and
 * keeps its position; `put` of a new key appends it.
 */
module LinkedMaps {

  datatype LinkedMap<K, V> = LinkedMap(keys: seq<K>, entries: map<K, V>) {

    /** Keys are distinct and are exactly the keys of `entries`. */
    ghost predicate Valid() {
      && (forall i, j :: 0 <= i < j < |keys| ==> keys[i] != keys[j])
      && entries.Keys == set k | k in keys
    }

    /** `LinkedHashMap.put(k, v)`. */
    function Put(k: K, v: V): (r: LinkedMap<K, V>)
      ensures r.entries == entries[k := v]
      ensures k in keys ==> r.keys == keys
      ensures k !in keys ==> r.keys == keys + [k]
      ensures Valid() ==> r.Valid()
    {
      LinkedMap(if k in keys then keys else keys + [k], entries[k := v])
    }
  }

  /** A fresh `new LinkedHashMap<>()`. */
  function Empty<K, V>(): (r: LinkedMap<K, V>)
    ensures r.Valid() && r.keys == [] && r.entries == map[]
  {
    LinkedMap([], map[])
  }

  /** Distinct keys: as many elements in the set as in the sequence. */
  lemma {:induction false} DistinctKeysCount<K>(keys: seq<K>)
    requires forall i, j :: 0 <= i < j < |keys| ==> keys[i] != keys[j]
    ensures |set k | k in keys| == |keys|
  {
    if |keys| > 0 {
      var rest := keys[..|keys| - 1];
      var last := keys[|keys| - 1];
      assert keys == rest + [last];
      DistinctKeysCount(rest);
      assert last !in rest by {
        forall i | 0 <= i < |rest| ensures rest[i] != last {
          assert keys[i] != keys[|keys| - 1];
        }
      }
      assert (set k | k in keys) == (set k | k in rest) + {last};
    }
  }

  /** A valid linked map has exactly as many keys in its order as entries. */
  lemma CardinalityAgrees<K, V>(m: LinkedMap<K, V>)
    requires m.Valid()
    ensures |m.entries| == |m.keys|
  {
    DistinctKeysCount(m.keys);
    assert |m.entries| == |m.entries.Keys|;
  }
}
