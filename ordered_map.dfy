/** A JavaScript `Map`: a dictionary that remembers the order in which its
  * keys were first set. `Array.from(m.values())` lists the values in that
  * order, and `m.set(k, v)` on a key already present keeps its position. */
module OrderedMaps {

  datatype OMap<V> = OMap(keys: seq<string>, entries: map<string, V>)

  /** The key order lists every key of the dictionary exactly once. */
  ghost predicate Valid<V>(m: OMap<V>) {
    (forall i, j :: 0 <= i < j < |m.keys| ==> m.keys[i] != m.keys[j]) &&
    (forall k :: k in m.entries <==> k in m.keys)
  }

  /** `new Map()` */
  function Empty<V>(): (m: OMap<V>)
    ensures Valid(m) && m.keys == [] && m.entries == map[]
  {
    OMap([], map[])
  }

  /** `Array.from(m.values())` */
  function Values<V>(m: OMap<V>): (vs: seq<V>)
    requires Valid(m)
    ensures |vs| == |m.keys|
    ensures forall i :: 0 <= i < |vs| ==> vs[i] == m.entries[m.keys[i]]
  {
    seq(|m.keys|, i requires 0 <= i < |m.keys| && m.keys[i] in m.entries => m.entries[m.keys[i]])
  }

  /** `m.set(k, v)` */
  function Put<V>(m: OMap<V>, k: string, v: V): (r: OMap<V>)
    requires Valid(m)
    ensures Valid(r)
    ensures r.entries == m.entries[k := v]
    ensures k in m.entries ==> r.keys == m.keys
    ensures k !in m.entries ==> r.keys == m.keys + [k]
  {
    if k in m.entries then OMap(m.keys, m.entries[k := v])
    else OMap(m.keys + [k], m.entries[k := v])
  }

  /** The values of a map are exactly the values stored under its keys. */
  lemma ValuesMembers<V>(m: OMap<V>)
    requires Valid(m)
    ensures forall v :: v in Values(m) <==> exists k :: k in m.entries && m.entries[k] == v
  {
    var vs := Values(m);
    forall v | v in vs ensures exists k :: k in m.entries && m.entries[k] == v {
      var i :| 0 <= i < |vs| && vs[i] == v;
      assert m.keys[i] in m.entries;
    }
    forall v | exists k :: k in m.entries && m.entries[k] == v ensures v in vs {
      var k :| k in m.entries && m.entries[k] == v;
      var i :| 0 <= i < |m.keys| && m.keys[i] == k;
      assert vs[i] == v;
    }
  }

  /** Setting a new key appends its value to the value list. */
  lemma PutNewValues<V>(m: OMap<V>, k: string, v: V)
    requires Valid(m) && k !in m.entries
    ensures Values(Put(m, k, v)) == Values(m) + [v]
  {
    var r := Put(m, k, v);
    assert forall i :: 0 <= i < |m.keys| ==> m.keys[i] != k;
    assert forall i :: 0 <= i < |m.keys| ==> Values(r)[i] == Values(m)[i];
  }

  /** Setting an existing key replaces its value in place and moves nothing. */
  lemma PutExistingValues<V>(m: OMap<V>, k: string, v: V)
    requires Valid(m) && k in m.entries
    ensures |Values(Put(m, k, v))| == |Values(m)|
    ensures forall i :: 0 <= i < |m.keys| ==>
      Values(Put(m, k, v))[i] == if m.keys[i] == k then v else Values(m)[i]
  {
  }
}
