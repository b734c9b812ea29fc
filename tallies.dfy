/** Per-key counting, as the pages write
  * `list.reduce((acc, x) => { acc[k(x)] = (acc[k(x)] || 0) + 1; return acc }, {})`
  * followed by `Object.entries(acc)`: one entry per distinct key, in the
  * order the keys first appear. */
module Tallies {
  import opened Seqs
  import opened Ranking

  datatype Entry<K> = Entry(key: K, count: nat)

  function KeysOf<K>(t: seq<Entry<K>>): (ks: seq<K>)
    ensures |ks| == |t|
    ensures forall i :: 0 <= i < |t| ==> ks[i] == t[i].key
  {
    seq(|t|, i requires 0 <= i < |t| => t[i].key)
  }

  ghost predicate DistinctKeys<K>(t: seq<Entry<K>>) {
    forall i, j :: 0 <= i < j < |t| ==> t[i].key != t[j].key
  }

  ghost predicate AllPositive<K>(t: seq<Entry<K>>) {
    forall i :: 0 <= i < |t| ==> t[i].count > 0
  }

  /** `acc[k] || 0` */
  function Lookup<K(==,!new)>(t: seq<Entry<K>>, k: K): nat {
    if t == [] then 0 else if t[0].key == k then t[0].count else Lookup(t[1..], k)
  }

  /** Sum of all counts. */
  function Total<K>(t: seq<Entry<K>>): nat {
    if t == [] then 0 else t[0].count + Total(t[1..])
  }

  /** `acc[k] = (acc[k] || 0) + 1` */
  function Bump<K(==,!new)>(t: seq<Entry<K>>, k: K): seq<Entry<K>> {
    if t == [] then [Entry(k, 1)]
    else if t[0].key == k then [Entry(k, t[0].count + 1)] + t[1..]
    else [t[0]] + Bump(t[1..], k)
  }

  /** Bumping k adds one to k's count and to the total, and nothing else:
    * a key already present keeps its place, a new key is appended. */
  lemma BumpProps<K(!new)>(t: seq<Entry<K>>, k: K)
    ensures forall x :: Lookup(Bump(t, k), x) == Lookup(t, x) + (if x == k then 1 else 0)
    ensures KeysOf(Bump(t, k)) == if k in KeysOf(t) then KeysOf(t) else KeysOf(t) + [k]
    ensures Total(Bump(t, k)) == Total(t) + 1
    ensures AllPositive(t) ==> AllPositive(Bump(t, k))
    ensures DistinctKeys(t) ==> DistinctKeys(Bump(t, k))
  {
    BumpCounts(t, k);
    BumpKeys(t, k);
  }

  /** The count part of BumpProps. */
  lemma {:induction false} BumpCounts<K(!new)>(t: seq<Entry<K>>, k: K)
    ensures forall x :: Lookup(Bump(t, k), x) == Lookup(t, x) + (if x == k then 1 else 0)
    ensures Total(Bump(t, k)) == Total(t) + 1
    ensures AllPositive(t) ==> AllPositive(Bump(t, k))
  {
    if t != [] && t[0].key != k {
      BumpCounts(t[1..], k);
      var rest := Bump(t[1..], k);
      assert Bump(t, k) == [t[0]] + rest;
      assert ([t[0]] + rest)[1..] == rest;
    } else if t != [] {
      assert Bump(t, k)[1..] == t[1..];
    }
  }

  /** The key part of BumpProps. */
  lemma BumpKeys<K(!new)>(t: seq<Entry<K>>, k: K)
    ensures KeysOf(Bump(t, k)) == if k in KeysOf(t) then KeysOf(t) else KeysOf(t) + [k]
    ensures DistinctKeys(t) ==> DistinctKeys(Bump(t, k))
  {
    BumpKeyOrder(t, k);
    var b := Bump(t, k);
    if DistinctKeys(t) {
      forall i, j | 0 <= i < j < |b| ensures b[i].key != b[j].key {
        assert KeysOf(b)[i] == b[i].key && KeysOf(b)[j] == b[j].key;
      }
    }
  }

  lemma {:induction false} BumpKeyOrder<K(!new)>(t: seq<Entry<K>>, k: K)
    ensures KeysOf(Bump(t, k)) == if k in KeysOf(t) then KeysOf(t) else KeysOf(t) + [k]
  {
    if t != [] && t[0].key != k {
      BumpKeyOrder(t[1..], k);
      BumpKeyOrderStep(t, k);
    } else if t != [] {
      assert Bump(t, k)[1..] == t[1..];
      assert KeysOf(Bump(t, k)) == KeysOf(t);
    }
  }

  /** One step of BumpKeyOrder: the head entry is not the bumped key. */
  lemma BumpKeyOrderStep<K(!new)>(t: seq<Entry<K>>, k: K)
    requires t != [] && t[0].key != k
    requires KeysOf(Bump(t[1..], k)) == if k in KeysOf(t[1..]) then KeysOf(t[1..]) else KeysOf(t[1..]) + [k]
    ensures KeysOf(Bump(t, k)) == if k in KeysOf(t) then KeysOf(t) else KeysOf(t) + [k]
  {
    var rest := Bump(t[1..], k);
    assert Bump(t, k) == [t[0]] + rest;
    assert KeysOf(t) == [t[0].key] + KeysOf(t[1..]);
    assert KeysOf([t[0]] + rest) == [t[0].key] + KeysOf(rest);
    assert k in KeysOf(t) <==> k in KeysOf(t[1..]);
  }

  /** The per-key counts of s, keys in order of first appearance. */
  function Tally<K(==,!new)>(s: seq<K>): seq<Entry<K>> {
    if s == [] then [] else Bump(Tally(s[..|s| - 1]), s[|s| - 1])
  }

  /** Each key of s gets one entry, in order of first appearance, counting
    * its occurrences; the counts are positive and add up to |s|. */
  lemma {:induction false} TallyProps<K(!new)>(s: seq<K>)
    ensures forall x :: Lookup(Tally(s), x) == multiset(s)[x]
    ensures forall x :: x in KeysOf(Tally(s)) <==> x in s
    ensures DistinctKeys(Tally(s))
    ensures AllPositive(Tally(s))
    ensures Total(Tally(s)) == |s|
  {
    if s != [] {
      var init, last := s[..|s| - 1], s[|s| - 1];
      assert s == init + [last];
      TallyProps(init);
      BumpProps(Tally(init), last);
    }
  }

  /** Counting one more element bumps its key. */
  lemma TallySnoc<K(!new)>(s: seq<K>, k: K)
    ensures Tally(s + [k]) == Bump(Tally(s), k)
  {
    assert (s + [k])[..|s|] == s;
  }

  /** With distinct keys, an entry's count is what `acc[key]` reads. */
  lemma {:induction false} LookupAt<K(!new)>(t: seq<Entry<K>>, i: nat)
    requires DistinctKeys(t) && i < |t|
    ensures Lookup(t, t[i].key) == t[i].count
  {
    if i > 0 {
      LookupAt(t[1..], i - 1);
    }
  }

  /** Every tally entry counts the occurrences of its key. */
  lemma TallyCounts<K(!new)>(s: seq<K>)
    ensures forall i :: 0 <= i < |Tally(s)| ==> Tally(s)[i].count == multiset(s)[Tally(s)[i].key] > 0
  {
    TallyProps(s);
    forall i | 0 <= i < |Tally(s)| {
      LookupAt(Tally(s), i);
    }
  }

  function CountKey<K>(e: Entry<K>): real {
    e.count as real
  }

  /** `Object.entries(acc).sort(([, a], [, b]) => b - a).slice(0, n)` */
  function TopKeys<K(==,!new)>(s: seq<K>, n: nat): (r: seq<Entry<K>>)
    ensures |r| <= n && |r| <= |s|
    ensures SortedDesc(r, CountKey)
    ensures forall e :: e in r ==> e in Tally(s)
  {
    TallyProps(s);
    TopDominates(Tally(s), CountKey, n);
    SortDescMembers(Tally(s), CountKey);
    assert |Tally(s)| <= |s| by {
      assert |KeysOf(Tally(s))| == |Tally(s)|;
      TotalAtLeastSize(Tally(s));
    }
    Take(SortDesc(Tally(s), CountKey), n)
  }

  lemma {:induction false} TotalAtLeastSize<K>(t: seq<Entry<K>>)
    requires AllPositive(t)
    ensures Total(t) >= |t|
  {
    if t != [] {
      TotalAtLeastSize(t[1..]);
    }
  }

  /** Every entry of TopKeys counts the occurrences of its key, and every
    * key left out occurs no more often than any key kept. */
  lemma TopKeysCounts<K(!new)>(s: seq<K>, n: nat)
    ensures forall e :: e in TopKeys(s, n) ==> e.count == multiset(s)[e.key] > 0
    ensures forall e, k :: e in TopKeys(s, n) && k in s && k !in KeysOf(TopKeys(s, n))
              ==> e.count >= multiset(s)[k]
  {
    var t := Tally(s);
    TallyCounts(s);
    forall e | e in TopKeys(s, n) ensures e.count == multiset(s)[e.key] > 0 {
      var i :| 0 <= i < |t| && t[i] == e;
    }
    forall e, k | e in TopKeys(s, n) && k in s && k !in KeysOf(TopKeys(s, n))
      ensures e.count >= multiset(s)[k]
    {
      TopKeyDominates(s, n, e, k);
    }
  }

  lemma TopKeyDominates<K(!new)>(s: seq<K>, n: nat, e: Entry<K>, k: K)
    requires e in TopKeys(s, n) && k in s && k !in KeysOf(TopKeys(s, n))
    ensures e.count >= multiset(s)[k]
  {
    var t := Tally(s);
    TallyProps(s);
    TallyCounts(s);
    TopDominates(t, CountKey, n);
    assert k in KeysOf(t);
    var i :| 0 <= i < |t| && t[i].key == k;
    assert t[i] !in TopKeys(s, n) by {
      forall j | 0 <= j < |TopKeys(s, n)| ensures TopKeys(s, n)[j] != t[i] {
        assert KeysOf(TopKeys(s, n))[j] == TopKeys(s, n)[j].key;
      }
    }
    assert CountKey(e) >= CountKey(t[i]);
  }

  // ---- a dictionary with its key order, as the pages mutate `words[w] = ... + 1` ----

  /** The entries of a dictionary m listed in key order. */
  function Zip<K>(order: seq<K>, m: map<K, nat>): (t: seq<Entry<K>>)
  {
    if order == [] then []
    else [Entry(order[0], Get(m, order[0]))] + Zip(order[1..], m)
  }

  lemma {:induction false} ZipIgnores<K>(order: seq<K>, m: map<K, nat>, k: K, v: nat)
    requires k !in order
    ensures Zip(order, m[k := v]) == Zip(order, m)
  {
    if order != [] {
      ZipIgnores(order[1..], m, k, v);
    }
  }

  lemma {:induction false} ZipAppend<K>(order: seq<K>, m: map<K, nat>, k: K)
    requires k in m
    ensures Zip(order + [k], m) == Zip(order, m) + [Entry(k, m[k])]
  {
    if order != [] {
      assert (order + [k])[1..] == order[1..] + [k];
      ZipAppend(order[1..], m, k);
    }
  }

  /** `acc[k] || 0` on the dictionary. */
  function Get<K>(m: map<K, nat>, k: K): nat {
    if k in m then m[k] else 0
  }

  /** Incrementing `acc[k]` in the dictionary is `Bump` on its entry list;
    * a new key goes to the end of the key order. */
  lemma {:induction false} BumpZip<K(!new)>(order: seq<K>, m: map<K, nat>, k: K)
    requires Distinct(order)
    ensures k in order ==> Bump(Zip(order, m), k) == Zip(order, m[k := Get(m, k) + 1])
    ensures k !in order ==> Bump(Zip(order, m), k) == Zip(order + [k], m[k := 1])
  {
    if order == [] {
    } else if order[0] == k {
      assert k !in order[1..];
      ZipIgnores(order[1..], m, k, Get(m, k) + 1);
    } else {
      BumpZip(order[1..], m, k);
      BumpZipStep(order, m, k);
    }
  }

  /** One step of BumpZip: the head of the order is not the key being bumped. */
  lemma BumpZipStep<K(!new)>(order: seq<K>, m: map<K, nat>, k: K)
    requires order != [] && order[0] != k
    requires k in order[1..] ==> Bump(Zip(order[1..], m), k) == Zip(order[1..], m[k := Get(m, k) + 1])
    requires k !in order[1..] ==> Bump(Zip(order[1..], m), k) == Zip(order[1..] + [k], m[k := 1])
    ensures k in order ==> Bump(Zip(order, m), k) == Zip(order, m[k := Get(m, k) + 1])
    ensures k !in order ==> Bump(Zip(order, m), k) == Zip(order + [k], m[k := 1])
  {
    var z := Zip(order, m);
    var h := Entry(order[0], Get(m, order[0]));
    assert z == [h] + Zip(order[1..], m);
    assert Bump(z, k) == [h] + Bump(Zip(order[1..], m), k) by {
      assert z[0] == h && z[1..] == Zip(order[1..], m);
    }
    if k in order {
      var m' := m[k := Get(m, k) + 1];
      assert Get(m', order[0]) == Get(m, order[0]);
      assert Zip(order, m') == [h] + Zip(order[1..], m');
    } else {
      var m' := m[k := 1];
      assert Get(m', order[0]) == Get(m, order[0]);
      assert (order + [k])[1..] == order[1..] + [k];
      assert Zip(order + [k], m') == [h] + Zip(order[1..] + [k], m');
    }
  }
}
