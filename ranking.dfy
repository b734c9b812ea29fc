/** Descending sorts, as the pages write `list.sort((a, b) => key(b) - key(a))`.
  * JavaScript's sort is stable, so the model is a stable insertion sort:
  * elements with equal keys keep their input order. */
module Ranking {
  import opened Seqs

  /** Keys never increase from left to right. */
  ghost predicate SortedDesc<T>(s: seq<T>, key: T -> real) {
    forall i, j :: 0 <= i < j < |s| ==> key(s[i]) >= key(s[j])
  }

  /** Puts x in front of the first element whose key is at most key(x). */
  function Insert<T>(x: T, s: seq<T>, key: T -> real): (r: seq<T>)
    requires SortedDesc(s, key)
    ensures |r| == |s| + 1
    ensures multiset(r) == multiset(s) + multiset{x}
    ensures SortedDesc(r, key)
  {
    if s == [] || key(x) >= key(s[0]) then [x] + s
    else
      assert s == [s[0]] + s[1..];
      var rest := Insert(x, s[1..], key);
      HeadDominates(x, s, rest, key);
      [s[0]] + rest
  }

  /** Inserting below the head keeps every element under the head's key. */
  lemma HeadDominates<T>(x: T, s: seq<T>, r: seq<T>, key: T -> real)
    requires SortedDesc(s, key) && s != [] && key(x) < key(s[0])
    requires multiset(r) == multiset(s[1..]) + multiset{x}
    ensures forall y :: y in r ==> key(y) <= key(s[0])
  {
    forall y | y in r ensures key(y) <= key(s[0]) {
      assert y in multiset(r);
      if y != x {
        assert y in multiset(s[1..]);
        var k :| 0 <= k < |s[1..]| && s[1..][k] == y;
        assert s[k + 1] == y;
      }
    }
  }

  /** The stable descending sort of s by key. */
  function SortDesc<T>(s: seq<T>, key: T -> real): (r: seq<T>)
    ensures |r| == |s|
    ensures multiset(r) == multiset(s)
    ensures SortedDesc(r, key)
  {
    if s == [] then []
    else
      assert s == [s[0]] + s[1..];
      Insert(s[0], SortDesc(s[1..], key), key)
  }

  /** Sorting keeps exactly the same elements. */
  lemma SortDescMembers<T>(s: seq<T>, key: T -> real)
    ensures forall x :: x in SortDesc(s, key) <==> x in s
  {
    var r := SortDesc(s, key);
    forall x ensures x in r <==> x in s {
      assert x in r <==> x in multiset(r);
      assert x in s <==> x in multiset(s);
    }
  }

  /** `sort(...).slice(0, n)`: at most n elements, still non-increasing, and
    * every element left out has a key no larger than any element kept. */
  lemma TopDominates<T>(s: seq<T>, key: T -> real, n: nat)
    ensures |Take(SortDesc(s, key), n)| <= n
    ensures SortedDesc(Take(SortDesc(s, key), n), key)
    ensures forall x, y :: x in s && x !in Take(SortDesc(s, key), n) && y in Take(SortDesc(s, key), n)
              ==> key(y) >= key(x)
  {
    var r := SortDesc(s, key);
    var t := Take(r, n);
    SortDescMembers(s, key);
    forall x, y | x in s && x !in t && y in t ensures key(y) >= key(x) {
      var i :| 0 <= i < |r| && r[i] == x;
      var j :| 0 <= j < |t| && t[j] == y;
      assert r[j] == y && j < i;
    }
  }

  /** Every element kept comes from the list. */
  lemma TopMembers<T>(s: seq<T>, key: T -> real, n: nat)
    ensures forall x :: x in Take(SortDesc(s, key), n) ==> x in s
  {
    var r := SortDesc(s, key);
    SortDescMembers(s, key);
    forall x | x in Take(r, n) ensures x in s {
      var j :| 0 <= j < |Take(r, n)| && Take(r, n)[j] == x;
      assert r[j] == x;
    }
  }

  /** Taking a prefix of a non-increasing list keeps it non-increasing. */
  lemma TakeSorted<T>(s: seq<T>, key: T -> real, n: nat)
    requires SortedDesc(s, key)
    ensures SortedDesc(Take(s, n), key)
  {
  }

  /** `s.reduce((best, x) => key(x) > key(best) ? x : best)`: the position of
    * the first element with the largest key; later ties do not replace it. */
  function FirstMax<T>(s: seq<T>, key: T -> real): (k: nat)
    requires s != []
    ensures k < |s|
    ensures forall j :: 0 <= j < |s| ==> key(s[j]) <= key(s[k])
    ensures forall j :: 0 <= j < k ==> key(s[j]) < key(s[k])
  {
    if |s| == 1 then 0
    else
      var best := FirstMax(s[..|s| - 1], key);
      if key(s[|s| - 1]) > key(s[best]) then |s| - 1 else best
  }
}
