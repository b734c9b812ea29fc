/** Array helpers the dashboard uses everywhere: `filter`, counting,
  * summing, `slice(0, n)` and the add-or-remove toggle of a list. */
module Seqs {
  import opened Optional

  /** `s.filter(p)`: the elements satisfying p, in order, with their multiplicities. */
  function Filter<T(!new)>(s: seq<T>, p: T -> bool): (r: seq<T>)
    ensures |r| <= |s|
    ensures forall x :: x in r <==> x in s && p(x)
    ensures forall x :: multiset(r)[x] == if p(x) then multiset(s)[x] else 0
  {
    if s == [] then []
    else
      var init, last := s[..|s| - 1], s[|s| - 1];
      assert s == init + [last];
      Filter(init, p) + (if p(last) then [last] else [])
  }

  /** Filtering two permutations of each other gives permutations of each other. */
  lemma FilterPermutation<T(!new)>(a: seq<T>, b: seq<T>, p: T -> bool)
    requires multiset(a) == multiset(b)
    ensures multiset(Filter(a, p)) == multiset(Filter(b, p))
  {
    var fa, fb := Filter(a, p), Filter(b, p);
    forall x ensures multiset(fa)[x] == multiset(fb)[x] { }
  }

  lemma FilterAppend<T(!new)>(a: seq<T>, x: T, p: T -> bool)
    ensures Filter(a + [x], p) == Filter(a, p) + (if p(x) then [x] else [])
  {
    assert (a + [x])[..|a + [x]| - 1] == a;
  }

  /** Filters with the same verdict on every element agree. */
  lemma {:induction false} SameFilter<T(!new)>(s: seq<T>, p: T -> bool, q: T -> bool)
    requires forall x :: p(x) == q(x)
    ensures Filter(s, p) == Filter(s, q)
  {
    if s != [] {
      SameFilter(s[..|s| - 1], p, q);
    }
  }

  /** Number of elements satisfying p: `s.filter(p).length`. */
  function Count<T(!new)>(s: seq<T>, p: T -> bool): (n: nat)
    ensures n == |Filter(s, p)|
    ensures n <= |s|
    ensures n == 0 <==> forall x :: x in s ==> !p(x)
    ensures n == |s| <==> forall x :: x in s ==> p(x)
  {
    if s == [] then 0
    else
      var init, last := s[..|s| - 1], s[|s| - 1];
      assert s == init + [last];
      Count(init, p) + (if p(last) then 1 else 0)
  }

  /** Counting does not depend on the order of the elements. */
  lemma CountPermutation<T(!new)>(a: seq<T>, b: seq<T>, p: T -> bool)
    requires multiset(a) == multiset(b)
    ensures Count(a, p) == Count(b, p)
  {
    assert multiset(Filter(a, p)) == multiset(Filter(b, p));
    assert |multiset(Filter(a, p))| == |Filter(a, p)|;
    assert |multiset(Filter(b, p))| == |Filter(b, p)|;
  }

  /** Counting within a filtered list counts the conjunction. */
  lemma CountOfFilter<T(!new)>(s: seq<T>, q: T -> bool, p: T -> bool, pq: T -> bool)
    requires forall x :: pq(x) == (q(x) && p(x))
    ensures Count(Filter(s, q), p) == Count(s, pq)
  {
    var l, r := Filter(Filter(s, q), p), Filter(s, pq);
    forall x ensures multiset(l)[x] == multiset(r)[x] {
    }
    assert multiset(l) == multiset(r);
    assert |multiset(l)| == |l| && |multiset(r)| == |r|;
  }

  lemma CountAppend<T(!new)>(a: seq<T>, x: T, p: T -> bool)
    ensures Count(a + [x], p) == Count(a, p) + (if p(x) then 1 else 0)
  {
    FilterAppend(a, x, p);
  }

  /** A filter that keeps every element keeps the list as it is. */
  lemma {:induction false} FilterAll<T(!new)>(s: seq<T>, p: T -> bool)
    requires forall x :: x in s ==> p(x)
    ensures Filter(s, p) == s
  {
    if s != [] {
      var init, last := s[..|s| - 1], s[|s| - 1];
      assert s == init + [last];
      FilterAll(init, p);
    }
  }

  /** Counting a disjunction of two disjoint conditions adds their counts. */
  lemma {:induction false} CountDisjoint<T(!new)>(s: seq<T>, p: T -> bool, q: T -> bool, pq: T -> bool)
    requires forall x :: pq(x) == (p(x) || q(x))
    requires forall x :: !(p(x) && q(x))
    ensures Count(s, pq) == Count(s, p) + Count(s, q)
  {
    if s != [] {
      var init, last := s[..|s| - 1], s[|s| - 1];
      assert s == init + [last];
      CountDisjoint(init, p, q, pq);
      CountAppend(init, last, pq);
      CountAppend(init, last, p);
      CountAppend(init, last, q);
    }
  }

  /** No element appears twice. */
  predicate Distinct<T(==)>(s: seq<T>) {
    forall i, j :: 0 <= i < j < |s| ==> s[i] != s[j]
  }

  /** Dropping the last element of a list without repeats leaves a list
    * without repeats that does not contain it. */
  lemma DistinctSnoc<T>(s: seq<T>)
    requires s != [] && Distinct(s)
    ensures Distinct(s[..|s| - 1]) && s[|s| - 1] !in s[..|s| - 1]
    ensures forall x :: x in s <==> x in s[..|s| - 1] || x == s[|s| - 1]
  {
    assert s == s[..|s| - 1] + [s[|s| - 1]];
  }

  /** Appending an element not yet present keeps a list without repeats. */
  lemma DistinctAppend<T>(s: seq<T>, x: T)
    requires Distinct(s) && x !in s
    ensures Distinct(s + [x])
    ensures forall y :: y in s + [x] <==> y in s || y == x
  {
    assert (s + [x])[|s|] == x;
  }

  /** The elements of s that satisfy p, as a set. */
  function Satisfying<T(!new)>(s: seq<T>, p: T -> bool): set<T> {
    set x | x in s && p(x)
  }

  /** Over a list without repeats, the count is the number of distinct elements satisfying p. */
  lemma {:induction false} CountDistinct<T(!new)>(s: seq<T>, p: T -> bool)
    requires Distinct(s)
    ensures Count(s, p) == |Satisfying(s, p)|
  {
    if s != [] {
      var init, last := s[..|s| - 1], s[|s| - 1];
      assert Distinct(init);
      CountDistinct(init, p);
      assert Count(s, p) == Count(init, p) + (if p(last) then 1 else 0);
      DistinctSetStep(s, p);
    }
  }

  lemma DistinctSetStep<T(!new)>(s: seq<T>, p: T -> bool)
    requires s != [] && Distinct(s)
    ensures |Satisfying(s, p)| == |Satisfying(s[..|s| - 1], p)| + (if p(s[|s| - 1]) then 1 else 0)
  {
    var init, last := s[..|s| - 1], s[|s| - 1];
    assert last !in init by {
      forall i | 0 <= i < |init| ensures init[i] != last {
        assert init[i] == s[i];
      }
    }
    assert s == init + [last];
    var before := Satisfying(init, p);
    var after := Satisfying(s, p);
    if p(last) {
      assert after == before + {last};
    } else {
      assert after == before;
    }
  }

  /** `s.reduce((sum, x) => sum + f(x), 0)` */
  function Sum<T>(s: seq<T>, f: T -> real): real {
    if s == [] then 0.0 else Sum(s[..|s| - 1], f) + f(s[|s| - 1])
  }

  lemma SumAppend<T>(a: seq<T>, x: T, f: T -> real)
    ensures Sum(a + [x], f) == Sum(a, f) + f(x)
  {
    assert (a + [x])[..|a + [x]| - 1] == a;
  }

  lemma {:induction false} SumConcat<T>(a: seq<T>, b: seq<T>, f: T -> real)
    ensures Sum(a + b, f) == Sum(a, f) + Sum(b, f)
    decreases |b|
  {
    if b == [] {
      assert a + b == a;
    } else {
      var b', y := b[..|b| - 1], b[|b| - 1];
      assert b == b' + [y];
      assert a + b == (a + b') + [y];
      SumAppend(a + b', y, f);
      SumConcat(a, b', f);
      SumAppend(b', y, f);
    }
  }

  /** Summing does not depend on the order of the elements. */
  lemma {:induction false} SumPermutation<T>(a: seq<T>, b: seq<T>, f: T -> real)
    requires multiset(a) == multiset(b)
    ensures Sum(a, f) == Sum(b, f)
    decreases |a|
  {
    if a == [] {
      assert |multiset(b)| == 0;
      assert b == [];
    } else {
      var a', x := a[..|a| - 1], a[|a| - 1];
      assert a == a' + [x];
      assert x in multiset(b);
      var i :| 0 <= i < |b| && b[i] == x;
      var b' := b[..i] + b[i + 1..];
      assert b == b[..i] + [x] + b[i + 1..];
      assert multiset(b) == multiset(b') + multiset{x};
      assert multiset(a) == multiset(a') + multiset{x};
      assert multiset(a') == multiset(a) - multiset{x};
      assert multiset(b') == multiset(b) - multiset{x};
      SumPermutation(a', b', f);
      SumConcat(b[..i] + [x], b[i + 1..], f);
      SumAppend(b[..i], x, f);
      SumConcat(b[..i], b[i + 1..], f);
    }
  }

  /** Each summand lies in [lo, hi], so the sum lies in [|s| lo, |s| hi]. */
  lemma {:induction false} SumBounds<T>(s: seq<T>, f: T -> real, lo: real, hi: real)
    requires forall x :: x in s ==> lo <= f(x) <= hi
    ensures |s| as real * lo <= Sum(s, f) <= |s| as real * hi
    decreases |s|
  {
    if s != [] {
      SumBounds(s[..|s| - 1], f, lo, hi);
      assert s[|s| - 1] in s;
    }
  }

  /** With every summand in [0, 1], the sum lies between 0 and the length. */
  lemma {:induction false} SumWithinLength<T>(s: seq<T>, f: T -> real)
    requires forall x :: x in s ==> 0.0 <= f(x) <= 1.0
    ensures 0.0 <= Sum(s, f) <= |s| as real
  {
    if s != [] {
      SumWithinLength(s[..|s| - 1], f);
      assert s[|s| - 1] in s;
    }
  }

  lemma {:induction false} SumNonNegative<T>(s: seq<T>, f: T -> real)
    requires forall x :: x in s ==> f(x) >= 0.0
    ensures Sum(s, f) >= 0.0
  {
    if s != [] {
      SumNonNegative(s[..|s| - 1], f);
      assert s[|s| - 1] in s;
    }
  }

  /** `s.length > 0 ? s.reduce((sum, x) => sum + f(x), 0) / s.length : 0` */
  function Mean<T>(s: seq<T>, f: T -> real): (m: real)
    ensures s == [] ==> m == 0.0
    ensures s != [] ==> m == Sum(s, f) / |s| as real
  {
    if |s| > 0 then Sum(s, f) / |s| as real else 0.0
  }

  /** A mean of summands in [lo, hi] lies in [lo, hi]. */
  lemma {:induction false} MeanBounds<T>(s: seq<T>, f: T -> real, lo: real, hi: real)
    requires s != []
    requires forall x :: x in s ==> lo <= f(x) <= hi
    ensures lo <= Mean(s, f) <= hi
  {
    SumBounds(s, f, lo, hi);
    var n := |s| as real;
    assert n * lo <= Sum(s, f) <= n * hi;
    DivideWithin(Sum(s, f), n, lo, hi);
  }

  lemma DivideWithin(x: real, n: real, lo: real, hi: real)
    requires n > 0.0 && n * lo <= x <= n * hi
    ensures lo <= x / n <= hi
  {
    assert x / n * n == x;
  }

  /** A share of a positive whole lies in [0, 1]. */
  lemma QuotientInUnit(x: real, n: real)
    ensures 0.0 <= x <= n && n > 0.0 ==> 0.0 <= x / n <= 1.0
  {
    if 0.0 <= x <= n && n > 0.0 {
      assert x / n * n == x;
    }
  }

  /** `s.slice(0, n)` */
  function Take<T>(s: seq<T>, n: nat): (r: seq<T>)
    ensures |r| == if |s| <= n then |s| else n
    ensures r == s[..|r|]
  {
    if |s| <= n then s else s[..n]
  }

  /** `prev.includes(v) ? prev.filter(x => x !== v) : [...prev, v]` */
  function Toggle<T(==,!new)>(prev: seq<T>, v: T): (r: seq<T>)
    ensures v in prev ==> v !in r && forall x :: x != v ==> (x in r <==> x in prev)
    ensures v in prev ==> forall x :: x != v ==> multiset(r)[x] == multiset(prev)[x]
    ensures v !in prev ==> r == prev + [v]
  {
    if v in prev then Filter(prev, x => x != v) else prev + [v]
  }

  /** Toggling flips membership, and toggling twice restores membership of every value. */
  lemma ToggleTwice<T(!new)>(prev: seq<T>, v: T)
    ensures (v in Toggle(prev, v)) != (v in prev)
    ensures forall x :: x in Toggle(Toggle(prev, v), v) <==> x in prev
  {
  }

  /** `s.find(p)`: the first element satisfying p, if any. */
  function Find<T>(s: seq<T>, p: T -> bool): (r: Option<T>)
    ensures r.None? <==> forall i :: 0 <= i < |s| ==> !p(s[i])
    ensures r.Some? ==> exists i :: 0 <= i < |s| && s[i] == r.value && p(s[i]) &&
                                   forall j :: 0 <= j < i ==> !p(s[j])
  {
    if s == [] then None
    else if p(s[0]) then Some(s[0])
    else
      var r := Find(s[1..], p);
      assert forall i :: 1 <= i < |s| ==> s[i] == s[1..][i - 1];
      r
  }

  /** Find returns the element at i when it is the first to satisfy p. */
  lemma {:induction false} FindAt<T>(s: seq<T>, p: T -> bool, i: nat)
    requires i < |s| && p(s[i]) && forall j :: 0 <= j < i ==> !p(s[j])
    ensures Find(s, p) == Some(s[i])
  {
    if i > 0 {
      assert forall j :: 0 <= j < i - 1 ==> s[1..][j] == s[j + 1];
      FindAt(s[1..], p, i - 1);
    }
  }
  /** Two positions of a permutation come from two different positions of
    * the original. */
  lemma PermutedPair<T>(a: seq<T>, b: seq<T>, i: nat, j: nat) returns (k: nat, l: nat)
    requires multiset(a) == multiset(b) && i < j < |b|
    ensures k < |a| && l < |a| && k != l && a[k] == b[i] && a[l] == b[j]
  {
    assert b[i] in multiset(a) && b[j] in multiset(a);
    k :| 0 <= k < |a| && a[k] == b[i];
    if b[i] == b[j] {
      assert b == b[..j] + b[j..];
      assert b[..j][i] == b[i] && b[j..][0] == b[j];
      assert multiset(b)[b[i]] >= 2;
      assert a == a[..k] + [a[k]] + a[k + 1..];
      var rest := a[..k] + a[k + 1..];
      assert b[i] in multiset(rest);
      var m :| 0 <= m < |rest| && rest[m] == b[i];
      l := if m < k then m else m + 1;
    } else {
      l :| 0 <= l < |a| && a[l] == b[j];
    }
  }

  /** Keys that differ pairwise still do after any permutation. */
  lemma UniqueKeysPermutation<T, K>(a: seq<T>, b: seq<T>, key: T -> K)
    requires multiset(a) == multiset(b)
    requires forall i, j :: 0 <= i < j < |a| ==> key(a[i]) != key(a[j])
    ensures forall i, j :: 0 <= i < j < |b| ==> key(b[i]) != key(b[j])
  {
    forall i, j | 0 <= i < j < |b| ensures key(b[i]) != key(b[j]) {
      var k, l := PermutedPair(a, b, i, j);
      if k < l {
        assert key(a[k]) != key(a[l]);
      } else {
        assert key(a[l]) != key(a[k]);
      }
    }
  }
}
