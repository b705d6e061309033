/**
 * The array idioms the components are written with: `map`, `filter`,
 * `reduce` to a sum, `Array.from(new Set(...))` and the "push into the
 * bucket of its key" fold.  All folds recurse on the last element, so that a
 * loop running from the left extends them one step at a time.
 */
module Seqs {
  import opened Types

  /** `s.map(f)` */
  function Map<A, B>(s: seq<A>, f: A -> B): (r: seq<B>)
    ensures |r| == |s|
    ensures forall i :: 0 <= i < |s| ==> r[i] == f(s[i])
  {
    if s == [] then [] else Map(s[..|s| - 1], f) + [f(s[|s| - 1])]
  }

  /** `s.find(p)`: the first element that passes, if any. */
  function Find<T>(s: seq<T>, p: T -> bool): (r: Option<T>)
    ensures r.Some? ==> exists i :: 0 <= i < |s| && s[i] == r.value && p(s[i]) &&
                                    forall j :: 0 <= j < i ==> !p(s[j])
    ensures r.None? <==> forall i :: 0 <= i < |s| ==> !p(s[i])
  {
    if s == [] then None
    else if p(s[0]) then Some(s[0])
    else
      var r := Find(s[1..], p);
      assert forall i :: 1 <= i < |s| ==> s[i] == s[1..][i - 1];
      r
  }

  /** Find returns the first element that passes. */
  lemma {:induction false} FindFirst<T>(s: seq<T>, p: T -> bool, i: nat)
    requires i < |s| && p(s[i]) && forall j :: 0 <= j < i ==> !p(s[j])
    ensures Find(s, p) == Some(s[i])
  {
    if i > 0 {
      FindFirst(s[1..], p, i - 1);
    }
  }

  /** a is a subsequence of b: b with some elements left out, order kept. */
  predicate IsSubsequence<T(==)>(a: seq<T>, b: seq<T>)
  {
    a == [] ||
    (b != [] &&
     ((a[|a| - 1] == b[|b| - 1] && IsSubsequence(a[..|a| - 1], b[..|b| - 1])) ||
      IsSubsequence(a, b[..|b| - 1])))
  }

  /** `s.filter(p)` */
  function Filter<T(!new)>(s: seq<T>, p: T -> bool): (r: seq<T>)
    ensures |r| <= |s|
    ensures forall x :: x in r <==> x in s && p(x)
  {
    if s == [] then []
    else
      var init := s[..|s| - 1];
      var last := s[|s| - 1];
      assert s == init + [last];
      assert multiset(s) == multiset(init) + multiset{last};
      Filter(init, p) + (if p(last) then [last] else [])
  }

  /** `filter` keeps every copy of a passing value and no copy of a failing one. */
  lemma {:induction false} FilterMultiset<T(!new)>(s: seq<T>, p: T -> bool)
    ensures forall x :: multiset(Filter(s, p))[x] == if p(x) then multiset(s)[x] else 0
  {
    if s != [] {
      var init := s[..|s| - 1];
      var last := s[|s| - 1];
      FilterMultiset(init, p);
      assert s == init + [last];
      assert multiset(s) == multiset(init) + multiset{last};
      assert multiset(Filter(s, p)) == multiset(Filter(init, p)) + multiset(if p(last) then [last] else []);
    }
  }

  /** What `filter` keeps stays in its original relative order. */
  lemma {:induction false} FilterIsSubsequence<T(!new)>(s: seq<T>, p: T -> bool)
    ensures IsSubsequence(Filter(s, p), s)
  {
    if s != [] {
      var init := s[..|s| - 1];
      var last := s[|s| - 1];
      FilterIsSubsequence(init, p);
      var r := Filter(s, p);
      if p(last) {
        assert r[..|r| - 1] == Filter(init, p);
      } else {
        assert r == Filter(init, p);
      }
    }
  }

  /** Filtering with a test that every element passes keeps the whole sequence. */
  lemma FilterAll<T(!new)>(s: seq<T>, p: T -> bool)
    requires forall x :: x in s ==> p(x)
    ensures Filter(s, p) == s
  {
    if s != [] {
      FilterAll(s[..|s| - 1], p);
      assert s == s[..|s| - 1] + [s[|s| - 1]];
    }
  }

  /** Filtering with a test that no element passes leaves nothing. */
  lemma FilterNone<T(!new)>(s: seq<T>, p: T -> bool)
    requires forall x :: x in s ==> !p(x)
    ensures Filter(s, p) == []
  {
  }

  /** Filters with predicates that agree on s keep the same elements. */
  lemma {:induction false} FilterSame<T(!new)>(s: seq<T>, p: T -> bool, q: T -> bool)
    requires forall x :: x in s ==> p(x) == q(x)
    ensures Filter(s, p) == Filter(s, q)
  {
    if s != [] {
      var init := s[..|s| - 1];
      assert forall x :: x in init ==> x in s;
      FilterSame(init, p, q);
    }
  }

  /** The first element a filter keeps is the first element that passes. */
  lemma {:induction false} FilterFirst<T(!new)>(s: seq<T>, p: T -> bool, i: nat)
    requires i < |s| && p(s[i]) && forall j :: 0 <= j < i ==> !p(s[j])
    ensures Filter(s, p) != [] && Filter(s, p)[0] == s[i]
  {
    var init := s[..|s| - 1];
    if i == |s| - 1 {
      FilterNone(init, p);
    } else {
      FilterFirst(init, p, i);
    }
  }

  /** `s.slice(0, n)`: the first n elements, or all of s when it is shorter. */
  function Take<T>(s: seq<T>, n: nat): (r: seq<T>)
    ensures |r| == if |s| < n then |s| else n
    ensures r == s[..|r|]
  {
    if |s| < n then s else s[..n]
  }

  /** `s.reduce((sum, x) => sum + f(x), 0)` */
  function Sum<T>(s: seq<T>, f: T -> real): real
  {
    if s == [] then 0.0 else Sum(s[..|s| - 1], f) + f(s[|s| - 1])
  }

  /** A sum of terms that are not negative is not negative. */
  lemma {:induction false} SumNonNegative<T>(s: seq<T>, f: T -> real)
    ensures (forall i :: 0 <= i < |s| ==> 0.0 <= f(s[i])) ==> 0.0 <= Sum(s, f)
  {
    if s != [] && forall i :: 0 <= i < |s| ==> 0.0 <= f(s[i]) {
      var init := s[..|s| - 1];
      assert forall i :: 0 <= i < |init| ==> init[i] == s[i];
      SumNonNegative(init, f);
    }
  }

  lemma SumAppend<T>(a: seq<T>, b: seq<T>, f: T -> real)
    ensures Sum(a + b, f) == Sum(a, f) + Sum(b, f)
    decreases |b|
  {
    if b != [] {
      var b' := b[..|b| - 1];
      assert (a + b)[..|a + b| - 1] == a + b';
      SumAppend(a, b', f);
    } else {
      assert a + b == a;
    }
  }

  /** Summing f over a equals summing g plus summing h over b, when a and b agree pointwise that way. */
  lemma {:induction false} SumPointwise<A, B>(a: seq<A>, b: seq<B>, f: A -> real, g: B -> real, h: B -> real)
    requires |a| == |b|
    requires forall i :: 0 <= i < |a| ==> f(a[i]) == g(b[i]) + h(b[i])
    ensures Sum(a, f) == Sum(b, g) + Sum(b, h)
  {
    if a != [] {
      SumPointwise(a[..|a| - 1], b[..|b| - 1], f, g, h);
    }
  }

  /** Each summand within [lo, hi] puts the sum within [|s|*lo, |s|*hi]. */
  lemma {:induction false} SumBounds<T>(s: seq<T>, f: T -> real, lo: real, hi: real)
    requires forall i :: 0 <= i < |s| ==> lo <= f(s[i]) <= hi
    ensures (|s| as real) * lo <= Sum(s, f) <= (|s| as real) * hi
  {
    if s != [] {
      var init := s[..|s| - 1];
      assert forall i :: 0 <= i < |init| ==> init[i] == s[i];
      SumBounds(init, f, lo, hi);
      BoundStep(|init| as real, Sum(init, f), f(s[|s| - 1]), lo, hi);
    } else {
      assert (|s| as real) * lo == 0.0 && (|s| as real) * hi == 0.0;
    }
  }

  /** One more summand within [lo, hi] keeps a sum of n summands within bounds, for n + 1. */
  lemma BoundStep(n: real, a: real, v: real, lo: real, hi: real)
    requires n * lo <= a <= n * hi && lo <= v <= hi
    ensures (n + 1.0) * lo <= a + v <= (n + 1.0) * hi
  {
    assert (n + 1.0) * lo == n * lo + lo && (n + 1.0) * hi == n * hi + hi;
  }

  predicate NoDuplicates<T(==)>(s: seq<T>)
  {
    forall i, j :: 0 <= i < j < |s| ==> s[i] != s[j]
  }

  /** `Array.from(new Set(s))`: the first occurrence of each value, in order. */
  function Dedup<T(==,!new)>(s: seq<T>): (r: seq<T>)
    ensures NoDuplicates(r)
    ensures forall x :: x in r <==> x in s
    ensures |r| <= |s|
  {
    if s == [] then []
    else
      var d := Dedup(s[..|s| - 1]);
      var last := s[|s| - 1];
      assert s == s[..|s| - 1] + [last];
      if last in d then d else d + [last]
  }

  /** `s.flatMap(f)` */
  function FlatMap<A, B(!new)>(s: seq<A>, f: A -> seq<B>): (r: seq<B>)
    ensures forall y :: y in r <==> exists x :: x in s && y in f(x)
  {
    if s == [] then []
    else
      var init := s[..|s| - 1];
      var last := s[|s| - 1];
      assert s == init + [last];
      FlatMap(init, f) + f(last)
  }

  /** The test "has key k" of a bucketing fold. */
  function KeyIs<T>(key: T -> string, k: string): T -> bool
  {
    x => key(x) == k
  }

  /** The distinct keys of s, in order of first appearance (the key order of the bucket object). */
  function Keys<T(!new)>(s: seq<T>, key: T -> string): (r: seq<string>)
    ensures NoDuplicates(r)
    ensures forall k :: k in r <==> exists x :: x in s && key(x) == k
  {
    var ks := Map(s, key);
    assert forall k :: k in ks ==> exists x :: x in s && key(x) == k by {
      forall k | k in ks ensures exists x :: x in s && key(x) == k {
        var i :| 0 <= i < |ks| && ks[i] == k;
        assert s[i] in s;
      }
    }
    assert forall x :: x in s ==> key(x) in ks by {
      forall x | x in s ensures key(x) in ks {
        var i :| 0 <= i < |s| && s[i] == x;
        assert ks[i] == key(x);
      }
    }
    Dedup(ks)
  }

  /**
   * The fold `acc[key(x)] = [...(acc[key(x)] || []), x]` over s: one bucket
   * per key, each holding the elements with that key in their original order.
   */
  method GroupBy<T(!new)>(s: seq<T>, key: T -> string) returns (groups: map<string, seq<T>>)
    ensures forall k :: k in groups <==> k in Keys(s, key)
    ensures forall k :: k in groups ==> groups[k] == Filter(s, KeyIs(key, k))
  {
    groups := map[];
    var i := 0;
    while i < |s|
      invariant 0 <= i <= |s|
      invariant Buckets(groups, s[..i], key)
    {
      var x := s[i];
      var bucket := if key(x) in groups then groups[key(x)] else [];
      BucketsStep(groups, s, i, key);
      groups := groups[key(x) := bucket + [x]];
      i := i + 1;
    }
    assert s[..i] == s;
  }

  /**
   * The fold `acc[key(x)] = (acc[key(x)] || 0) + w(x)` over s: one entry per
   * key that occurs, holding the sum of w over the elements with that key.
   */
  method SumBy<T(!new)>(s: seq<T>, key: T -> string, w: T -> real) returns (totals: map<string, real>)
    ensures forall k :: k in totals <==> k in Keys(s, key)
    ensures forall k :: k in totals ==> totals[k] == Sum(Filter(s, KeyIs(key, k)), w)
  {
    totals := map[];
    var i := 0;
    while i < |s|
      invariant 0 <= i <= |s|
      invariant totals == Totals(s[..i], key, w)
    {
      var x := s[i];
      var k := key(x);
      var before := if k in totals then totals[k] else 0.0;
      assert s[..i + 1][..i] == s[..i];
      totals := totals[k := before + w(x)];
      i := i + 1;
    }
    assert s[..i] == s;
    forall k ensures (k in totals <==> k in Keys(s, key)) &&
                     (k in totals ==> totals[k] == Sum(Filter(s, KeyIs(key, k)), w)) {
      TotalKeyAt(s, key, w, k);
      if k in totals {
        TotalValueAt(s, key, w, k);
      }
    }
  }

  /** The same fold, written as a recursion on the last element. */
  ghost function Totals<T>(s: seq<T>, key: T -> string, w: T -> real): map<string, real>
  {
    if s == [] then map[]
    else
      var m := Totals(s[..|s| - 1], key, w);
      var k := key(s[|s| - 1]);
      m[k := (if k in m then m[k] else 0.0) + w(s[|s| - 1])]
  }

  /** The fold has an entry for k exactly when k occurs. */
  lemma {:induction false} TotalKeyAt<T(!new)>(s: seq<T>, key: T -> string, w: T -> real, k: string)
    ensures k in Totals(s, key, w) <==> exists x :: x in s && key(x) == k
  {
    if s != [] {
      var init, x := s[..|s| - 1], s[|s| - 1];
      TotalKeyAt(init, key, w, k);
      if exists y :: y in s && key(y) == k {
        var y :| y in s && key(y) == k;
        var n :| 0 <= n < |s| && s[n] == y;
        if n < |s| - 1 {
          assert init[n] == y;
        }
      }
      if exists y :: y in init && key(y) == k {
        var y :| y in init && key(y) == k;
        var n :| 0 <= n < |init| && init[n] == y;
        assert s[n] == y;
      }
    }
  }

  /** The fold's entry for k is the sum of w over k's elements. */
  lemma {:induction false} TotalValueAt<T(!new)>(s: seq<T>, key: T -> string, w: T -> real, k: string)
    requires k in Totals(s, key, w)
    ensures Totals(s, key, w)[k] == Sum(Filter(s, KeyIs(key, k)), w)
  {
    var init := s[..|s| - 1];
    GroupSumStep(s, key, w, k);
    if k in Totals(init, key, w) {
      TotalValueAt(init, key, w, k);
    } else {
      TotalKeyAt(init, key, w, k);
      FilterNone(init, KeyIs(key, k));
    }
  }

  /** groups has one bucket per key occurring in s, holding that key's elements in order. */
  ghost predicate Buckets<T(!new)>(groups: map<string, seq<T>>, s: seq<T>, key: T -> string)
  {
    && (forall k :: k in groups <==> exists x :: x in s && key(x) == k)
    && (forall k :: k in groups ==> groups[k] == Filter(s, KeyIs(key, k)))
  }

  lemma {:induction false} BucketsStep<T(!new)>(groups: map<string, seq<T>>, s: seq<T>, i: nat, key: T -> string)
    requires i < |s| && Buckets(groups, s[..i], key)
    ensures var bucket := if key(s[i]) in groups then groups[key(s[i])] else [];
            Buckets(groups[key(s[i]) := bucket + [s[i]]], s[..i + 1], key)
  {
    assert s[..i + 1] == s[..i] + [s[i]];
    BucketsSnoc(groups, s[..i], key, s[i]);
  }

  lemma {:induction false} BucketsSnoc<T(!new)>(groups: map<string, seq<T>>, s: seq<T>, key: T -> string, x: T)
    requires Buckets(groups, s, key)
    ensures var bucket := if key(x) in groups then groups[key(x)] else [];
            Buckets(groups[key(x) := bucket + [x]], s + [x], key)
  {
    var k := key(x);
    var bucket := if k in groups then groups[k] else [];
    var g := groups[k := bucket + [x]];
    forall j ensures j in g <==> exists y :: y in s + [x] && key(y) == j {
      if exists y :: y in s + [x] && key(y) == j {
        var y :| y in s + [x] && key(y) == j;
        if y != x {
          assert y in s;
        }
      }
    }
    forall j | j in g ensures g[j] == Filter(s + [x], KeyIs(key, j)) {
      BucketStep(groups, s, key, x, j);
    }
  }

  lemma {:induction false} BucketStep<T(!new)>(groups: map<string, seq<T>>, s: seq<T>, key: T -> string, x: T, j: string)
    requires Buckets(groups, s, key)
    requires j in groups || j == key(x)
    ensures var bucket := if key(x) in groups then groups[key(x)] else [];
            groups[key(x) := bucket + [x]][j] == Filter(s + [x], KeyIs(key, j))
  {
    var s' := s + [x];
    assert s'[..|s'| - 1] == s;
    if j !in groups {
      FilterNone(s, KeyIs(key, j));
    }
  }

  /** The sum over the keys of s of the per-key sums is the sum over s. */
  lemma {:induction false} PartitionSum<T(!new)>(s: seq<T>, key: T -> string, w: T -> real)
    ensures Sum(Keys(s, key), GroupSum(s, key, w)) == Sum(s, w)
  {
    if s != [] {
      var init := s[..|s| - 1];
      PartitionSum(init, key, w);
      GroupsShift(Keys(init, key), s, key, w);
      KeysSumStep(s, key, w);
    }
  }

  /**
   * Summing the per-key sums of s over its keys adds, to the sum over the
   * keys of s without its last element x, the sum for x's key when that key
   * is new.
   */
  lemma KeysSumStep<T(!new)>(s: seq<T>, key: T -> string, w: T -> real)
    requires s != []
    ensures var init, x := s[..|s| - 1], s[|s| - 1];
            Sum(Keys(s, key), GroupSum(s, key, w)) ==
            Sum(Keys(init, key), GroupSum(s, key, w)) + (if key(x) in Keys(init, key) then 0.0 else w(x))
  {
    var init, x := s[..|s| - 1], s[|s| - 1];
    var k := key(x);
    var G, G' := GroupSum(s, key, w), GroupSum(init, key, w);
    var K, K' := Keys(s, key), Keys(init, key);
    KeysStep(s, key);
    if k !in K' {
      assert K == K' + [k];
      assert K[..|K| - 1] == K';
      assert Sum(K, G) == Sum(K', G) + G(k);
      FilterNone(init, KeyIs(key, k));
      assert G'(k) == 0.0;
      GroupSumStep(s, key, w, k);
    }
  }

  /**
   * Over a duplicate-free list of keys, the per-key sums of s exceed those of
   * s without its last element x by w(x) when the list holds x's key.
   */
  lemma {:induction false} GroupsShift<T(!new)>(ks: seq<string>, s: seq<T>, key: T -> string, w: T -> real)
    requires s != [] && NoDuplicates(ks)
    ensures var x := s[|s| - 1];
            Sum(ks, GroupSum(s, key, w)) ==
            Sum(ks, GroupSum(s[..|s| - 1], key, w)) + (if key(x) in ks then w(x) else 0.0)
  {
    if ks != [] {
      var init := ks[..|ks| - 1];
      assert ks == init + [ks[|ks| - 1]];
      assert NoDuplicates(init);
      GroupsShift(init, s, key, w);
      GroupSumStep(s, key, w, ks[|ks| - 1]);
    }
  }

  lemma GroupSumStep<T(!new)>(s: seq<T>, key: T -> string, w: T -> real, c: string)
    requires s != []
    ensures GroupSum(s, key, w)(c) ==
            GroupSum(s[..|s| - 1], key, w)(c) + (if key(s[|s| - 1]) == c then w(s[|s| - 1]) else 0.0)
  {
    var init, x := s[..|s| - 1], s[|s| - 1];
    var tail := if key(x) == c then [x] else [];
    assert Filter(s, KeyIs(key, c)) == Filter(init, KeyIs(key, c)) + tail;
    SumAppend(Filter(init, KeyIs(key, c)), tail, w);
    assert Sum([x], w) == w(x) by { assert [x][..0] == []; }
  }

  lemma KeysStep<T(!new)>(s: seq<T>, key: T -> string)
    requires s != []
    ensures var K' := Keys(s[..|s| - 1], key);
            var k := key(s[|s| - 1]);
            Keys(s, key) == if k in K' then K' else K' + [k]
  {
    var init := s[..|s| - 1];
    assert Map(s, key)[..|s| - 1] == Map(init, key);
  }

  /** The per-key sum used by PartitionSum. */
  function GroupSum<T(!new)>(s: seq<T>, key: T -> string, w: T -> real): string -> real
  {
    k => Sum(Filter(s, KeyIs(key, k)), w)
  }
}
