/**
 * `Array.prototype.sort` with a comparator, as the components use it.  The
 * comparator is modelled by the order `leq` it induces ("a may come before
 * b"); any total preorder will do.  The sort is an insertion sort; what the
 * model promises is what the library promises: the result is ordered and is
 * a permutation of the input.
 */
module Sorting {
  import Seqs

  ghost predicate TotalPreorder<T(!new)>(leq: (T, T) -> bool)
  {
    && (forall a, b :: leq(a, b) || leq(b, a))
    && (forall a, b, c :: leq(a, b) && leq(b, c) ==> leq(a, c))
  }

  predicate Sorted<T>(s: seq<T>, leq: (T, T) -> bool)
  {
    forall i, j :: 0 <= i < j < |s| ==> leq(s[i], s[j])
  }

  /**
   * Insert x in front of the first element that must come after it, so that
   * x goes behind the elements it ties with.
   */
  function Insert<T(!new)>(x: T, s: seq<T>, leq: (T, T) -> bool): (r: seq<T>)
    requires TotalPreorder(leq) && Sorted(s, leq)
    ensures Sorted(r, leq)
    ensures multiset(r) == multiset(s) + multiset{x}
    ensures |r| == |s| + 1
  {
    if s == [] then [x]
    else if !leq(s[0], x) then
      assert leq(x, s[0]);
      assert forall j :: 0 < j < |s| ==> leq(s[0], s[j]);
      [x] + s
    else
      var rest := Insert(x, s[1..], leq);
      assert s == [s[0]] + s[1..];
      assert forall j :: 0 <= j < |rest| ==> leq(s[0], rest[j]) by {
        forall j | 0 <= j < |rest| ensures leq(s[0], rest[j]) {
          assert rest[j] in multiset(rest);
          assert rest[j] == x || rest[j] in multiset(s[1..]);
          if rest[j] != x {
            var k :| 0 <= k < |s[1..]| && s[1..][k] == rest[j];
            assert leq(s[0], s[k + 1]);
          } else {
            assert leq(s[0], x);
          }
        }
      }
      [s[0]] + rest
  }

  function Sort<T(!new)>(s: seq<T>, leq: (T, T) -> bool): (r: seq<T>)
    requires TotalPreorder(leq)
    ensures Sorted(r, leq)
    ensures multiset(r) == multiset(s)
    ensures |r| == |s|
  {
    if s == [] then []
    else
      assert s == s[..|s| - 1] + [s[|s| - 1]];
      Insert(s[|s| - 1], Sort(s[..|s| - 1], leq), leq)
  }

  /**
   * The first n elements of a sorted sequence may come before every element
   * left behind.
   */
  lemma PrefixComesFirst<T(!new)>(s: seq<T>, n: nat, leq: (T, T) -> bool)
    requires Sorted(s, leq) && n <= |s|
    ensures forall x, y :: x in multiset(s) - multiset(s[..n]) && y in s[..n] ==> leq(y, x)
  {
    assert s == s[..n] + s[n..];
    assert multiset(s) - multiset(s[..n]) == multiset(s[n..]);
    forall x, y | x in multiset(s) - multiset(s[..n]) && y in s[..n] ensures leq(y, x) {
      assert x in s[n..];
      var j :| 0 <= j < |s[n..]| && s[n..][j] == x;
      var i :| 0 <= i < n && s[..n][i] == y;
      assert s[i] == y && s[n + j] == x;
    }
  }

  /** Filtering a sorted sequence leaves it sorted. */
  lemma {:induction false} FilterSorted<T(!new)>(s: seq<T>, p: T -> bool, leq: (T, T) -> bool)
    requires Sorted(s, leq)
    ensures Sorted(Seqs.Filter(s, p), leq)
  {
    if s != [] {
      var init := s[..|s| - 1];
      var last := s[|s| - 1];
      FilterSorted(init, p, leq);
      var f := Seqs.Filter(init, p);
      forall y | y in f ensures leq(y, last) {
        var k :| 0 <= k < |init| && init[k] == y;
        assert s[k] == y;
      }
    }
  }
}
