/** The JavaScript `Array` methods the storefront relies on, as functions on
    sequences: `map`, `filter`, `slice(0, n)` and a stable `sort` with a
    comparator, plus the orderings and properties used to state what they
    return. */
module Seqs {

  /** `Array.prototype.map`. */
  function Map<T, U>(s: seq<T>, f: T -> U): (r: seq<U>)
    ensures |r| == |s|
    ensures forall i | 0 <= i < |s| :: r[i] == f(s[i])
  {
    seq(|s|, i requires 0 <= i < |s| => f(s[i]))
  }

  /** `Array.prototype.filter`: the elements that satisfy `keep`, in their order. */
  function Filter<T(==)>(s: seq<T>, keep: T -> bool): (r: seq<T>)
    ensures |r| <= |s|
    ensures forall i | 0 <= i < |r| :: r[i] in s && keep(r[i])
    ensures forall i | 0 <= i < |s| && keep(s[i]) :: s[i] in r
    ensures multiset(r) <= multiset(s)
  {
    if s == [] then []
    else
      assert s == [s[0]] + s[1..];
      if keep(s[0]) then [s[0]] + Filter(s[1..], keep)
      else Filter(s[1..], keep)
  }

  /** `Array.prototype.slice(0, n)`: at most the first `n` elements. */
  function Take<T>(s: seq<T>, n: nat): (r: seq<T>)
    ensures |r| == if |s| < n then |s| else n
    ensures r == s[..|r|]
  {
    if |s| <= n then s else s[..n]
  }

  /** `r` is obtained from `s` by deleting elements, without reordering.
      Greedy matching of `r`'s head against `s` decides this exactly. */
  predicate IsSubsequence<T(==)>(r: seq<T>, s: seq<T>)
    decreases |s|
  {
    if r == [] then true
    else if s == [] then false
    else if r[0] == s[0] then IsSubsequence(r[1..], s[1..])
    else IsSubsequence(r, s[1..])
  }

  /** No two elements of `s` share a key. */
  predicate DistinctBy<T, K(==)>(s: seq<T>, key: T -> K) {
    forall i, j | 0 <= i < j < |s| :: key(s[i]) != key(s[j])
  }

  lemma {:induction false} FilterIsSubsequence<T>(s: seq<T>, keep: T -> bool)
    ensures IsSubsequence(Filter(s, keep), s)
  {
    if s != [] {
      var r := Filter(s, keep);
      FilterIsSubsequence(s[1..], keep);
      if keep(s[0]) {
        assert r[1..] == Filter(s[1..], keep);
      } else if r != [] {
        assert r[0] in r;
        assert r[0] != s[0];
      }
    }
  }

  /** Every prefix of a subsequence of `s` is a subsequence of `s`. */
  lemma {:induction false} SubsequencePrefix<T>(r: seq<T>, s: seq<T>, n: nat)
    requires IsSubsequence(r, s) && n <= |r|
    ensures IsSubsequence(r[..n], s)
    decreases |s|
  {
    if n > 0 {
      assert s != [];
      if r[0] == s[0] {
        SubsequencePrefix(r[1..], s[1..], n - 1);
        assert r[..n][1..] == r[1..][..n - 1];
      } else {
        SubsequencePrefix(r, s[1..], n);
      }
    }
  }

  /** `Filter` seen one element at a time from the front. */
  lemma FilterCons<T>(x: T, s: seq<T>, keep: T -> bool)
    ensures Filter([x] + s, keep) == (if keep(x) then [x] else []) + Filter(s, keep)
  {
    assert ([x] + s)[1..] == s;
  }

  /** `Filter` keeps every copy of a value that satisfies `keep` and no copy
      of one that does not. */
  lemma {:induction false} FilterMultiset<T>(s: seq<T>, keep: T -> bool, x: T)
    ensures multiset(Filter(s, keep))[x] == if keep(x) then multiset(s)[x] else 0
  {
    if s != [] {
      var t := s[1..];
      FilterMultiset(t, keep, x);
      assert s == [s[0]] + t;
      assert multiset(s) == multiset{s[0]} + multiset(t);
      if keep(s[0]) {
        assert Filter(s, keep) == [s[0]] + Filter(t, keep);
        assert multiset(Filter(s, keep)) == multiset{s[0]} + multiset(Filter(t, keep));
      } else {
        assert Filter(s, keep) == Filter(t, keep);
      }
    }
  }

  /** Filtering with a predicate that every element meets returns the input. */
  lemma {:induction false} FilterKeepsAll<T>(s: seq<T>, keep: T -> bool)
    requires forall i | 0 <= i < |s| :: keep(s[i])
    ensures Filter(s, keep) == s
  {
    if s != [] {
      FilterKeepsAll(s[1..], keep);
    }
  }

  /** Filtering with a predicate that no element meets returns nothing. */
  lemma {:induction false} FilterKeepsNone<T>(s: seq<T>, keep: T -> bool)
    requires forall i | 0 <= i < |s| :: !keep(s[i])
    ensures Filter(s, keep) == []
  {
    if s != [] {
      FilterKeepsNone(s[1..], keep);
    }
  }

  /** Filtering keeps keys distinct. */
  lemma {:induction false} FilterKeepsDistinct<T, K>(s: seq<T>, keep: T -> bool, key: T -> K)
    requires DistinctBy(s, key)
    ensures DistinctBy(Filter(s, keep), key)
  {
    if s != [] {
      var t := Filter(s[1..], keep);
      FilterKeepsDistinct(s[1..], keep, key);
      if keep(s[0]) {
        forall j | 0 <= j < |t| ensures key(s[0]) != key(t[j]) {
          assert t[j] in s[1..];
          var k :| 0 <= k < |s[1..]| && s[1..][k] == t[j];
          assert s[k + 1] == t[j];
        }
        var r := [s[0]] + t;
        forall i, j | 0 <= i < j < |r| ensures key(r[i]) != key(r[j]) {
          if i > 0 {
            assert r[i] == t[i - 1] && r[j] == t[j - 1];
          }
        }
      }
    }
  }

  // ----- Orderings and a stable sort -----

  /** `le` is total and transitive: a valid `<=` for sorting (ties allowed). */
  ghost predicate TotalPreorder<T(!new)>(le: (T, T) -> bool) {
    && (forall a, b :: le(a, b) || le(b, a))
    && (forall a, b, c :: le(a, b) && le(b, c) ==> le(a, c))
  }

  ghost predicate SortedBy<T>(s: seq<T>, le: (T, T) -> bool) {
    forall i, j | 0 <= i < j < |s| :: le(s[i], s[j])
  }

  /** The elements of `s` that `le` ranks level with `x`, in their order. */
  function TiedWith<T(==)>(s: seq<T>, le: (T, T) -> bool, x: T): seq<T> {
    Filter(s, y => le(x, y) && le(y, x))
  }

  /** Places `x` before the first element it does not come after. */
  function Insert<T(==)>(x: T, t: seq<T>, le: (T, T) -> bool): (r: seq<T>)
    ensures |r| == |t| + 1
    ensures multiset(r) == multiset(t) + multiset{x}
  {
    if t == [] then [x]
    else if le(x, t[0]) then [x] + t
    else
      assert t == [t[0]] + t[1..];
      [t[0]] + Insert(x, t[1..], le)
  }

  /** `Array.prototype.sort` with comparator `cmp` is a stable sort by
      `le(a, b) := cmp(a, b) <= 0`; this insertion sort is that function. */
  function Sort<T(==)>(s: seq<T>, le: (T, T) -> bool): (r: seq<T>)
    ensures |r| == |s|
    ensures multiset(r) == multiset(s)
  {
    if s == [] then []
    else
      assert s == [s[0]] + s[1..];
      Insert(s[0], Sort(s[1..], le), le)
  }

  lemma {:induction false} InsertSorted<T(!new)>(x: T, t: seq<T>, le: (T, T) -> bool)
    requires TotalPreorder(le) && SortedBy(t, le)
    ensures SortedBy(Insert(x, t, le), le)
  {
    if t != [] {
      var r := Insert(x, t, le);
      if le(x, t[0]) {
        forall i, j | 0 <= i < j < |r| ensures le(r[i], r[j]) {
          if i == 0 && j > 1 {
            assert le(t[0], t[j - 1]);
          }
        }
      } else {
        var u := Insert(x, t[1..], le);
        InsertSorted(x, t[1..], le);
        assert le(t[0], x);
        forall k | 0 <= k < |u| ensures le(t[0], u[k]) {
          assert u[k] in multiset(u);
          assert u[k] in multiset(t[1..]) + multiset{x};
          if u[k] != x {
            assert u[k] in t[1..];
            var m :| 0 <= m < |t[1..]| && t[1..][m] == u[k];
            assert t[m + 1] == u[k];
          }
        }
        forall i, j | 0 <= i < j < |r| ensures le(r[i], r[j]) {
          if i == 0 {
            assert r[j] == u[j - 1];
          } else {
            assert r[i] == u[i - 1] && r[j] == u[j - 1];
          }
        }
      }
    }
  }

  /** The sort returns a sorted permutation of its input. */
  lemma {:induction false} SortSorted<T(!new)>(s: seq<T>, le: (T, T) -> bool)
    requires TotalPreorder(le)
    ensures SortedBy(Sort(s, le), le)
  {
    if s != [] {
      SortSorted(s[1..], le);
      InsertSorted(s[0], Sort(s[1..], le), le);
    }
  }

  /** `TiedWith` seen one element at a time from the front. */
  lemma TiedWithCons<T>(x: T, s: seq<T>, le: (T, T) -> bool, y: T)
    ensures TiedWith([x] + s, le, y)
         == (if le(y, x) && le(x, y) then [x] else []) + TiedWith(s, le, y)
  {
    assert ([x] + s)[1..] == s;
  }

  lemma TiedWithHead<T>(s: seq<T>, le: (T, T) -> bool, y: T)
    requires s != []
    ensures TiedWith(s, le, y)
         == (if le(y, s[0]) && le(s[0], y) then [s[0]] else []) + TiedWith(s[1..], le, y)
  {
  }

  lemma PreorderTrans<T(!new)>(le: (T, T) -> bool, a: T, b: T, c: T)
    requires TotalPreorder(le)
    ensures le(a, b) && le(b, c) ==> le(a, c)
  {
  }

  /** Two pieces of which at least one is empty can go in either order. */
  lemma SwapEmpty<T>(a: seq<T>, b: seq<T>, rest: seq<T>)
    requires a == [] || b == []
    ensures a + (b + rest) == b + (a + rest)
  {
    if a == [] {
      assert a + (b + rest) == b + rest && a + rest == rest;
    } else {
      assert b + (a + rest) == a + rest && b + rest == rest;
    }
  }

  /** Inserting `x` leaves every tie class in order, with `x` first in its own. */
  lemma {:induction false} InsertStable<T(!new)>(x: T, t: seq<T>, le: (T, T) -> bool, y: T)
    requires TotalPreorder(le)
    ensures TiedWith(Insert(x, t, le), le, y)
         == (if le(y, x) && le(x, y) then [x] else []) + TiedWith(t, le, y)
  {
    if t == [] {
      TiedWithCons(x, [], le, y);
    } else if le(x, t[0]) {
      TiedWithCons(x, t, le, y);
    } else {
      var u := Insert(x, t[1..], le);
      assert Insert(x, t, le) == [t[0]] + u;
      InsertStable(x, t[1..], le, y);
      var a0 := if le(y, t[0]) && le(t[0], y) then [t[0]] else [];
      var xs := if le(y, x) && le(x, y) then [x] else [];
      var rest := TiedWith(t[1..], le, y);
      assert TiedWith(u, le, y) == xs + rest;
      TiedWithCons(t[0], u, le, y);
      assert TiedWith(Insert(x, t, le), le, y) == a0 + (xs + rest);
      TiedWithHead(t, le, y);
      PreorderTrans(le, x, y, t[0]);
      SwapEmpty(a0, xs, rest);
    }
  }

  /** Stability: each tie class keeps its order from the input. */
  lemma {:induction false} SortStable<T(!new)>(s: seq<T>, le: (T, T) -> bool, y: T)
    requires TotalPreorder(le)
    ensures TiedWith(Sort(s, le), le, y) == TiedWith(s, le, y)
  {
    if s != [] {
      SortStable(s[1..], le, y);
      InsertStable(s[0], Sort(s[1..], le), le, y);
    }
  }
}
