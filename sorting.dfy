/** Stable sorting by an integer key, as Python's `sorted(xs, key=..., reverse=...)`
    does it: descending when `desc` (Python's `reverse=True`), ascending
    otherwise, and in both directions elements with equal keys keep their
    input order. The sort works on indices: `Order(keys, desc)` is the
    permutation of `0..|keys|` that `sorted` applies. */
module Sorting {

  /** Index `i` goes before index `j`: a strictly better key, or an equal key and an earlier position. */
  predicate Before(keys: seq<int>, desc: bool, i: nat, j: nat)
    requires i < |keys| && j < |keys|
  {
    if keys[i] == keys[j] then i < j
    else if desc then keys[i] > keys[j]
    else keys[i] < keys[j]
  }

  predicate InRange(s: seq<nat>, n: nat) { forall k :: 0 <= k < |s| ==> s[k] < n }

  predicate SortedBy(keys: seq<int>, desc: bool, s: seq<nat>)
    requires InRange(s, |keys|)
  {
    forall a, b :: 0 <= a < b < |s| ==> Before(keys, desc, s[a], s[b])
  }

  /** Insert index `i` in front of the first element it goes before. */
  function Insert(keys: seq<int>, desc: bool, s: seq<nat>, i: nat): (r: seq<nat>)
    requires i < |keys| && InRange(s, |keys|)
    ensures |r| == |s| + 1 && InRange(r, |keys|)
    ensures forall x :: x in r <==> x in s || x == i
  {
    if s == [] then [i]
    else if Before(keys, desc, i, s[0]) then [i] + s
    else
      assert s == [s[0]] + s[1..];
      [s[0]] + Insert(keys, desc, s[1..], i)
  }

  /** The insertion-sort order of the first `n` indices. */
  function OrderOf(keys: seq<int>, desc: bool, n: nat): (r: seq<nat>)
    requires n <= |keys|
    ensures |r| == n && InRange(r, |keys|) && InRange(r, n)
  {
    if n == 0 then []
    else
      var s := OrderOf(keys, desc, n - 1);
      var r := Insert(keys, desc, s, n - 1);
      assert forall k :: 0 <= k < |r| ==> r[k] in r;
      r
  }

  function Order(keys: seq<int>, desc: bool): (r: seq<nat>)
    ensures |r| == |keys| && InRange(r, |keys|)
  {
    OrderOf(keys, desc, |keys|)
  }

  /** `[xs[o] for o in order]`. */
  function Apply<T>(xs: seq<T>, order: seq<nat>): (r: seq<T>)
    requires InRange(order, |xs|)
    ensures |r| == |order| && forall k :: 0 <= k < |order| ==> r[k] == xs[order[k]]
  {
    if order == [] then [] else [xs[order[0]]] + Apply(xs, order[1..])
  }

  /** `sorted(xs, key=keys, reverse=desc)`. */
  function Sorted<T>(xs: seq<T>, keys: seq<int>, desc: bool): seq<T>
    requires |keys| == |xs|
  {
    Apply(xs, Order(keys, desc))
  }

  // ---------------------------------------------------------------------

  lemma BeforeTransitive(keys: seq<int>, desc: bool, i: nat, j: nat, k: nat)
    requires i < |keys| && j < |keys| && k < |keys|
    requires Before(keys, desc, i, j) && Before(keys, desc, j, k)
    ensures Before(keys, desc, i, k)
  {
  }

  lemma BeforeTotal(keys: seq<int>, desc: bool, i: nat, j: nat)
    requires i < |keys| && j < |keys| && i != j
    ensures Before(keys, desc, i, j) || Before(keys, desc, j, i)
  {
  }

  /** Insertion keeps a sorted sequence sorted, provided the new index is not already there. */
  lemma {:induction false} InsertSorted(keys: seq<int>, desc: bool, s: seq<nat>, i: nat)
    requires i < |keys| && InRange(s, |keys|) && SortedBy(keys, desc, s) && i !in s
    ensures SortedBy(keys, desc, Insert(keys, desc, s, i))
  {
    if s == [] {
    } else if Before(keys, desc, i, s[0]) {
      var r := [i] + s;
      forall a, b | 0 <= a < b < |r| ensures Before(keys, desc, r[a], r[b]) {
        if a == 0 && b > 1 {
          BeforeTransitive(keys, desc, i, s[0], s[b - 1]);
        }
      }
    } else {
      assert s[0] != i;
      BeforeTotal(keys, desc, i, s[0]);
      var t := s[1..];
      assert i !in t;
      InsertSorted(keys, desc, t, i);
      var it := Insert(keys, desc, t, i);
      var r := [s[0]] + it;
      assert r == Insert(keys, desc, s, i);
      forall b | 0 < b < |r| ensures Before(keys, desc, s[0], r[b]) {
        assert r[b] in it;
        if r[b] != i {
          assert r[b] in t;
          var k :| 0 <= k < |t| && t[k] == r[b];
          assert s[k + 1] == r[b];
        }
      }
    }
  }

  lemma {:induction false} OrderOfSorted(keys: seq<int>, desc: bool, n: nat)
    requires n <= |keys|
    ensures SortedBy(keys, desc, OrderOf(keys, desc, n))
  {
    if n > 0 {
      OrderOfSorted(keys, desc, n - 1);
      var s := OrderOf(keys, desc, n - 1);
      InsertSorted(keys, desc, s, n - 1);
    }
  }

  lemma {:induction false} ApplyInsert<T>(xs: seq<T>, keys: seq<int>, desc: bool, s: seq<nat>, i: nat)
    requires |keys| == |xs| && i < |keys| && InRange(s, |keys|)
    ensures multiset(Apply(xs, Insert(keys, desc, s, i))) == multiset(Apply(xs, s)) + multiset{xs[i]}
  {
    if s != [] && !Before(keys, desc, i, s[0]) {
      ApplyInsert(xs, keys, desc, s[1..], i);
      assert Apply(xs, Insert(keys, desc, s, i)) == [xs[s[0]]] + Apply(xs, Insert(keys, desc, s[1..], i));
      assert Apply(xs, s) == [xs[s[0]]] + Apply(xs, s[1..]);
    } else if s != [] {
      assert Apply(xs, [i] + s) == [xs[i]] + Apply(xs, s);
    }
  }

  lemma OrderOfStep(keys: seq<int>, desc: bool, n: nat)
    requires 0 < n <= |keys|
    ensures OrderOf(keys, desc, n) == Insert(keys, desc, OrderOf(keys, desc, n - 1), n - 1)
  {
  }

  lemma {:induction false} ApplyOrderOf<T>(xs: seq<T>, keys: seq<int>, desc: bool, n: nat)
    requires |keys| == |xs| && n <= |xs|
    ensures multiset(Apply(xs, OrderOf(keys, desc, n))) == multiset(xs[..n])
  {
    if n == 0 {
      assert OrderOf(keys, desc, n) == [];
      assert xs[..n] == [];
    } else {
      ApplyOrderOf(xs, keys, desc, n - 1);
      ApplyOrderOfStep(xs, keys, desc, n);
    }
  }

  lemma ApplyOrderOfStep<T>(xs: seq<T>, keys: seq<int>, desc: bool, n: nat)
    requires |keys| == |xs| && 0 < n <= |xs|
    requires multiset(Apply(xs, OrderOf(keys, desc, n - 1))) == multiset(xs[..n - 1])
    ensures multiset(Apply(xs, OrderOf(keys, desc, n))) == multiset(xs[..n])
  {
    var s := OrderOf(keys, desc, n - 1);
    OrderOfStep(keys, desc, n);
    ApplyInsert(xs, keys, desc, s, n - 1);
    PrefixMultiset(xs, n);
  }

  lemma PrefixMultiset<T>(xs: seq<T>, n: nat)
    requires 0 < n <= |xs|
    ensures multiset(xs[..n]) == multiset(xs[..n - 1]) + multiset{xs[n - 1]}
  {
    assert xs[..n] == xs[..n - 1] + [xs[n - 1]];
  }

  /** `sorted` returns a permutation of its input, ordered by key, equal keys in input order. */
  lemma SortedSpec<T>(xs: seq<T>, keys: seq<int>, desc: bool)
    requires |keys| == |xs|
    ensures var r, o := Sorted(xs, keys, desc), Order(keys, desc);
      && |r| == |xs|
      && multiset(r) == multiset(xs)
      && (forall k :: 0 <= k < |r| ==> r[k] == xs[o[k]])
      && (forall a, b :: 0 <= a < b < |r| ==>
            (if desc then keys[o[a]] >= keys[o[b]] else keys[o[a]] <= keys[o[b]]))
      && (forall a, b :: 0 <= a < b < |r| && keys[o[a]] == keys[o[b]] ==> o[a] < o[b])
  {
    var o := Order(keys, desc);
    OrderOfSorted(keys, desc, |keys|);
    ApplyOrderOf(xs, keys, desc, |xs|);
    assert xs[..|xs|] == xs;
    forall a, b | 0 <= a < b < |o| ensures Before(keys, desc, o[a], o[b]) { }
  }
}
