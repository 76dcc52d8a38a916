/** The checks of a finished load: pairwise collisions, support and
    fragility of stacked pallets, bounds, capacity and balance, and the
    report that combines them. */
module Validation {
  import opened Wrappers
  import opened Cargo
  import opened Container
  import opened Base
  import Sorting

  /** A pair of pallet ids, as `check_collision` reports it. */
  type IdPair = (string, string)

  /** A pair of list indices. */
  type Hit = (nat, nat)

  // ---------------------------------------------------------------------
  // Collisions

  /** Index pairs in the order the nested loop meets them. */
  predicate LexOrdered(hs: seq<Hit>)
  {
    forall a, b :: 0 <= a < b < |hs| ==> hs[a].0 < hs[b].0 || (hs[a].0 == hs[b].0 && hs[a].1 < hs[b].1)
  }

  /** The colliding pairs `(i, k)` with `i < k < j`, by `k`. */
  function RowHits(ls: seq<PalletState>, i: nat, j: nat): seq<Hit>
    requires i < |ls| && j <= |ls|
    decreases j
  {
    if j <= i + 1 then []
    else RowHits(ls, i, j - 1) + if Collides(ls[i], ls[j - 1]) then [(i, j - 1)] else []
  }

  /** The colliding pairs `(i, k)` with `i < n` and `i < k`, row by row. */
  function Hits(ls: seq<PalletState>, n: nat): seq<Hit>
    requires n <= |ls|
  {
    if n == 0 then [] else Hits(ls, n - 1) + RowHits(ls, n - 1, |ls|)
  }

  /** Both indices of every pair lie in the list. */
  predicate Indices(ls: seq<PalletState>, hs: seq<Hit>)
  {
    forall m :: 0 <= m < |hs| ==> hs[m].0 < |ls| && hs[m].1 < |ls|
  }

  /** `r` holds exactly the colliding pairs `(i, k)` with `i < k < j`, by increasing `k`. */
  predicate RowExact(ls: seq<PalletState>, i: nat, j: nat, r: seq<Hit>)
    requires i < |ls| && j <= |ls|
  {
    && (forall m :: 0 <= m < |r| ==> r[m].0 == i && i < r[m].1 < j && Collides(ls[i], ls[r[m].1]))
    && (forall k :: i < k < j && Collides(ls[i], ls[k]) ==> (i, k) in r)
    && LexOrdered(r)
  }

  /** Row `i` holds exactly the colliding pairs `(i, k)` with `i < k < j`, by increasing `k`. */
  lemma {:induction false} RowHitsExact(ls: seq<PalletState>, i: nat, j: nat)
    requires i < |ls| && j <= |ls|
    ensures RowExact(ls, i, j, RowHits(ls, i, j))
    decreases j
  {
    if j > i + 1 {
      RowHitsExact(ls, i, j - 1);
      var rest := RowHits(ls, i, j - 1);
      if Collides(ls[i], ls[j - 1]) {
        assert RowHits(ls, i, j) == rest + [(i, j - 1)];
        RowHit(ls, i, j, rest);
      } else {
        assert RowHits(ls, i, j) == rest;
        RowMiss(ls, i, j, rest);
      }
    }
  }

  /** A colliding entry `j - 1` extends the row by its pair. */
  lemma RowHit(ls: seq<PalletState>, i: nat, j: nat, rest: seq<Hit>)
    requires i + 1 < j <= |ls| && RowExact(ls, i, j - 1, rest) && Collides(ls[i], ls[j - 1])
    ensures RowExact(ls, i, j, rest + [(i, j - 1)])
  {
    var r := rest + [(i, j - 1)];
    forall m | 0 <= m < |r|
      ensures r[m].0 == i && i < r[m].1 < j && Collides(ls[i], ls[r[m].1])
    {
      if m < |rest| {
        assert r[m] == rest[m];
      }
    }
    forall k | i < k < j && Collides(ls[i], ls[k])
      ensures (i, k) in r
    {
      if k < j - 1 {
        assert (i, k) in rest;
      } else {
        assert r[|rest|] == (i, k);
      }
    }
    LexSnoc(rest, (i, j - 1));
  }

  /** An entry `j - 1` that does not collide leaves the row as it is. */
  lemma RowMiss(ls: seq<PalletState>, i: nat, j: nat, rest: seq<Hit>)
    requires i + 1 < j <= |ls| && RowExact(ls, i, j - 1, rest) && !Collides(ls[i], ls[j - 1])
    ensures RowExact(ls, i, j, rest)
  {
    forall k | i < k < j && Collides(ls[i], ls[k])
      ensures (i, k) in rest
    {
      assert k < j - 1;
    }
  }

  /** A pair after every pair of its own row keeps the list ordered. */
  lemma LexSnoc(hs: seq<Hit>, h: Hit)
    requires LexOrdered(hs) && forall m :: 0 <= m < |hs| ==> hs[m].0 == h.0 && hs[m].1 < h.1
    ensures LexOrdered(hs + [h])
  {
    var r := hs + [h];
    forall a, b | 0 <= a < b < |r|
      ensures r[a].0 < r[b].0 || (r[a].0 == r[b].0 && r[a].1 < r[b].1)
    {
      if b == |hs| {
        assert r[a] == hs[a] && r[b] == h;
      } else {
        assert r[a] == hs[a] && r[b] == hs[b];
      }
    }
  }

  /** Every pair starts below row `n` and names two colliding entries, the
      first before the second. */
  predicate Sound(ls: seq<PalletState>, hs: seq<Hit>, n: nat)
  {
    forall m :: 0 <= m < |hs| ==> hs[m].0 < n && hs[m].0 < hs[m].1 < |ls| && Collides(ls[hs[m].0], ls[hs[m].1])
  }

  /** Every colliding pair `(i, k)` with `i < n` and `i < k` is present. */
  predicate Complete(ls: seq<PalletState>, hs: seq<Hit>, n: nat)
  {
    forall i, k :: 0 <= i < n && i < k < |ls| && Collides(ls[i], ls[k]) ==> (i, k) in hs
  }

  lemma JoinSound(ls: seq<PalletState>, front: seq<Hit>, row: seq<Hit>, n: nat)
    requires 0 < n <= |ls| && Sound(ls, front, n - 1)
    requires forall m :: 0 <= m < |row| ==> row[m].0 == n - 1 && n - 1 < row[m].1 < |ls| && Collides(ls[n - 1], ls[row[m].1])
    ensures Sound(ls, front + row, n)
  {
    var r := front + row;
    forall m | 0 <= m < |r|
      ensures r[m].0 < n && r[m].0 < r[m].1 < |ls| && Collides(ls[r[m].0], ls[r[m].1])
    {
      if m < |front| {
        assert r[m] == front[m];
      } else {
        assert r[m] == row[m - |front|];
      }
    }
  }

  lemma JoinComplete(ls: seq<PalletState>, front: seq<Hit>, row: seq<Hit>, n: nat)
    requires 0 < n <= |ls| && Complete(ls, front, n - 1)
    requires forall k :: n - 1 < k < |ls| && Collides(ls[n - 1], ls[k]) ==> (n - 1, k) in row
    ensures Complete(ls, front + row, n)
  {
  }

  lemma JoinOrdered(front: seq<Hit>, row: seq<Hit>, n: nat)
    requires 0 < n && LexOrdered(front) && LexOrdered(row)
    requires forall m :: 0 <= m < |front| ==> front[m].0 < n - 1
    requires forall m :: 0 <= m < |row| ==> row[m].0 == n - 1
    ensures LexOrdered(front + row)
  {
    var r := front + row;
    forall a, b | 0 <= a < b < |r|
      ensures r[a].0 < r[b].0 || (r[a].0 == r[b].0 && r[a].1 < r[b].1)
    {
      if b < |front| {
        assert r[a] == front[a] && r[b] == front[b];
      } else if a >= |front| {
        assert r[a] == row[a - |front|] && r[b] == row[b - |front|];
      } else {
        assert r[a] == front[a] && r[b] == row[b - |front|];
      }
    }
  }

  /** The first `n` rows hold exactly the colliding pairs `(i, k)` with `i < n`
      and `i < k`, in the order of the nested loop. */
  lemma {:induction false} HitsExact(ls: seq<PalletState>, n: nat)
    requires n <= |ls|
    ensures Exact(ls, Hits(ls, n), n)
  {
    if n > 0 {
      HitsExact(ls, n - 1);
      RowHitsExact(ls, n - 1, |ls|);
      var front, row := Hits(ls, n - 1), RowHits(ls, n - 1, |ls|);
      assert Hits(ls, n) == front + row;
      Join(ls, front, row, n);
    }
  }

  /** `hs` holds exactly the colliding pairs `(i, k)` with `i < n` and `i < k`, in loop order. */
  predicate Exact(ls: seq<PalletState>, hs: seq<Hit>, n: nat)
  {
    Sound(ls, hs, n) && Complete(ls, hs, n) && LexOrdered(hs)
  }

  /** The pairs of the first `n - 1` rows followed by row `n - 1` are those of the first `n` rows. */
  lemma Join(ls: seq<PalletState>, front: seq<Hit>, row: seq<Hit>, n: nat)
    requires 0 < n <= |ls| && Exact(ls, front, n - 1) && RowExact(ls, n - 1, |ls|, row)
    ensures Exact(ls, front + row, n)
  {
    JoinSound(ls, front, row, n);
    JoinComplete(ls, front, row, n);
    JoinOrdered(front, row, n);
  }

  /** The ids of the pairs of a list of index pairs. */
  function Ids(ls: seq<PalletState>, hs: seq<Hit>): (r: seq<IdPair>)
    requires Indices(ls, hs)
    ensures |r| == |hs| && forall k :: 0 <= k < |hs| ==> r[k] == (ls[hs[k].0].spec.id, ls[hs[k].1].spec.id)
  {
    if hs == [] then []
    else
      var n := |hs| - 1;
      Ids(ls, hs[..n]) + [(ls[hs[n].0].spec.id, ls[hs[n].1].spec.id)]
  }

  /** What `check_collision` returns for the list: the ids of every colliding
      pair `(i, k)` with `i < k`, in the order the pairs are met. */
  function Collisions(ls: seq<PalletState>): seq<IdPair>
  {
    HitsExact(ls, |ls|);
    Ids(ls, Hits(ls, |ls|))
  }

  /** No collision is reported exactly when no two entries of the list overlap. */
  lemma NoCollisionsIffNoOverlap(ls: seq<PalletState>)
    ensures Collisions(ls) == [] <==> NoOverlap(ls)
  {
    var hs := Hits(ls, |ls|);
    HitsExact(ls, |ls|);
    assert |Collisions(ls)| == |hs|;
    if hs == [] {
      NothingHitMeansNoOverlap(ls, hs);
    } else {
      assert Collides(ls[hs[0].0], ls[hs[0].1]) && hs[0].0 != hs[0].1;
    }
  }

  /** With no pair reported by a complete list, no two entries overlap. */
  lemma NothingHitMeansNoOverlap(ls: seq<PalletState>, hs: seq<Hit>)
    requires Complete(ls, hs, |ls|) && hs == []
    ensures NoOverlap(ls)
  {
    forall i, j | 0 <= i < |ls| && 0 <= j < |ls| && i != j
      ensures !Collides(ls[i], ls[j])
    {
      CollidesSymmetric(ls[i], ls[j]);
      var a, b := if i < j then i else j, if i < j then j else i;
      assert (a, b) !in hs;
    }
  }

  lemma IdsSnoc(ls: seq<PalletState>, hs: seq<Hit>, h: Hit)
    requires Indices(ls, hs) && h.0 < |ls| && h.1 < |ls|
    ensures Indices(ls, hs + [h])
    ensures Ids(ls, hs + [h]) == Ids(ls, hs) + [(ls[h.0].spec.id, ls[h.1].spec.id)]
  {
    assert (hs + [h])[..|hs|] == hs;
  }

  lemma IdsAppend(ls: seq<PalletState>, hs: seq<Hit>, gs: seq<Hit>)
    requires Indices(ls, hs) && Indices(ls, gs)
    ensures Indices(ls, hs + gs)
    ensures Ids(ls, hs + gs) == Ids(ls, hs) + Ids(ls, gs)
  {
    var l, r := Ids(ls, hs + gs), Ids(ls, hs) + Ids(ls, gs);
    forall k | 0 <= k < |l|
      ensures l[k] == r[k]
    {
      if k >= |hs| {
        assert (hs + gs)[k] == gs[k - |hs|];
      }
    }
  }

  /** The pairs of row `i` lie in the list. */
  lemma RowIndices(ls: seq<PalletState>, i: nat, j: nat)
    requires i < |ls| && j <= |ls|
    ensures Indices(ls, RowHits(ls, i, j))
  {
    RowHitsExact(ls, i, j);
  }

  /** `check_collision`: the nested loop over the pairs `i < j`. */
  method CheckCollision(ps: seq<Pallet>) returns (collisions: seq<IdPair>)
    ensures collisions == Collisions(States(ps))
  {
    var ls := States(ps);
    collisions := [];
    for i := 0 to |ls|
      invariant Indices(ls, Hits(ls, i))
      invariant collisions == Ids(ls, Hits(ls, i))
    {
      var row := CollisionsFrom(ls, i);
      RowIndices(ls, i, |ls|);
      IdsAppend(ls, Hits(ls, i), RowHits(ls, i, |ls|));
      collisions := collisions + row;
    }
  }

  /** The inner loop of `check_collision`: pallet `i` against every later one. */
  method CollisionsFrom(ls: seq<PalletState>, i: nat) returns (row: seq<IdPair>)
    requires i < |ls|
    ensures Indices(ls, RowHits(ls, i, |ls|)) && row == Ids(ls, RowHits(ls, i, |ls|))
  {
    row := [];
    for j := i + 1 to |ls|
      invariant Indices(ls, RowHits(ls, i, j)) && row == Ids(ls, RowHits(ls, i, j))
    {
      ghost var hits := RowHits(ls, i, j);
      if Collides(ls[i], ls[j]) {
        assert RowHits(ls, i, j + 1) == hits + [(i, j)];
        IdsSnoc(ls, hits, (i, j));
        row := row + [(ls[i].spec.id, ls[j].spec.id)];
      } else {
        assert RowHits(ls, i, j + 1) == hits;
      }
    }
  }

  // ---------------------------------------------------------------------
  // Stacking

  /** The support test on the floor axes: the near or the far edge of `s`
      lies within the extent of `o`, along the length and along the width.
      A box that spans `o` entirely on an axis does not pass. */
  predicate EdgeOverlap(s: PalletState, o: PalletState)
  {
    var d, od := s.Dimensions(), o.Dimensions();
    var x, y, ox, oy := s.position.x, s.position.y, o.position.x, o.position.y;
    && (ox <= x < ox + od.length || ox < x + d.length <= ox + od.length)
    && (oy <= y < oy + od.width || oy < y + d.width <= oy + od.width)
  }

  /** `o`, a pallet with another id, has its top where `s` has its bottom. */
  predicate Supports(o: PalletState, s: PalletState)
  {
    o.spec.id != s.spec.id && EdgeOverlap(s, o) && o.position.z + o.Dimensions().height == s.position.z
  }

  /** `o`, a pallet with another id, has its bottom where `s` has its top. */
  predicate RestsOn(o: PalletState, s: PalletState)
  {
    o.spec.id != s.spec.id && EdgeOverlap(s, o) && s.position.z + s.spec.height == o.position.z
  }

  /** `s` is heavier than the declared limit of `o`. */
  predicate Overloads(s: PalletState, o: PalletState)
  {
    o.spec.maxStackWeight.Some? && s.spec.TotalWeight() > o.spec.maxStackWeight.value
  }

  /** The first support of `s` at or after index `j`, or `|ls|`. */
  function FirstSupport(ls: seq<PalletState>, s: PalletState, j: nat): (r: nat)
    requires j <= |ls|
    ensures j <= r <= |ls|
    ensures r < |ls| ==> Supports(ls[r], s)
    ensures forall k :: j <= k < r ==> !Supports(ls[k], s)
    decreases |ls| - j
  {
    if j == |ls| then |ls|
    else if Supports(ls[j], s) then j
    else FirstSupport(ls, s, j + 1)
  }

  /** What the support search reports for `s`. */
  function SupportReport(ls: seq<PalletState>, s: PalletState): seq<string>
  {
    if s.position.z <= 0 then []
    else
      var k := FirstSupport(ls, s, 0);
      if k == |ls| then [s.spec.id]
      else if !ls[k].spec.stackable || Overloads(s, ls[k]) then [s.spec.id, s.spec.id]
      else []
  }

  /** The support search reports nothing for a pallet on the floor; for a
      raised pallet, its id once when nothing supports it, twice when the
      first support is not stackable or is overloaded, and nothing when the
      first support carries it. */
  lemma SupportVerdict(ls: seq<PalletState>, s: PalletState)
    ensures s.position.z <= 0 ==> SupportReport(ls, s) == []
    ensures s.position.z > 0 && (forall k :: 0 <= k < |ls| ==> !Supports(ls[k], s)) ==> SupportReport(ls, s) == [s.spec.id]
    ensures forall k :: 0 <= k < |ls| && s.position.z > 0 && Supports(ls[k], s) && (forall j :: 0 <= j < k ==> !Supports(ls[j], s)) ==>
              SupportReport(ls, s) == if !ls[k].spec.stackable || Overloads(s, ls[k]) then [s.spec.id, s.spec.id] else []
  {
    var f := FirstSupport(ls, s, 0);
    forall k | 0 <= k < |ls| && s.position.z > 0 && Supports(ls[k], s) && (forall j :: 0 <= j < k ==> !Supports(ls[j], s))
      ensures f == k
    {
      assert f <= k;
    }
  }

  /** What the fragility search reports for `s`: its id when it is fragile
      and another pallet stands on it. */
  function FragileReport(ls: seq<PalletState>, s: PalletState): seq<string>
  {
    if s.spec.fragile && exists k :: 0 <= k < |ls| && RestsOn(ls[k], s) then [s.spec.id] else []
  }

  /** Everything reported for one pallet. */
  function Report(ls: seq<PalletState>, s: PalletState): seq<string>
  {
    SupportReport(ls, s) + FragileReport(ls, s)
  }

  /** The reports of the pallets `xs`, in their order. */
  function Reports(ls: seq<PalletState>, xs: seq<PalletState>): seq<string>
  {
    if xs == [] then [] else Reports(ls, xs[..|xs| - 1]) + Report(ls, xs[|xs| - 1])
  }

  /** The heights the stacking check sorts by. */
  function Levels(ls: seq<PalletState>): (ks: seq<int>)
    ensures |ks| == |ls| && forall k :: 0 <= k < |ls| ==> ks[k] == ls[k].position.z
  {
    seq(|ls|, k requires 0 <= k < |ls| => ls[k].position.z)
  }

  /** `sorted(pallets, key=z)`: the list, lowest first, stable. */
  function ByHeight(ls: seq<PalletState>): (r: seq<PalletState>)
    ensures |r| == |ls| && multiset(r) == multiset(ls)
    ensures forall a, b :: 0 <= a < b < |r| ==> r[a].position.z <= r[b].position.z
    ensures StableOrder(ls, Levels(ls), r)
  {
    ByHeightFacts(ls);
    Sorting.Sorted(ls, Levels(ls), false)
  }

  lemma ByHeightFacts(ls: seq<PalletState>)
    ensures var r := Sorting.Sorted(ls, Levels(ls), false);
      && |r| == |ls| && multiset(r) == multiset(ls)
      && (forall a, b :: 0 <= a < b < |r| ==> r[a].position.z <= r[b].position.z)
      && StableOrder(ls, Levels(ls), r)
  {
    var keys := Levels(ls);
    var r, o := Sorting.Sorted(ls, keys, false), Sorting.Order(keys, false);
    Sorting.SortedSpec(ls, keys, false);
    forall a, b | 0 <= a < b < |r|
      ensures r[a].position.z <= r[b].position.z
    {
      assert r[a] == ls[o[a]] && r[b] == ls[o[b]];
      assert keys[o[a]] <= keys[o[b]];
    }
    assert |o| == |r| && Sorting.InRange(o, |ls|);
  }

  /** What `check_stacking_validity` returns: the reports of the pallets,
      lowest first. */
  function InvalidStacking(ls: seq<PalletState>): seq<string>
  {
    Reports(ls, ByHeight(ls))
  }

  /** An id reported for a pallet is that pallet's own. */
  lemma ReportIsOwn(ls: seq<PalletState>, s: PalletState)
    ensures forall id :: id in Report(ls, s) ==> id == s.spec.id
    ensures Report(ls, s) != [] ==> s.spec.id in Report(ls, s)
  {
  }

  /** An id occurs in the reports of `xs` exactly when one of the pallets of
      `xs` carrying it gets a report. */
  lemma {:induction false} ReportsHold(ls: seq<PalletState>, xs: seq<PalletState>, id: string)
    ensures id in Reports(ls, xs) <==> Flagged(ls, xs, id)
  {
    if xs != [] {
      var n := |xs| - 1;
      ReportsHold(ls, xs[..n], id);
      ReportIsOwn(ls, xs[n]);
      FlaggedSnoc(ls, xs, id);
      assert Reports(ls, xs) == Reports(ls, xs[..n]) + Report(ls, xs[n]);
      assert id in Report(ls, xs[n]) <==> xs[n].spec.id == id && Report(ls, xs[n]) != [];
    }
  }

  /** Some pallet of `xs` carrying `id` gets a report. */
  predicate Flagged(ls: seq<PalletState>, xs: seq<PalletState>, id: string)
  {
    exists k :: 0 <= k < |xs| && xs[k].spec.id == id && Report(ls, xs[k]) != []
  }

  /** A list flags an id exactly when its front does or its last pallet does. */
  lemma FlaggedSnoc(ls: seq<PalletState>, xs: seq<PalletState>, id: string)
    requires xs != []
    ensures var n := |xs| - 1;
      Flagged(ls, xs, id) <==> Flagged(ls, xs[..n], id) || (xs[n].spec.id == id && Report(ls, xs[n]) != [])
  {
    var n := |xs| - 1;
    if Flagged(ls, xs, id) {
      var k :| 0 <= k < |xs| && xs[k].spec.id == id && Report(ls, xs[k]) != [];
      if k < n {
        assert xs[..n][k] == xs[k];
      }
    }
    if Flagged(ls, xs[..n], id) {
      var k :| 0 <= k < n && xs[..n][k].spec.id == id && Report(ls, xs[..n][k]) != [];
      assert xs[k] == xs[..n][k];
    }
  }

  /** Reordering a list does not change which ids it flags. */
  lemma FlaggedReordered(ls: seq<PalletState>, xs: seq<PalletState>, ys: seq<PalletState>, id: string)
    requires multiset(xs) == multiset(ys) && Flagged(ls, xs, id)
    ensures Flagged(ls, ys, id)
  {
    var k :| 0 <= k < |xs| && xs[k].spec.id == id && Report(ls, xs[k]) != [];
    assert xs[k] in multiset(ys);
    var j :| 0 <= j < |ys| && ys[j] == xs[k];
  }

  /** An id is reported as badly stacked exactly when a pallet carrying it
      is unsupported, badly supported, or a fragile pallet with a pallet on it. */
  lemma StackingVerdict(ls: seq<PalletState>, id: string)
    ensures id in InvalidStacking(ls) <==> exists k :: 0 <= k < |ls| && ls[k].spec.id == id && Report(ls, ls[k]) != []
  {
    var sorted := ByHeight(ls);
    ReportsHold(ls, sorted, id);
    assert id in InvalidStacking(ls) <==> Flagged(ls, sorted, id);
    if Flagged(ls, sorted, id) {
      FlaggedReordered(ls, sorted, ls, id);
    }
    if Flagged(ls, ls, id) {
      FlaggedReordered(ls, ls, sorted, id);
    }
  }

  /** A pallet on the floor whose load is not fragile is never reported,
      unless another pallet carries the same id. */
  lemma FloorPalletNotReported(ls: seq<PalletState>, k: nat)
    requires k < |ls| && ls[k].position.z <= 0 && !ls[k].spec.fragile
    requires forall j :: 0 <= j < |ls| && j != k ==> ls[j].spec.id != ls[k].spec.id
    ensures ls[k].spec.id !in InvalidStacking(ls)
  {
    StackingVerdict(ls, ls[k].spec.id);
  }

  /** `check_stacking_validity`: for each pallet, lowest first, the search
      for its support and, for a fragile load, the search for a pallet
      standing on it. */
  method CheckStackingValidity(ps: seq<Pallet>) returns (invalid: seq<string>)
    ensures invalid == InvalidStacking(States(ps))
  {
    var ls := States(ps);
    invalid := ReportAll(ls, ByHeight(ls));
  }

  /** The loop of `check_stacking_validity` over the pallets `xs`, in order. */
  method ReportAll(ls: seq<PalletState>, xs: seq<PalletState>) returns (invalid: seq<string>)
    ensures invalid == Reports(ls, xs)
  {
    invalid := [];
    for i := 0 to |xs|
      invariant invalid == Reports(ls, xs[..i])
    {
      var s := xs[i];
      var below := SearchSupport(ls, s);
      var above := SearchLoadAbove(ls, s);
      assert xs[..i + 1][..i] == xs[..i];
      invalid := invalid + (below + above);
    }
    assert xs[..|xs|] == xs;
  }

  /** The support search for one pallet, which stops at the first pallet
      under it. */
  method SearchSupport(ls: seq<PalletState>, s: PalletState) returns (found: seq<string>)
    ensures found == SupportReport(ls, s)
  {
    found := [];
    if s.position.z > 0 {
      var supported := false;
      var j := 0;
      while j < |ls|
        invariant 0 <= j <= |ls|
        invariant FirstSupport(ls, s, j) == FirstSupport(ls, s, 0)
        invariant found == [] && !supported
      {
        var o := ls[j];
        if o.spec.id != s.spec.id && EdgeOverlap(s, o) && o.position.z + o.Dimensions().height == s.position.z {
          if !o.spec.stackable {
            found := found + [s.spec.id];
            break;
          }
          if Overloads(s, o) {
            found := found + [s.spec.id];
            break;
          }
          supported := true;
          break;
        }
        j := j + 1;
      }
      if !supported {
        found := found + [s.spec.id];
      }
    }
  }

  /** The search for a pallet standing on a fragile one, which stops at the
      first. */
  method SearchLoadAbove(ls: seq<PalletState>, s: PalletState) returns (found: seq<string>)
    ensures found == FragileReport(ls, s)
  {
    found := [];
    if s.spec.fragile {
      var j := 0;
      while j < |ls|
        invariant 0 <= j <= |ls|
        invariant forall k :: 0 <= k < j ==> !RestsOn(ls[k], s)
        invariant found == []
      {
        var o := ls[j];
        if o.spec.id != s.spec.id && EdgeOverlap(s, o) && s.position.z + s.spec.height == o.position.z {
          found := found + [s.spec.id];
          break;
        }
        j := j + 1;
      }
    }
  }

  // ---------------------------------------------------------------------
  // Bounds, balance and the combined report

  /** The ids of the pallets that fail the trailer's bounds test, in order. */
  function OutOfBounds(t: Trailer, ls: seq<PalletState>): (r: seq<string>)
    ensures |r| <= |ls|
    ensures r == [] <==> forall k :: 0 <= k < |ls| ==> t.Fits(ls[k])
  {
    if ls == [] then []
    else
      var n := |ls| - 1;
      var rest := OutOfBounds(t, ls[..n]);
      assert forall k :: 0 <= k < n ==> ls[..n][k] == ls[k];
      if t.Fits(ls[n]) then rest else rest + [ls[n].spec.id]
  }

  /** `check_weight_distribution`: the trailer takes the list and rebuilds its
      accumulators from it; the answer is their validity. */
  method CheckWeightDistribution(ps: seq<Pallet>, t: Trailer) returns (v: BalanceValidity)
    modifies t`loaded, t`distribution
    ensures t.loaded == ps && t.distribution == Distribute(States(ps), t.length, t.width)
    ensures v == BalanceCheck(t.distribution)
  {
    t.loaded := ps;
    t.UpdateWeightDistribution();
    v := t.WeightDistributionValidity();
  }

  /** `check_space_utilization`: the trailer takes the list, without
      rebuilding its accumulators, and reports its efficiency. */
  method CheckSpaceUtilization(ps: seq<Pallet>, t: Trailer) returns (e: Efficiency)
    modifies t`loaded
    ensures t.loaded == ps && t.distribution == old(t.distribution)
    ensures e == t.LoadingEfficiency() == t.EfficiencyOf(States(ps), t.distribution) && e.palletsLoaded == |ps|
  {
    t.loaded := ps;
    e := t.LoadingEfficiency();
  }

  /** The `weight` entry of the report. */
  datatype WeightReport = WeightReport(total: int, maxAllowed: int, exceeded: bool)

  /** The dictionary `validate_loading` returns. */
  datatype Verdict = Verdict(
    valid: bool,
    collisions: seq<IdPair>,
    weightDistribution: BalanceValidity,
    spaceUtilization: Efficiency,
    invalidStacking: seq<string>,
    outOfBounds: seq<string>,
    weight: WeightReport)

  /** The `valid` entry agrees with the trailer's invariant: no collision
      and no pallet out of bounds and the capacity kept is exactly
      `Consistent`. */
  lemma ValidIffConsistent(t: Trailer, ls: seq<PalletState>)
    ensures (Collisions(ls) == [] && OutOfBounds(t, ls) == [] && !(TotalLoad(ls) > t.maxLoad)) <==> t.Consistent(ls)
  {
    NoCollisionsIffNoOverlap(ls);
  }

  /** The `_check_bounds` loop of `validate_loading`: the ids of the pallets
      that leave the trailer, in list order. */
  method CheckBounds(ps: seq<Pallet>, t: Trailer) returns (outOfBounds: seq<string>)
    ensures outOfBounds == OutOfBounds(t, States(ps))
  {
    var ls := States(ps);
    outOfBounds := [];
    for i := 0 to |ps|
      invariant outOfBounds == OutOfBounds(t, ls[..i])
    {
      assert ls[..i + 1][..i] == ls[..i];
      if !t.Fits(ps[i].State()) {
        outOfBounds := outOfBounds + [ps[i].spec.id];
      }
    }
    assert ls[..|ps|] == ls;
  }

  /** `validate_loading`, on the given trailer or, when there is none, on a
      new default one. */
  method ValidateLoading(ps: seq<Pallet>, trailer: Trailer?) returns (r: Verdict, ghost t: Trailer)
    modifies trailer
    ensures trailer != null ==> t == trailer
    ensures trailer == null ==> fresh(t) && t.length == DefaultLength && t.width == DefaultWidth &&
                                t.height == DefaultHeight && t.maxLoad == DefaultMaxLoad
    ensures t.loaded == ps && t.distribution == Distribute(States(ps), t.length, t.width)
    ensures Reported(r, t, States(ps))
  {
    var tr: Trailer;
    if trailer == null {
      tr := DefaultTrailer();
    } else {
      tr := trailer;
    }
    t := tr;
    r := Inspect(ps, tr);
  }

  /** What the report says of a list on a trailer: every entry is the
      corresponding check, and the load is valid exactly when the trailer's
      invariant holds for it (no overlap, all in bounds, capacity
      respected), its weight is balanced and no pallet is stacked badly. */
  ghost predicate Reported(r: Verdict, t: Trailer, ls: seq<PalletState>)
    reads t`loaded, t`distribution, t.loaded
  {
    && r.collisions == Collisions(ls)
    && r.weightDistribution == BalanceCheck(t.distribution)
    && r.spaceUtilization == t.EfficiencyOf(ls, t.distribution)
    && r.invalidStacking == InvalidStacking(ls)
    && r.outOfBounds == OutOfBounds(t, ls)
    && r.weight == WeightReport(TotalLoad(ls), t.maxLoad, TotalLoad(ls) > t.maxLoad)
    && (r.valid <==> t.Consistent(ls) && r.weightDistribution.overallValid && r.invalidStacking == [])
  }

  /** The checks of `validate_loading`, in its order, once the trailer is
      chosen; the trailer takes the list. */
  method Inspect(ps: seq<Pallet>, t: Trailer) returns (r: Verdict)
    modifies t`loaded, t`distribution
    ensures t.loaded == ps && t.distribution == Distribute(States(ps), t.length, t.width)
    ensures Reported(r, t, States(ps))
  {
    ghost var ls := States(ps);
    var collisions := CheckCollision(ps);
    var weightDistribution := CheckWeightDistribution(ps, t);
    assert States(ps) == ls;
    ghost var distribution := t.distribution;
    var spaceUtilization := CheckSpaceUtilization(ps, t);
    assert States(ps) == ls && t.distribution == distribution;
    var invalidStacking := CheckStackingValidity(ps);
    var outOfBounds := CheckBounds(ps, t);
    var total := TotalLoad(States(ps));
    var exceeded := total > t.maxLoad;
    ValidIffConsistent(t, ls);
    r := Verdict(
      collisions == [] && weightDistribution.overallValid && invalidStacking == [] && outOfBounds == [] && !exceeded,
      collisions, weightDistribution, spaceUtilization, invalidStacking, outOfBounds,
      WeightReport(total, t.maxLoad, exceeded));
  }
}
