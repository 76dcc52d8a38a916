/** `YDistributionLoading`: the pallets are turned lengthwise, split
    round-robin between bands across the trailer's width, and each band is
    filled, heaviest first, on the floor as close to the band's centre line
    as possible. */
module YDistribution {
  import opened Wrappers
  import opened Cargo
  import opened Container
  import opened Base
  import opened Scans
  import opened Placement

  const Name := "Y Distribution Loading"

  /** The defaults table has no "Y_Distribution" entry. */
  const Defaults: Config := map[]

  /** `config.get("zones", 2)`. */
  function Zones(cfg: Config): Result<int, string> { CountOf(cfg, "zones", 2) }

  // ---------------------------------------------------------------------
  // Pre-rotation

  /** The rotation the pre-rotation loop leaves: an "L10" is never turned,
      any other pallet ends at 90 whatever it started at. */
  function Turned(kind: string, r: Rotation): (r': Rotation)
    ensures r' == if kind == "L10" then r else 90
  {
    if kind != "L10" && r == 0 then Toggle(r) else r
  }

  /** Turning twice is turning once, so a pallet listed twice ends as if listed once. */
  lemma TurnedIdempotent(kind: string, r: Rotation)
    ensures Turned(kind, Turned(kind, r)) == Turned(kind, r)
  {
  }

  /** The loop at the start of `load_pallets`; positions are not touched,
      and pallets `others` that are not in `ps` keep their state. */
  method PreRotate(ps: seq<Pallet>, ghost others: seq<Pallet>)
    modifies ps
    ensures forall p :: p in ps ==> p.State() == TurnedState(old(p.State()))
    ensures Disjoint(ps, others) ==> States(others) == old(States(others))
  {
    for i := 0 to |ps|
      invariant forall p :: p in ps ==> p.position == old(p.position)
      invariant forall p :: p in ps ==> p.rotation == if p in ps[..i] then Turned(p.spec.kind, old(p.rotation)) else old(p.rotation)
    {
      var p := ps[i];
      if p.spec.kind != "L10" && p.rotation == 0 {
        p.Rotate();
      }
      assert ps[..i + 1] == ps[..i] + [p];
    }
    assert ps[..|ps|] == ps;
    if Disjoint(ps, others) {
      forall k | 0 <= k < |others|
        ensures others[k].State() == old(others[k].State())
      {
        assert others[k] !in ps;
      }
    }
  }

  // ---------------------------------------------------------------------
  // Round-robin split

  /** `xs[i::n]`. */
  function Stride<T>(xs: seq<T>, i: nat, n: nat): seq<T>
    requires n > 0
    decreases |xs| - i
  {
    if i >= |xs| then [] else [xs[i]] + Stride(xs, i + n, n)
  }

  /** The `k`-th element of `xs[i::n]` is `xs[i + k * n]`. */
  lemma {:induction false} StrideAt<T>(xs: seq<T>, i: nat, n: nat, k: nat)
    requires n > 0 && k < |Stride(xs, i, n)|
    ensures i + k * n < |xs| && Stride(xs, i, n)[k] == xs[i + k * n]
    decreases |xs| - i
  {
    if k > 0 {
      StrideAt(xs, i + n, n, k - 1);
      assert i + n + (k - 1) * n == i + k * n;
    }
  }

  /** Every `xs[i + k * n]` is in `xs[i::n]`. */
  lemma {:induction false} StrideHas<T>(xs: seq<T>, i: nat, n: nat, k: nat)
    requires n > 0 && i + k * n < |xs|
    ensures k < |Stride(xs, i, n)|
    decreases k
  {
    if k > 0 {
      assert i + n + (k - 1) * n == i + k * n;
      StrideHas(xs, i + n, n, k - 1);
    }
  }

  /** Two indices below `n` with the same residue class are equal. */
  lemma {:induction false} SameResidue(i: nat, j: nat, k: nat, m: nat, n: nat)
    requires i < n && j < n && i + k * n == j + m * n
    ensures i == j && k == m
    decreases k + m
  {
    if k > 0 && m > 0 {
      assert k * n == (k - 1) * n + n && m * n == (m - 1) * n + n;
      SameResidue(i, j, k - 1, m - 1, n);
    }
  }

  /** Every element lies in the class of its index: `xs[j]` is in `xs[j % n::n]`. */
  lemma StridesCover<T>(xs: seq<T>, n: nat)
    requires n > 0
    ensures forall j :: 0 <= j < |xs| ==> xs[j] in Stride(xs, j % n, n)
  {
    forall j | 0 <= j < |xs|
      ensures xs[j] in Stride(xs, j % n, n)
    {
      assert j == j % n + (j / n) * n;
      StrideHas(xs, j % n, n, j / n);
      StrideAt(xs, j % n, n, j / n);
    }
  }

  /** Each class draws from `xs`. */
  lemma StrideWithin<T>(xs: seq<T>, i: nat, n: nat)
    requires n > 0
    ensures forall x :: x in Stride(xs, i, n) ==> x in xs
  {
    forall x | x in Stride(xs, i, n)
      ensures x in xs
    {
      var k :| 0 <= k < |Stride(xs, i, n)| && Stride(xs, i, n)[k] == x;
      StrideAt(xs, i, n, k);
    }
  }

  /** Without repeats in `xs`, two different classes share nothing. */
  lemma StridesApart<T>(xs: seq<T>, n: nat, i: nat, i': nat)
    requires n > 0 && i < n && i' < n && i != i'
    requires forall a, b :: 0 <= a < b < |xs| ==> xs[a] != xs[b]
    ensures forall x :: x in Stride(xs, i, n) ==> x !in Stride(xs, i', n)
  {
    forall x | x in Stride(xs, i, n)
      ensures x !in Stride(xs, i', n)
    {
      if x in Stride(xs, i', n) {
        var k :| 0 <= k < |Stride(xs, i, n)| && Stride(xs, i, n)[k] == x;
        var m :| 0 <= m < |Stride(xs, i', n)| && Stride(xs, i', n)[m] == x;
        StrideAt(xs, i, n, k);
        StrideAt(xs, i', n, m);
        if i + k * n == i' + m * n {
          SameResidue(i, i', k, m, n);
        }
      }
    }
  }

  /** A class of a list without repeats has no repeats. */
  lemma StrideDistinct(xs: seq<Pallet>, i: nat, n: nat)
    requires n > 0 && Distinct(xs)
    ensures Distinct(Stride(xs, i, n))
  {
    var s := Stride(xs, i, n);
    DistinctIndices(xs);
    forall a, b | 0 <= a < b < |s|
      ensures s[a] != s[b]
    {
      StrideAt(xs, i, n, a);
      StrideAt(xs, i, n, b);
      assert i + a * n < i + b * n;
    }
    DistinctByIndex(s);
  }

  /** The pallets of zone `i`: its class, heaviest first. */
  function ZonePallets(order: seq<Pallet>, i: nat, n: nat): (r: seq<Pallet>)
    requires n > 0
    ensures multiset(r) == multiset(Stride(order, i, n))
    ensures forall a, b :: 0 <= a < b < |r| ==> r[a].spec.TotalWeight() >= r[b].spec.TotalWeight()
  {
    SortByWeight(Stride(order, i, n), true)
  }

  // ---------------------------------------------------------------------
  // Bands

  /** Zone `i` of `n` spans `[i * (W // n), (i + 1) * (W // n))`; the last one runs to `W`. */
  function ZoneBand(width: int, n: nat, i: nat): (int, int)
    requires n > 0
  {
    var zw := width / n;
    (i * zw, if i < n - 1 then (i + 1) * zw else width)
  }

  /** The bands tile `[0, W)` left to right. */
  lemma BandsTile(width: int, n: nat)
    requires width >= 0 && n > 0
    ensures ZoneBand(width, n, 0).0 == 0
    ensures ZoneBand(width, n, n - 1).1 == width
    ensures forall i :: 0 <= i < n - 1 ==> ZoneBand(width, n, i).1 == ZoneBand(width, n, i + 1).0
    ensures forall i :: 0 <= i < n ==> 0 <= ZoneBand(width, n, i).0 <= ZoneBand(width, n, i).1 <= width
  {
    var zw := width / n;
    assert 0 <= zw && n * zw <= width;
    forall i | 0 <= i < n
      ensures 0 <= ZoneBand(width, n, i).0 <= ZoneBand(width, n, i).1 <= width
    {
      assert 0 <= i * zw && (i + 1) * zw == i * zw + zw;
      assert (i + 1) * zw <= n * zw;
    }
  }

  // ---------------------------------------------------------------------
  // The loading loop

  /** The loop's record after `i` zones: zone `k` tried `groups[k]`, the
      pallets of zone `k`, and accepted `outs[k]`; `out` is all of them in
      zone order. */
  ghost predicate Bands(order: seq<Pallet>, n: nat, i: nat, out: seq<Pallet>,
                        groups: seq<seq<Pallet>>, outs: seq<seq<Pallet>>, attempts: seq<seq<Attempt>>)
    requires n > 0
  {
    && i <= n && |groups| == i && |outs| == i && |attempts| == i
    && (forall k :: 0 <= k < i ==> Zone(order, n, k, groups[k], outs[k], attempts[k]))
    && out == Concat(outs)
  }

  /** Zone `k` tried `group`, its pallets, with outcomes `tried`, and accepted `got`. */
  ghost predicate Zone(order: seq<Pallet>, n: nat, k: nat, group: seq<Pallet>, got: seq<Pallet>, tried: seq<Attempt>)
    requires n > 0
  {
    group == ZonePallets(order, k, n) && |tried| == |group| && got == Accepted(group, tried)
  }

  /** Everything accepted so far comes from the first `i` classes. */
  ghost predicate Settled(order: seq<Pallet>, n: nat, i: nat, out: seq<Pallet>)
    requires n > 0
  {
    forall p, j :: p in out && i <= j < n ==> p !in Stride(order, j, n)
  }

  /** The band finders of the first `i` zones, left to right. */
  function BandScans(width: int, n: nat, i: nat): (scans: seq<Scan>)
    requires n > 0
    ensures |scans| == i
    ensures forall k :: 0 <= k < i ==> scans[k] == Band(ZoneBand(width, n, k).0, ZoneBand(width, n, k).1)
  {
    if i == 0 then [] else BandScans(width, n, i - 1) + [Band(ZoneBand(width, n, i - 1).0, ZoneBand(width, n, i - 1).1)]
  }

  /** The pallets of zones `i` and later are still in the states `m0` recorded
      when the zone loop began. */
  ghost predicate Waiting(order: seq<Pallet>, n: nat, i: nat, m0: map<Pallet, PalletState>)
    reads order
    requires n > 0
  {
    forall j, p {:trigger p in ZonePallets(order, j, n)} :: i <= j < n && p in order && p in ZonePallets(order, j, n) ==> p in m0 && p.State() == m0[p]
  }

  /** Zone `k` started its pallets `groups[k]` from the states `m0` records. */
  ghost predicate Started(m0: map<Pallet, PalletState>, groups: seq<seq<Pallet>>, starts: seq<seq<PalletState>>)
  {
    && |starts| == |groups|
    && forall k :: 0 <= k < |groups| ==>
         && |starts[k]| == |groups[k]|
         && forall m :: 0 <= m < |groups[k]| ==> groups[k][m] in m0 && starts[k][m] == m0[groups[k][m]]
  }

  /** What the zone loop knows after `i` zones. The loop began with the list
      `l0`, the boxes `L0`, the grid copy `G0` and the consistency `c0`; `g`
      copies the grid now. */
  ghost predicate BandProgress(t: Trailer, order: seq<Pallet>, n: nat, l0: seq<Pallet>, c0: bool, G0: Picture, L0: seq<PalletState>,
                               i: nat, out: seq<Pallet>, groups: seq<seq<Pallet>>, outs: seq<seq<Pallet>>,
                               attempts: seq<seq<Attempt>>, starts: seq<seq<PalletState>>, g: Picture)
    reads t`loaded, t.loaded, t`spaceMap, t.spaceMap
    requires n > 0
  {
    && t.Shows(g)
    && BandRecord(t, order, n, l0, c0, G0, L0, i, out, groups, outs, attempts, starts, g, t.loaded, t.Loaded(), t.Consistent(t.Loaded()))
  }

  /** The zone loop's record, with the trailer's list `loaded`, its boxes
      `boxes` and their consistency `consistent`. Without repeated or loaded
      pallets, every zone so far was the greedy loop with its band finder on
      the trailer as the earlier zones left it. */
  ghost predicate BandRecord(t: Trailer, order: seq<Pallet>, n: nat, l0: seq<Pallet>, c0: bool, G0: Picture, L0: seq<PalletState>,
                             i: nat, out: seq<Pallet>, groups: seq<seq<Pallet>>, outs: seq<seq<Pallet>>,
                             attempts: seq<seq<Attempt>>, starts: seq<seq<PalletState>>, g: Picture,
                             loaded: seq<Pallet>, boxes: seq<PalletState>, consistent: bool)
    requires n > 0
  {
    && Bands(order, n, i, out, groups, outs, attempts)
    && loaded == l0 + out
    && (Distinct(order) && Disjoint(order, l0) ==>
          && Settled(order, n, i, out)
          && GreedyRounds(t, G0, L0, starts, BandScans(t.width, n, i), attempts)
          && g == G0.Then(Rounds(starts, attempts, i))
          && boxes == L0 + Rounds(starts, attempts, i))
    && (Distinct(order) && Disjoint(order, l0) && c0 ==> consistent)
  }

  /** Zone `i`, the greedy loop over its pallets started from the states `s`,
      extends the record. */
  lemma BandRecordStep(t: Trailer, order: seq<Pallet>, n: nat, l0: seq<Pallet>, c0: bool, G0: Picture, L0: seq<PalletState>, i: nat,
                       out0: seq<Pallet>, groups0: seq<seq<Pallet>>, outs0: seq<seq<Pallet>>, attempts0: seq<seq<Attempt>>,
                       starts0: seq<seq<PalletState>>, g0: Picture, loaded0: seq<Pallet>, boxes0: seq<PalletState>, cons0: bool,
                       got: seq<Pallet>, tried: seq<Attempt>, s: seq<PalletState>, g: Picture,
                       loaded: seq<Pallet>, boxes: seq<PalletState>, cons: bool)
    requires n > 0 && i < n
    requires BandRecord(t, order, n, l0, c0, G0, L0, i, out0, groups0, outs0, attempts0, starts0, g0, loaded0, boxes0, cons0)
    requires var group := ZonePallets(order, i, n);
      && |tried| == |group| == |s| && got == Accepted(group, tried) && loaded == loaded0 + got
      && (Distinct(group) ==> g == g0.Then(Placed(s, tried, |group|)))
      && (Distinct(group) && Disjoint(group, loaded0) ==>
            && Greedy(t, g0, boxes0, s, Band(ZoneBand(t.width, n, i).0, ZoneBand(t.width, n, i).1), tried)
            && boxes == boxes0 + Placed(s, tried, |group|))
      && (Distinct(group) && Disjoint(group, loaded0) && cons0 ==> cons)
    ensures BandRecord(t, order, n, l0, c0, G0, L0, i + 1, out0 + got, groups0 + [ZonePallets(order, i, n)], outs0 + [got],
                       attempts0 + [tried], starts0 + [s], g, loaded, boxes, cons)
  {
    var group := ZonePallets(order, i, n);
    AppendAssoc(l0, out0, got);
    assert Zone(order, n, i, group, got, tried);
    BandsStep(order, n, i, out0, groups0, outs0, attempts0, group, got, tried);
    if Distinct(order) && Disjoint(order, l0) {
      GroupWithin(order, i, n);
      GroupFree(order, n, l0, i, out0);
      SettledStep(order, n, i, out0, got);
      var starts, attempts := starts0 + [s], attempts0 + [tried];
      assert Round(t, G0, L0, Rounds(starts0, attempts0, i), s, Band(ZoneBand(t.width, n, i).0, ZoneBand(t.width, n, i).1), tried);
      RoundStep(t, n, G0, L0, i, starts0, attempts0, s, tried);
      RoundsAdd(G0, L0, Rounds(starts0, attempts0, i), Placed(s, tried, |s|), Rounds(starts, attempts, i + 1));
    }
  }

  /** Zone `i`'s pallets have no repeats and none of them is loaded yet. */
  lemma GroupFree(order: seq<Pallet>, n: nat, l0: seq<Pallet>, i: nat, out: seq<Pallet>)
    requires n > 0 && i < n
    requires Distinct(order) && Disjoint(order, l0) && Settled(order, n, i, out)
    ensures Distinct(ZonePallets(order, i, n)) && Disjoint(ZonePallets(order, i, n), l0 + out)
  {
    var group := ZonePallets(order, i, n);
    StrideDistinct(order, i, n);
    StrideWithin(order, i, n);
    Rearranged(Stride(order, i, n), group, l0 + out);
  }

  /** The record after zone `i` accepted `got` out of its pallets. */
  lemma BandsStep(order: seq<Pallet>, n: nat, i: nat, out0: seq<Pallet>,
                  groups0: seq<seq<Pallet>>, outs0: seq<seq<Pallet>>, attempts0: seq<seq<Attempt>>,
                  group: seq<Pallet>, got: seq<Pallet>, tried: seq<Attempt>)
    requires n > 0 && i < n && Bands(order, n, i, out0, groups0, outs0, attempts0)
    requires Zone(order, n, i, group, got, tried)
    ensures Bands(order, n, i + 1, out0 + got, groups0 + [group], outs0 + [got], attempts0 + [tried])
  {
    ConcatSnoc(outs0, got);
    ZonesSnoc(order, n, i, groups0, outs0, attempts0, group, got, tried);
  }

  lemma ZonesSnoc(order: seq<Pallet>, n: nat, i: nat,
                  groups0: seq<seq<Pallet>>, outs0: seq<seq<Pallet>>, attempts0: seq<seq<Attempt>>,
                  group: seq<Pallet>, got: seq<Pallet>, tried: seq<Attempt>)
    requires n > 0 && i < n && |groups0| == i && |outs0| == i && |attempts0| == i
    requires forall k :: 0 <= k < i ==> Zone(order, n, k, groups0[k], outs0[k], attempts0[k])
    requires Zone(order, n, i, group, got, tried)
    ensures var groups, outs, attempts := groups0 + [group], outs0 + [got], attempts0 + [tried];
      forall k :: 0 <= k < i + 1 ==> Zone(order, n, k, groups[k], outs[k], attempts[k])
  {
    var groups, outs, attempts := groups0 + [group], outs0 + [got], attempts0 + [tried];
    forall k | 0 <= k < i + 1
      ensures Zone(order, n, k, groups[k], outs[k], attempts[k])
    {
      if k < i {
        assert groups[k] == groups0[k] && outs[k] == outs0[k] && attempts[k] == attempts0[k];
      }
    }
  }

  /** Zone `i` accepts only pallets of its own class, so the later classes stay untouched. */
  lemma SettledStep(order: seq<Pallet>, n: nat, i: nat, out0: seq<Pallet>, got: seq<Pallet>)
    requires n > 0 && i < n && Distinct(order) && Settled(order, n, i, out0)
    requires forall p :: p in got ==> p in ZonePallets(order, i, n)
    ensures Settled(order, n, i + 1, out0 + got)
  {
    DistinctIndices(order);
    Rearranged(Stride(order, i, n), ZonePallets(order, i, n), []);
    forall p, j | p in out0 + got && i + 1 <= j < n
      ensures p !in Stride(order, j, n)
    {
      if p in got {
        StridesApart(order, n, i, j);
      }
    }
  }

  /** The outcome of `load_pallets` for the zone count `zones`, with `l0`
      loaded before and `loaded` after: a count that is not a number, or zero
      zones, fails and loads nothing; a negative count loads nothing; otherwise
      the zones are loaded in turn and the trailer's list gains what they accepted. */
  ghost predicate Distributed(zones: Result<int, string>, order: seq<Pallet>, l0: seq<Pallet>, loaded: seq<Pallet>,
                              r: Result<seq<Pallet>, string>, groups: seq<seq<Pallet>>,
                              outs: seq<seq<Pallet>>, attempts: seq<seq<Attempt>>)
  {
    && (zones.Err? || zones == Ok(0) ==> r.Err? && loaded == l0)
    && (zones.Ok? && zones.value < 0 ==> r == Ok([]) && loaded == l0)
    && (zones.Ok? && zones.value != 0 ==> r.Ok?)
    && (zones.Ok? && zones.value > 0 && r.Ok? ==> Bands(order, zones.value, zones.value, r.value, groups, outs, attempts))
    && (r.Ok? ==> loaded == l0 + r.value)
  }

  /** A pallet's state once the pre-rotation loop has turned it. */
  function TurnedState(s: PalletState): (s': PalletState)
    ensures s'.spec == s.spec && s'.position == s.position && s'.rotation == Turned(s.spec.kind, s.rotation)
  {
    s.(rotation := Turned(s.spec.kind, s.rotation))
  }

  /** With `n` zones, zone `k` was the greedy loop with band `k`'s finder,
      on the trailer as the zones before it left it (the grid `G0` and the
      boxes `L0` with the earlier zones' boxes added), its pallets started
      from the states `m0` records. */
  ghost predicate Spread(t: Trailer, G0: Picture, L0: seq<PalletState>, n: nat, m0: map<Pallet, PalletState>,
                         groups: seq<seq<Pallet>>, starts: seq<seq<PalletState>>, attempts: seq<seq<Attempt>>)
    requires n > 0
  {
    && |attempts| == n
    && GreedyRounds(t, G0, L0, starts, BandScans(t.width, n, n), attempts)
    && Started(m0, groups, starts)
  }

  /** `load_pallets`. The pre-rotation runs first; a zone count that is not a
      number, or zero zones, then fails before anything is loaded, and a
      negative count loads nothing. Without repeated or loaded pallets and
      with `n` zones, the zones are `Spread` over the trailer as it was at the
      call, each pallet started turned from its state at the call, and the
      trailer's boxes gain what the zones placed. */
  method LoadPallets(t: Trailer, ps: seq<Pallet>, cfg: Config)
      returns (r: Result<seq<Pallet>, string>, ghost order: seq<Pallet>, ghost groups: seq<seq<Pallet>>,
               ghost outs: seq<seq<Pallet>>, ghost attempts: seq<seq<Attempt>>, ghost starts: seq<seq<PalletState>>,
               ghost m0: map<Pallet, PalletState>)
    requires t.Valid()
    modifies ps, t`loaded, t`distribution, t.spaceMap
    ensures t.Valid()
    ensures order == SortByVolume(ps, true)
    ensures Distributed(Zones(cfg), order, old(t.loaded), t.loaded, r, groups, outs, attempts)
    ensures Distinct(ps) && Disjoint(ps, old(t.loaded)) && old(t.Consistent(t.Loaded())) ==> t.Consistent(t.Loaded())
    ensures forall p :: p in ps ==> p in m0 && m0[p] == TurnedState(old(p.State()))
    ensures Distinct(ps) && Disjoint(ps, old(t.loaded)) && Zones(cfg).Ok? && Zones(cfg).value > 0 ==>
              && Spread(t, old(t.Snapshot()), old(t.Loaded()), Zones(cfg).value, m0, groups, starts, attempts)
              && t.Loaded() == old(t.Loaded()) + Rounds(starts, attempts, Zones(cfg).value)
  {
    ghost var c0 := t.Consistent(t.Loaded());
    ghost var l0, G0, L0 := t.loaded, t.Snapshot(), t.Loaded();
    PreRotate(ps, l0);
    assert t.Snapshot() == G0;
    assert Distinct(ps) && Disjoint(ps, l0) ==> t.Loaded() == L0 && t.Consistent(t.Loaded()) == c0;
    label turned:
    r, order, groups, outs, attempts, starts, m0 := Distribute(t, ps, Zones(cfg), l0, c0);
    forall p | p in ps
      ensures p in m0 && m0[p] == TurnedState(old(p.State()))
    {
      assert m0[p] == old@turned(p.State());
    }
  }

  /** What `load_pallets` does once the pallets are turned: they are sorted by
      volume, largest first, and the zone count decides the rest. */
  method Distribute(t: Trailer, ps: seq<Pallet>, zones: Result<int, string>, ghost l0: seq<Pallet>, ghost c0: bool)
      returns (r: Result<seq<Pallet>, string>, ghost order: seq<Pallet>, ghost groups: seq<seq<Pallet>>,
               ghost outs: seq<seq<Pallet>>, ghost attempts: seq<seq<Attempt>>, ghost starts: seq<seq<PalletState>>,
               ghost m0: map<Pallet, PalletState>)
    requires t.Valid() && t.loaded == l0
    requires Distinct(ps) && Disjoint(ps, l0) && c0 ==> t.Consistent(t.Loaded())
    modifies ps, t`loaded, t`distribution, t.spaceMap
    ensures t.Valid()
    ensures order == SortByVolume(ps, true)
    ensures Distributed(zones, order, l0, t.loaded, r, groups, outs, attempts)
    ensures Distinct(ps) && Disjoint(ps, l0) && c0 ==> t.Consistent(t.Loaded())
    ensures forall p :: p in ps ==> p in m0 && m0[p] == old(p.State())
    ensures Distinct(ps) && Disjoint(ps, l0) && zones.Ok? && zones.value > 0 ==>
              && Spread(t, old(t.Snapshot()), old(t.Loaded()), zones.value, m0, groups, starts, attempts)
              && t.Loaded() == old(t.Loaded()) + Rounds(starts, attempts, zones.value)
  {
    var sorted := SortByVolume(ps, true);
    order := sorted;
    Rearranged(ps, sorted, l0);
    groups, outs, attempts, starts := [], [], [], [];
    m0 := map p | p in ps :: p.State();
    if zones.Err? {
      r := Err(zones.error);
      return;
    }
    if zones.value == 0 {
      r := Err("ZeroDivisionError");
      return;
    }
    if zones.value < 0 {
      r := Ok([]);
      return;
    }
    var out;
    out, groups, outs, attempts, starts, m0 := LoadZones(t, sorted, zones.value, l0, c0);
    r := Ok(out);
  }

  /** Without repeats in the list, two zones share no pallet. */
  lemma ZonesApart(order: seq<Pallet>, n: nat, i: nat, j: nat)
    requires i < j < n && Distinct(order)
    ensures forall p :: p in ZonePallets(order, j, n) ==> p !in ZonePallets(order, i, n)
  {
    DistinctIndices(order);
    StridesApart(order, n, j, i);
    forall p | p in ZonePallets(order, j, n)
      ensures p !in ZonePallets(order, i, n)
    {
      assert p in multiset(ZonePallets(order, j, n));
      assert p in multiset(Stride(order, j, n));
      assert p !in Stride(order, i, n);
      assert p !in multiset(Stride(order, i, n));
    }
  }

  /** Recording zone `i`'s start states extends `Started`. */
  lemma StartedSnoc(m0: map<Pallet, PalletState>, groups: seq<seq<Pallet>>, starts: seq<seq<PalletState>>,
                    group: seq<Pallet>, s: seq<PalletState>)
    requires Started(m0, groups, starts) && |s| == |group|
    requires forall m :: 0 <= m < |group| ==> group[m] in m0 && s[m] == m0[group[m]]
    ensures Started(m0, groups + [group], starts + [s])
  {
    var groups', starts' := groups + [group], starts + [s];
    forall k | 0 <= k < |groups'|
      ensures |starts'[k]| == |groups'[k]|
      ensures forall m :: 0 <= m < |groups'[k]| ==> groups'[k][m] in m0 && starts'[k][m] == m0[groups'[k][m]]
    {
      if k < |groups| {
        assert groups'[k] == groups[k] && starts'[k] == starts[k];
      }
    }
  }

  /** Zone `i`'s greedy loop, on the trailer as the earlier zones left it, extends the record of rounds. */
  lemma RoundStep(t: Trailer, n: nat, G0: Picture, L0: seq<PalletState>, i: nat, starts: seq<seq<PalletState>>,
                  attempts: seq<seq<Attempt>>, s: seq<PalletState>, tried: seq<Attempt>)
    requires n > 0 && i < n && |attempts| == i && |tried| == |s|
    requires GreedyRounds(t, G0, L0, starts, BandScans(t.width, n, i), attempts)
    requires Round(t, G0, L0, Rounds(starts, attempts, i), s, Band(ZoneBand(t.width, n, i).0, ZoneBand(t.width, n, i).1), tried)
    ensures GreedyRounds(t, G0, L0, starts + [s], BandScans(t.width, n, i + 1), attempts + [tried])
    ensures Rounds(starts + [s], attempts + [tried], i + 1) == Rounds(starts, attempts, i) + Placed(s, tried, |s|)
  {
    GreedyRoundsStep(t, G0, L0, starts, BandScans(t.width, n, i), attempts, s, Band(ZoneBand(t.width, n, i).0, ZoneBand(t.width, n, i).1), tried);
  }

  /** After zone `i`, the grid copy and the boxes are those of the first `i + 1` rounds. */
  lemma RoundsAdd(G0: Picture, L0: seq<PalletState>, done: seq<PalletState>, placed: seq<PalletState>, all: seq<PalletState>)
    requires all == done + placed
    ensures G0.Then(done).Then(placed) == G0.Then(all)
    ensures (L0 + done) + placed == L0 + all
  {
    ThenThen(G0, done, placed);
  }

  /** The loop over the `n` zones. Without repeated or loaded pallets, the
      zones are `Spread` over the trailer as it was before the loop, with the
      pallet states of that moment, and the trailer's boxes gain what the
      zones placed. */
  method LoadZones(t: Trailer, order: seq<Pallet>, n: nat, ghost l0: seq<Pallet>, ghost c0: bool)
      returns (out: seq<Pallet>, ghost groups: seq<seq<Pallet>>, ghost outs: seq<seq<Pallet>>, ghost attempts: seq<seq<Attempt>>,
               ghost starts: seq<seq<PalletState>>, ghost m0: map<Pallet, PalletState>)
    requires t.Valid() && n > 0 && t.loaded == l0
    requires Distinct(order) && Disjoint(order, l0) && c0 ==> t.Consistent(t.Loaded())
    modifies order, t`loaded, t`distribution, t.spaceMap
    ensures t.Valid()
    ensures Bands(order, n, n, out, groups, outs, attempts) && t.loaded == l0 + out
    ensures Distinct(order) && Disjoint(order, l0) && c0 ==> t.Consistent(t.Loaded())
    ensures forall p :: p in order ==> p in m0 && m0[p] == old(p.State())
    ensures Distinct(order) && Disjoint(order, l0) ==>
              && Spread(t, old(t.Snapshot()), old(t.Loaded()), n, m0, groups, starts, attempts)
              && t.Loaded() == old(t.Loaded()) + Rounds(starts, attempts, n)
  {
    ghost var G0, L0 := t.Snapshot(), t.Loaded();
    m0 := map p | p in order :: p.State();
    ghost var g := G0;
    out, groups, outs, attempts, starts := [], [], [], [], [];
    assert G0.Then([]) == G0 && L0 + [] == L0;
    for i := 0 to n
      invariant t.Valid()
      invariant forall p :: p in order ==> p in m0 && m0[p] == old(p.State())
      invariant BandProgress(t, order, n, l0, c0, G0, L0, i, out, groups, outs, attempts, starts, g)
      invariant Distinct(order) && Disjoint(order, l0) ==> Waiting(order, n, i, m0) && Started(m0, groups, starts)
    {
      GroupWithin(order, i, n);
      out, groups, outs, attempts, starts, g := LoadBand(t, order, n, l0, c0, G0, L0, m0, i, out, groups, outs, attempts, starts, g);
    }
  }

  /** Zone `i` of the loop, started from the states `m0` recorded before the
      loop: the pallets of the later zones keep those states. */
  method LoadBand(t: Trailer, order: seq<Pallet>, n: nat, ghost l0: seq<Pallet>, ghost c0: bool, ghost G0: Picture,
                  ghost L0: seq<PalletState>, ghost m0: map<Pallet, PalletState>, i: nat, out0: seq<Pallet>,
                  ghost groups0: seq<seq<Pallet>>, ghost outs0: seq<seq<Pallet>>, ghost attempts0: seq<seq<Attempt>>,
                  ghost starts0: seq<seq<PalletState>>, ghost g0: Picture)
      returns (out: seq<Pallet>, ghost groups: seq<seq<Pallet>>, ghost outs: seq<seq<Pallet>>, ghost attempts: seq<seq<Attempt>>,
               ghost starts: seq<seq<PalletState>>, ghost g: Picture)
    requires t.Valid() && n > 0 && i < n
    requires BandProgress(t, order, n, l0, c0, G0, L0, i, out0, groups0, outs0, attempts0, starts0, g0)
    requires Distinct(order) && Disjoint(order, l0) ==> Waiting(order, n, i, m0) && Started(m0, groups0, starts0)
    modifies ZonePallets(order, i, n), t`loaded, t`distribution, t.spaceMap
    ensures t.Valid()
    ensures BandProgress(t, order, n, l0, c0, G0, L0, i + 1, out, groups, outs, attempts, starts, g)
    ensures Distinct(order) && Disjoint(order, l0) ==> Waiting(order, n, i + 1, m0) && Started(m0, groups, starts)
  {
    ghost var group := ZonePallets(order, i, n);
    GroupWithin(order, i, n);
    ghost var s := States(group);
    ghost var apart := Distinct(order) && Disjoint(order, l0);
    if apart {
      forall m | 0 <= m < |group|
        ensures group[m] in m0 && s[m] == m0[group[m]]
      {
        assert group[m] in order && group[m] in ZonePallets(order, i, n);
      }
      StartedSnoc(m0, groups0, starts0, group, s);
    }
    out, groups, outs, attempts, starts, g := PlaceBand(t, order, n, l0, c0, G0, L0, i, out0, groups0, outs0, attempts0, starts0, g0);
    assert forall p :: p in order && p !in group ==> p.position == old(p.position) && p.rotation == old(p.rotation);
    if apart {
      forall j, p | i + 1 <= j < n && p in order && p in ZonePallets(order, j, n)
        ensures p in m0 && p.State() == m0[p]
      {
        ZonesApart(order, n, i, j);
        assert p !in group;
        assert old(p.State()) == m0[p];
      }
    }
  }

  /** Zone `i`'s pallets through the greedy loop with the band finder, on the
      trailer as the earlier zones left it; only its own pallets change. */
  method PlaceBand(t: Trailer, order: seq<Pallet>, n: nat, ghost l0: seq<Pallet>, ghost c0: bool, ghost G0: Picture,
                   ghost L0: seq<PalletState>, i: nat, out0: seq<Pallet>,
                   ghost groups0: seq<seq<Pallet>>, ghost outs0: seq<seq<Pallet>>, ghost attempts0: seq<seq<Attempt>>,
                   ghost starts0: seq<seq<PalletState>>, ghost g0: Picture)
      returns (out: seq<Pallet>, ghost groups: seq<seq<Pallet>>, ghost outs: seq<seq<Pallet>>, ghost attempts: seq<seq<Attempt>>,
               ghost starts: seq<seq<PalletState>>, ghost g: Picture)
    requires t.Valid() && n > 0 && i < n
    requires BandProgress(t, order, n, l0, c0, G0, L0, i, out0, groups0, outs0, attempts0, starts0, g0)
    modifies ZonePallets(order, i, n), t`loaded, t`distribution, t.spaceMap
    ensures t.Valid()
    ensures BandProgress(t, order, n, l0, c0, G0, L0, i + 1, out, groups, outs, attempts, starts, g)
    ensures groups == groups0 + [ZonePallets(order, i, n)] && starts == starts0 + [old(States(ZonePallets(order, i, n)))]
  {
    var band := ZoneBand(t.width, n, i);
    var group := ZonePallets(order, i, n);
    ghost var loaded0, boxes0, cons0 := t.loaded, t.Loaded(), t.Consistent(t.Loaded());
    ghost var s := States(group);
    var got, tried, g' := PlaceAll(t, group, Band(band.0, band.1), g0);
    BandRecordStep(t, order, n, l0, c0, G0, L0, i, out0, groups0, outs0, attempts0, starts0, g0, loaded0, boxes0, cons0,
                   got, tried, s, g', t.loaded, t.Loaded(), t.Consistent(t.Loaded()));
    out := out0 + got;
    groups, outs, attempts, starts, g := groups0 + [group], outs0 + [got], attempts0 + [tried], starts0 + [s], g';
  }

  /** Zone `i`'s pallets are pallets of the list. */
  lemma GroupWithin(order: seq<Pallet>, i: nat, n: nat)
    requires n > 0
    ensures forall k :: 0 <= k < |ZonePallets(order, i, n)| ==> ZonePallets(order, i, n)[k] in order
  {
    var group := ZonePallets(order, i, n);
    StrideWithin(order, i, n);
    Rearranged(Stride(order, i, n), group, []);
    forall k | 0 <= k < |group|
      ensures group[k] in order
    {
      assert group[k] in group;
    }
  }

  /** The zones hand out only pallets of the ordered list. */
  lemma BandsWithin(order: seq<Pallet>, n: nat, out: seq<Pallet>,
                    groups: seq<seq<Pallet>>, outs: seq<seq<Pallet>>, attempts: seq<seq<Attempt>>)
    requires n > 0 && Bands(order, n, n, out, groups, outs, attempts)
    ensures forall j :: 0 <= j < |out| ==> out[j] in order
  {
    forall k, j | 0 <= k < |outs| && 0 <= j < |outs[k]|
      ensures outs[k][j] in order
    {
      assert Zone(order, n, k, groups[k], outs[k], attempts[k]);
      GroupWithin(order, k, n);
      assert outs[k][j] in outs[k];
      assert outs[k][j] in groups[k];
    }
    ConcatFrom(outs, order);
  }
}
