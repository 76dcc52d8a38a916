/** `XDistributionLoading`: the trailer is cut into zones along its length;
    the pallets, heaviest first, each go to a zone picked to balance the
    weight between zones, at the lowest height free in that zone. */
module XDistribution {
  import opened Wrappers
  import opened Cargo
  import opened Container
  import opened Base
  import opened Scans
  import opened Placement
  import Sorting

  const Name := "X Distribution Loading"

  /** The table entry "X_Distribution". */
  const Defaults: Config := map["zones" := IntValue(3), "balancing_factor" := RealValue(0.8)]

  /** `config.get("zones", 3)`. */
  function Zones(cfg: Config): Result<int, string> { CountOf(cfg, "zones", 3) }

  /** `config.get("balancing_factor", 0.8)`. */
  function BalancingFactor(cfg: Config): Result<real, string> { FactorOf(cfg, "balancing_factor", 0.8) }

  /** `trailer.length // zones`; unused when there are no zones. */
  function ZoneLength(length: int, zones: int): nat
    requires length >= 0
  {
    if zones > 0 then length / zones else 0
  }

  function Sum(xs: seq<int>): int
  {
    if xs == [] then 0 else Sum(xs[..|xs| - 1]) + xs[|xs| - 1]
  }

  /** The sum of the pallets' total weights. */
  function LoadOf(ps: seq<Pallet>): int
  {
    if ps == [] then 0 else LoadOf(ps[..|ps| - 1]) + ps[|ps| - 1].spec.TotalWeight()
  }

  lemma {:induction false} SumUpdate(xs: seq<int>, z: nat, d: int)
    requires z < |xs|
    ensures Sum(xs[z := xs[z] + d]) == Sum(xs) + d
  {
    var n := |xs| - 1;
    var ys := xs[z := xs[z] + d];
    assert ys[..n] == if z < n then xs[..n][z := xs[z] + d] else xs[..n];
    if z < n {
      SumUpdate(xs[..n], z, d);
    }
  }

  /** The zone weights of `n` empty zones. */
  function Zeros(n: nat): (zw: seq<int>)
    ensures |zw| == n && forall z :: 0 <= z < n ==> zw[z] == 0
  {
    seq(n, _ => 0)
  }

  lemma {:induction false} SumZeros(n: nat)
    ensures Sum(Zeros(n)) == 0
  {
    if n > 0 {
      assert Zeros(n)[..n - 1] == Zeros(n - 1);
      SumZeros(n - 1);
    }
  }

  /** `zone_weights` after the accepted pallets `out`, the `k`-th of which
      went to zone `zoneOf[k]`. */
  function ZoneLoads(n: nat, out: seq<Pallet>, zoneOf: seq<nat>): (zw: seq<int>)
    requires |zoneOf| == |out| && forall k :: 0 <= k < |zoneOf| ==> zoneOf[k] < n
    ensures |zw| == n
  {
    if out == [] then
      Zeros(n)
    else
      var m := |out| - 1;
      var prev := ZoneLoads(n, out[..m], zoneOf[..m]);
      prev[zoneOf[m] := prev[zoneOf[m]] + out[m].spec.TotalWeight()]
  }

  /** The zone weights always add up to the weight of the pallets loaded. */
  lemma {:induction false} ZoneLoadsSum(n: nat, out: seq<Pallet>, zoneOf: seq<nat>)
    requires |zoneOf| == |out| && forall k :: 0 <= k < |zoneOf| ==> zoneOf[k] < n
    ensures Sum(ZoneLoads(n, out, zoneOf)) == LoadOf(out)
  {
    if out == [] {
      SumZeros(n);
    } else {
      var m := |out| - 1;
      ZoneLoadsSum(n, out[..m], zoneOf[..m]);
      SumUpdate(ZoneLoads(n, out[..m], zoneOf[..m]), zoneOf[m], out[m].spec.TotalWeight());
    }
  }

  // ---------------------------------------------------------------------
  // Zone order

  /** `|zone_weights[z] - ideal|`, with `ideal` the total divided evenly. */
  function Distance(zw: seq<int>, total: int, z: nat): real
    requires z < |zw|
  {
    Abs(zw[z] as real - total as real / |zw| as real)
  }

  /** `|n * x - total|`: `n` times `|x - total / n|`, an integer. */
  function Gap(n: int, x: int, total: int): int
  {
    if n * x < total then total - n * x else n * x - total
  }

  lemma GapScales(n: int, x: int, total: int)
    requires n > 0
    ensures Gap(n, x, total) as real == n as real * Abs(x as real - total as real / n as real)
  {
    var m := n as real;
    var d := x as real - total as real / m;
    assert m * (total as real / m) == total as real;
    assert m * d == (n * x - total) as real;
    if d < 0.0 {
      assert m * d < 0.0;
    } else {
      assert m * d >= 0.0;
    }
  }

  lemma Scaled(m: real, a: real, b: real)
    requires m > 0.0
    ensures m * a <= m * b <==> a <= b
    ensures m * a == m * b <==> a == b
  {
    if a < b {
      assert m * b - m * a == m * (b - a);
    } else if b < a {
      assert m * a - m * b == m * (a - b);
    }
  }

  lemma GapOrder(zw: seq<int>, total: int, a: nat, b: nat)
    requires a < |zw| && b < |zw|
    ensures Gap(|zw|, zw[a], total) <= Gap(|zw|, zw[b], total) <==> Distance(zw, total, a) <= Distance(zw, total, b)
    ensures Gap(|zw|, zw[a], total) == Gap(|zw|, zw[b], total) <==> Distance(zw, total, a) == Distance(zw, total, b)
  {
    var m := |zw| as real;
    GapScales(|zw|, zw[a], total);
    GapScales(|zw|, zw[b], total);
    Compare(Gap(|zw|, zw[a], total), Gap(|zw|, zw[b], total), m, Distance(zw, total, a), Distance(zw, total, b));
  }

  lemma Compare(ga: int, gb: int, m: real, da: real, db: real)
    requires m > 0.0 && ga as real == m * da && gb as real == m * db
    ensures ga <= gb <==> da <= db
    ensures ga == gb <==> da == db
  {
    Scaled(m, da, db);
  }

  /** The sort keys: `Gap` of every zone weight. */
  function Spread(zw: seq<int>, total: int): (keys: seq<int>)
    ensures |keys| == |zw| && forall z :: 0 <= z < |zw| ==> keys[z] == Gap(|zw|, zw[z], total)
  {
    seq(|zw|, z requires 0 <= z < |zw| => Gap(|zw|, zw[z], total))
  }

  /** `sorted(zones.keys(), key=|zone_weights[z] - ideal|)`: every zone once,
      closest to its ideal share first, ties in zone order. */
  function ZoneOrder(zw: seq<int>, total: int): (o: seq<nat>)
    requires |zw| > 0
    ensures |o| == |zw| && Sorting.InRange(o, |zw|)
    ensures forall z :: 0 <= z < |zw| ==> z in o
    ensures forall a, b :: 0 <= a < b < |o| ==> Distance(zw, total, o[a]) <= Distance(zw, total, o[b])
    ensures forall a, b :: 0 <= a < b < |o| && Distance(zw, total, o[a]) == Distance(zw, total, o[b]) ==> o[a] < o[b]
  {
    ZoneOrderFacts(zw, total);
    Sorting.Order(Spread(zw, total), false)
  }

  lemma ZoneOrderFacts(zw: seq<int>, total: int)
    requires |zw| > 0
    ensures var o := Sorting.Order(Spread(zw, total), false);
      && (forall z :: 0 <= z < |zw| ==> z in o)
      && (forall a, b :: 0 <= a < b < |o| ==> Distance(zw, total, o[a]) <= Distance(zw, total, o[b]))
      && (forall a, b :: 0 <= a < b < |o| && Distance(zw, total, o[a]) == Distance(zw, total, o[b]) ==> o[a] < o[b])
  {
    var keys := Spread(zw, total);
    var zones := seq(|zw|, z requires 0 <= z < |zw| => z as nat);
    var o := Sorting.Order(keys, false);
    Sorting.SortedSpec(zones, keys, false);
    assert Sorting.Sorted(zones, keys, false) == o;
    forall z | 0 <= z < |zw|
      ensures z in o
    {
      assert zones[z] == z;
      assert z in multiset(zones);
    }
    forall a, b | 0 <= a < b < |o|
      ensures Distance(zw, total, o[a]) <= Distance(zw, total, o[b])
      ensures Distance(zw, total, o[a]) == Distance(zw, total, o[b]) ==> o[a] < o[b]
    {
      GapOrder(zw, total, o[a], o[b]);
    }
  }

  // ---------------------------------------------------------------------
  // Zone choice

  /** `sum(zone_weights) + pallet.total_weight`. */
  function Total(zw: seq<int>, w: int): int { Sum(zw) + w }

  /** The balance test `new_zone_weight / (ideal * zones) <= 1 + balancing_factor`;
      `ideal * zones` is the total weight. */
  predicate Balanced(zw: seq<int>, w: int, z: nat, bf: real)
    requires z < |zw| && Total(zw, w) != 0
  {
    (zw[z] + w) as real / Total(zw, w) as real <= 1.0 + bf
  }

  /** Zone `z` has a collision-free floor slot for `s`. */
  ghost predicate Open(t: Trailer, g: Picture, ls: seq<PalletState>, s: PalletState, zl: nat, z: nat)
  {
    Room(t, g, ls, s, ZoneFloor(z, zl))
  }

  /** What `_select_best_zone` settles on, trying the zones `order[j..]`: the
      first open zone that passes the balance test; a division by zero when
      an open zone is reached with a total weight of zero. */
  ghost function Pick(t: Trailer, g: Picture, ls: seq<PalletState>, s: PalletState, zw: seq<int>, zl: nat, bf: real,
                      order: seq<nat>, j: nat): Result<Option<nat>, string>
    requires Sorting.InRange(order, |zw|) && j <= |order|
    decreases |order| - j
  {
    var w := s.spec.TotalWeight();
    if j == |order| then Ok(None)
    else if !Open(t, g, ls, s, zl, order[j]) then Pick(t, g, ls, s, zw, zl, bf, order, j + 1)
    else if Total(zw, w) == 0 then Err("ZeroDivisionError")
    else if Balanced(zw, w, order[j], bf) then Ok(Some(order[j]))
    else Pick(t, g, ls, s, zw, zl, bf, order, j + 1)
  }

  /** The outcome of `_select_best_zone` for a pallet in state `s` on the
      grid `g` before the loaded boxes `ls`: with no zones the ideal share
      divides by zero; otherwise the pick over the zones, closest to their
      share first. A zone it returns is one of the zones, with a floor slot. */
  ghost function Choose(t: Trailer, g: Picture, ls: seq<PalletState>, s: PalletState, zw: seq<int>, zl: nat, bf: real)
    : (r: Result<Option<nat>, string>)
    ensures |zw| == 0 ==> r == Err("ZeroDivisionError")
    ensures r.Ok? && r.value.Some? ==> r.value.value < |zw| && Open(t, g, ls, s, zl, r.value.value)
  {
    if |zw| == 0 then Err("ZeroDivisionError")
    else
      var order := ZoneOrder(zw, Total(zw, s.spec.TotalWeight()));
      var r := Pick(t, g, ls, s, zw, zl, bf, order, 0);
      if r.Ok? && r.value.Some? then PickSome(t, g, ls, s, zw, zl, bf, order, 0, r.value.value); r else r
  }

  /** `_select_best_zone`, on a trailer whose grid `g` copies. */
  method SelectBestZone(t: Trailer, ghost g: Picture, s: PalletState, zw: seq<int>, zl: nat, bf: real) returns (r: Result<Option<nat>, string>)
    ensures r == Choose(t, g, t.Loaded(), s, zw, zl, bf)
  {
    if |zw| == 0 {
      return Err("ZeroDivisionError");
    }
    var w := s.spec.TotalWeight();
    var total := Sum(zw) + w;
    var order := Sorting.Order(Spread(zw, total), false);
    ghost var ls := t.Loaded();
    for j := 0 to |order|
      invariant Pick(t, g, ls, s, zw, zl, bf, order, 0) == Pick(t, g, ls, s, zw, zl, bf, order, j)
    {
      var z := order[j];
      var open := ZoneHasFloorSlot(t, g, s, z, zl);
      if open {
        if total == 0 {
          return Err("ZeroDivisionError");
        }
        if (zw[z] + w) as real / total as real <= 1.0 + bf {
          return Ok(Some(z));
        }
      }
    }
    return Ok(None);
  }

  /** The choice fails exactly when an open zone is reached with no weight at all. */
  lemma {:induction false} PickFails(t: Trailer, g: Picture, ls: seq<PalletState>, s: PalletState, zw: seq<int>, zl: nat, bf: real,
                                     order: seq<nat>, j: nat)
    requires Sorting.InRange(order, |zw|) && j <= |order|
    ensures Pick(t, g, ls, s, zw, zl, bf, order, j).Err? <==>
              Total(zw, s.spec.TotalWeight()) == 0 && exists m :: j <= m < |order| && Open(t, g, ls, s, zl, order[m])
    decreases |order| - j
  {
    if j < |order| {
      PickFails(t, g, ls, s, zw, zl, bf, order, j + 1);
    }
  }

  /** No zone is chosen exactly when every open zone fails the balance test. */
  lemma {:induction false} PickNone(t: Trailer, g: Picture, ls: seq<PalletState>, s: PalletState, zw: seq<int>, zl: nat, bf: real,
                                    order: seq<nat>, j: nat)
    requires Sorting.InRange(order, |zw|) && j <= |order|
    ensures var w := s.spec.TotalWeight();
      Pick(t, g, ls, s, zw, zl, bf, order, j) == Ok(None) <==>
        forall m :: j <= m < |order| && Open(t, g, ls, s, zl, order[m]) ==> Total(zw, w) != 0 && !Balanced(zw, w, order[m], bf)
    decreases |order| - j
  {
    if j < |order| {
      PickNone(t, g, ls, s, zw, zl, bf, order, j + 1);
    }
  }

  /** A chosen zone is open and balanced, and every open zone tried before it failed the balance test. */
  lemma {:induction false} PickSome(t: Trailer, g: Picture, ls: seq<PalletState>, s: PalletState, zw: seq<int>, zl: nat, bf: real,
                                    order: seq<nat>, j: nat, z: nat)
    requires Sorting.InRange(order, |zw|) && j <= |order|
    requires Pick(t, g, ls, s, zw, zl, bf, order, j) == Ok(Some(z))
    ensures var w := s.spec.TotalWeight();
      exists k :: j <= k < |order| && order[k] == z && Open(t, g, ls, s, zl, z) && Total(zw, w) != 0 && Balanced(zw, w, z, bf)
        && forall m :: j <= m < k && Open(t, g, ls, s, zl, order[m]) ==> !Balanced(zw, w, order[m], bf)
    decreases |order| - j
  {
    var w := s.spec.TotalWeight();
    if Open(t, g, ls, s, zl, order[j]) && Balanced(zw, w, order[j], bf) {
      assert order[j] == z;
    } else {
      PickSome(t, g, ls, s, zw, zl, bf, order, j + 1, z);
      var k :| j + 1 <= k < |order| && order[k] == z && Open(t, g, ls, s, zl, z) && Total(zw, w) != 0 && Balanced(zw, w, z, bf)
        && forall m :: j + 1 <= m < k && Open(t, g, ls, s, zl, order[m]) ==> !Balanced(zw, w, order[m], bf);
      assert forall m :: j <= m < k && Open(t, g, ls, s, zl, order[m]) ==> !Balanced(zw, w, order[m], bf);
    }
  }

  /** With non-negative weights the balance ratio is a zone's share of the
      total and never exceeds 1, so no non-negative balancing factor ever
      rejects a zone. */
  lemma BalanceNeverRejects(zw: seq<int>, w: int, z: nat, bf: real)
    requires z < |zw| && Total(zw, w) != 0
    requires w >= 0 && forall i :: 0 <= i < |zw| ==> zw[i] >= 0
    requires bf >= 0.0
    ensures Balanced(zw, w, z, bf)
  {
    PartOfSum(zw, z);
    var total := Total(zw, w) as real;
    assert total > 0.0;
    assert (zw[z] + w) as real <= total;
    assert (zw[z] + w) as real / total <= 1.0;
  }

  lemma {:induction false} PartOfSum(zw: seq<int>, z: nat)
    requires z < |zw| && forall i :: 0 <= i < |zw| ==> zw[i] >= 0
    ensures 0 <= zw[z] <= Sum(zw)
  {
    var n := |zw| - 1;
    NonNegativeSum(zw[..n]);
    if z < n {
      PartOfSum(zw[..n], z);
    }
  }

  lemma {:induction false} NonNegativeSum(zw: seq<int>)
    requires forall i :: 0 <= i < |zw| ==> zw[i] >= 0
    ensures Sum(zw) >= 0
  {
    if zw != [] {
      NonNegativeSum(zw[..|zw| - 1]);
    }
  }

  /** Hence, with non-negative weights and factor, a positive total, the
      zone chosen is the first open one in the order, and none is chosen
      only when no zone has a floor slot. */
  lemma {:induction false} PickFirstOpen(t: Trailer, g: Picture, ls: seq<PalletState>, s: PalletState, zw: seq<int>, zl: nat, bf: real,
                                         order: seq<nat>, j: nat)
    requires Sorting.InRange(order, |zw|) && j <= |order|
    requires s.spec.TotalWeight() >= 0 && (forall i :: 0 <= i < |zw| ==> zw[i] >= 0) && bf >= 0.0
    requires Total(zw, s.spec.TotalWeight()) != 0
    ensures Pick(t, g, ls, s, zw, zl, bf, order, j) == Ok(None) <==> forall m :: j <= m < |order| ==> !Open(t, g, ls, s, zl, order[m])
    ensures forall k :: j <= k < |order| && Open(t, g, ls, s, zl, order[k]) && (forall m :: j <= m < k ==> !Open(t, g, ls, s, zl, order[m])) ==>
              Pick(t, g, ls, s, zw, zl, bf, order, j) == Ok(Some(order[k]))
    decreases |order| - j
  {
    if j < |order| {
      BalanceNeverRejects(zw, s.spec.TotalWeight(), order[j], bf);
      PickFirstOpen(t, g, ls, s, zw, zl, bf, order, j + 1);
      forall k | j <= k < |order| && Open(t, g, ls, s, zl, order[k]) && (forall m :: j <= m < k ==> !Open(t, g, ls, s, zl, order[m]))
        ensures Pick(t, g, ls, s, zw, zl, bf, order, j) == Ok(Some(order[k]))
      {
        if k > j {
          assert !Open(t, g, ls, s, zl, order[j]);
        }
      }
    }
  }

  // ---------------------------------------------------------------------
  // The loading loop

  /** The zones of the accepted pallets, in order: the pick of every turn
      whose pallet the trailer accepted. */
  function Zoning(picks: seq<Option<nat>>, attempts: seq<Attempt>): (zs: seq<nat>)
    requires |picks| == |attempts|
    ensures |zs| <= |attempts|
    ensures forall z :: z in zs ==> Some(z) in picks
  {
    if attempts == [] then []
    else
      var n := |attempts| - 1;
      var rest := Zoning(picks[..n], attempts[..n]);
      if attempts[n].Loaded() && picks[n].Some? then rest + [picks[n].value] else rest
  }

  /** `zone_weights[best_zone] += pallet.total_weight` after a turn that
      picked `pick` for a pallet of total weight `w` and ended with `a`. */
  function Credit(zw: seq<int>, pick: Option<nat>, a: Attempt, w: int): (zw': seq<int>)
    ensures |zw'| == |zw|
    ensures forall z :: 0 <= z < |zw| && (pick != Some(z) || !a.Loaded()) ==> zw'[z] == zw[z]
    ensures a.Loaded() && pick.Some? && pick.value < |zw| ==> zw'[pick.value] == zw[pick.value] + w
  {
    if a.Loaded() && pick.Some? && pick.value < |zw| then zw[pick.value := zw[pick.value] + w] else zw
  }

  /** The zone weights before every turn, `zws[k]` before turn `k`: all zero
      at first, then credited turn by turn, for the pallets in states `s0`. */
  ghost predicate Ledger(n: nat, s0: seq<PalletState>, zws: seq<seq<int>>, picks: seq<Option<nat>>, attempts: seq<Attempt>)
  {
    && |picks| == |attempts| <= |s0| && |zws| == |attempts| + 1
    && zws[0] == Zeros(n)
    && forall k :: 0 <= k < |attempts| ==> zws[k + 1] == Credit(zws[k], picks[k], attempts[k], s0[k].spec.TotalWeight())
  }

  /** One turn of `load_pallets` for the pallet in state `s`, on the grid `g`
      before the loaded boxes `ls`, with the zone weights `zw`: the zone
      choice returned `pick`; no zone means no attempt; otherwise the attempt
      is the fallback's, in that zone. */
  ghost predicate Turn(t: Trailer, g: Picture, ls: seq<PalletState>, s: PalletState, zw: seq<int>, zl: nat, bf: real,
                       pick: Option<nat>, a: Attempt)
  {
    && Choose(t, g, ls, s, zw, zl, bf) == Ok(pick)
    && (pick.None? ==> a == NoRoom)
    && (pick.Some? ==> Attempted(t, g, ls, s, Zone(pick.value, zl), a))
  }

  /** Every turn so far was a `Turn` on the trailer as the earlier turns left
      it: the grid `g0` and the boxes `l0` with their boxes added, and the
      zone weights of the ledger `zws`. */
  ghost predicate Zoned(t: Trailer, g0: Picture, l0: seq<PalletState>, s0: seq<PalletState>, zl: nat, bf: real,
                        zws: seq<seq<int>>, picks: seq<Option<nat>>, attempts: seq<Attempt>)
  {
    && |attempts| <= |s0| && |picks| == |attempts| && |zws| > |attempts|
    && forall k :: 0 <= k < |attempts| ==>
         Turn(t, g0.Then(Placed(s0, attempts, k)), l0 + Placed(s0, attempts, k), s0[k], zws[k], zl, bf, picks[k], attempts[k])
  }

  /** The turn after `attempts` is where the zone choice failed with `e`. */
  ghost predicate Stuck(t: Trailer, g0: Picture, l0: seq<PalletState>, s0: seq<PalletState>, zl: nat, bf: real,
                        zws: seq<seq<int>>, attempts: seq<Attempt>, e: string)
  {
    var k := |attempts|;
    && k < |s0| && k < |zws|
    && Choose(t, g0.Then(Placed(s0, attempts, k)), l0 + Placed(s0, attempts, k), s0[k], zws[k], zl, bf) == Err(e)
  }

  /** One more turn, made on the trailer as the earlier ones left it, extends `Zoned`. */
  lemma ZonedStep(t: Trailer, g0: Picture, l0: seq<PalletState>, s0: seq<PalletState>, zl: nat, bf: real,
                  zws: seq<seq<int>>, picks: seq<Option<nat>>, attempts: seq<Attempt>, zw: seq<int>, pick: Option<nat>, a: Attempt)
    requires Zoned(t, g0, l0, s0, zl, bf, zws, picks, attempts) && |attempts| < |s0| && |zws| == |attempts| + 1
    requires var done := Placed(s0, attempts, |attempts|);
      Turn(t, g0.Then(done), l0 + done, s0[|attempts|], zws[|attempts|], zl, bf, pick, a)
    ensures Zoned(t, g0, l0, s0, zl, bf, zws + [zw], picks + [pick], attempts + [a])
  {
    var zws', picks', attempts' := zws + [zw], picks + [pick], attempts + [a];
    forall k | 0 <= k < |attempts'|
      ensures Turn(t, g0.Then(Placed(s0, attempts', k)), l0 + Placed(s0, attempts', k), s0[k], zws'[k], zl, bf, picks'[k], attempts'[k])
    {
      PlacedPrefix(s0, attempts, a, k);
      assert zws'[k] == zws[k];
      if k < |attempts| {
        assert picks'[k] == picks[k] && attempts'[k] == attempts[k];
      }
    }
  }

  /** One more turn extends the ledger and the zones of the accepted pallets. */
  lemma LedgerStep(n: nat, s0: seq<PalletState>, zws: seq<seq<int>>, picks: seq<Option<nat>>, attempts: seq<Attempt>,
                   pick: Option<nat>, a: Attempt)
    requires Ledger(n, s0, zws, picks, attempts) && |attempts| < |s0|
    ensures var i := |attempts|;
      Ledger(n, s0, zws + [Credit(zws[i], pick, a, s0[i].spec.TotalWeight())], picks + [pick], attempts + [a])
    ensures Zoning(picks + [pick], attempts + [a]) == Zoning(picks, attempts) + if a.Loaded() && pick.Some? then [pick.value] else []
  {
    var i := |attempts|;
    assert (picks + [pick])[..i] == picks && (attempts + [a])[..i] == attempts;
    var zws' := zws + [Credit(zws[i], pick, a, s0[i].spec.TotalWeight())];
    forall k | 0 <= k < i + 1
      ensures zws'[k + 1] == Credit(zws'[k], (picks + [pick])[k], (attempts + [a])[k], s0[k].spec.TotalWeight())
    {
      if k < i {
        assert (picks + [pick])[k] == picks[k] && (attempts + [a])[k] == attempts[k];
      }
    }
  }

  /** The bookkeeping of the zone loop after the first `i` pallets of `ps`,
      in the states `s0`: the accepted pallets and their zones, the zone
      weights `zw`, the ledger `zws` of the zone weights before every turn
      and the zone choice `picks` of every turn. */
  ghost predicate Tallied(ps: seq<Pallet>, s0: seq<PalletState>, n: nat, i: nat, out: seq<Pallet>, attempts: seq<Attempt>,
                          zoneOf: seq<nat>, zw: seq<int>, picks: seq<Option<nat>>, zws: seq<seq<int>>)
  {
    && |s0| == |ps| && i <= |ps| && |attempts| == i
    && (forall k :: 0 <= k < |ps| ==> ps[k].spec == s0[k].spec)
    && out == Accepted(ps[..i], attempts)
    && |zoneOf| == |out| && (forall k :: 0 <= k < |zoneOf| ==> zoneOf[k] < n)
    && zw == ZoneLoads(n, out, zoneOf)
    && Ledger(n, s0, zws, picks, attempts) && zws[i] == zw
    && zoneOf == Zoning(picks, attempts)
  }

  /** One turn keeps the bookkeeping: the zone choice `z` and the attempt
      `a` that followed it. */
  lemma TalliedStep(ps: seq<Pallet>, s0: seq<PalletState>, n: nat, i: nat, out0: seq<Pallet>, attempts0: seq<Attempt>,
                    zoneOf0: seq<nat>, zw0: seq<int>, picks0: seq<Option<nat>>, zws0: seq<seq<int>>, z: Option<nat>, a: Attempt,
                    out: seq<Pallet>, zoneOf: seq<nat>, zw: seq<int>)
    requires i < |ps| && Tallied(ps, s0, n, i, out0, attempts0, zoneOf0, zw0, picks0, zws0)
    requires a.Loaded() ==> z.Some? && z.value < n
    requires out == if a.Loaded() then out0 + [ps[i]] else out0
    requires zoneOf == if a.Loaded() then zoneOf0 + [z.value] else zoneOf0
    requires zw == Credit(zw0, z, a, s0[i].spec.TotalWeight())
    ensures Tallied(ps, s0, n, i + 1, out, attempts0 + [a], zoneOf, zw, picks0 + [z], zws0 + [zw])
  {
    assert ps[i].spec == s0[i].spec;
    AcceptedStep(ps, i, attempts0, a, out0);
    Tally(ps, n, i, out0, zoneOf0, zw0, a, z, out, zoneOf, zw);
    LedgerStep(n, s0, zws0, picks0, attempts0, z, a);
  }

  /** The values the zone loop keeps after the first `i` pallets of `ps`,
      started from the pallet states `s0`, the loaded list `l0` with the
      boxes `L0` and the grid copy `g0`: the bookkeeping, and the grid
      copy `g`. */
  ghost predicate Books(t: Trailer, ps: seq<Pallet>, s0: seq<PalletState>, l0: seq<Pallet>, L0: seq<PalletState>,
                        g0: Picture, n: nat, zl: nat, bf: real, i: nat,
                        out: seq<Pallet>, attempts: seq<Attempt>, zoneOf: seq<nat>, zw: seq<int>,
                        picks: seq<Option<nat>>, zws: seq<seq<int>>, g: Picture)
  {
    && Tallied(ps, s0, n, i, out, attempts, zoneOf, zw, picks, zws)
    && (Distinct(ps) ==> g == g0.Then(Placed(s0, attempts, i)))
    && (Distinct(ps) && Disjoint(ps, l0) ==> Zoned(t, g0, L0, s0, zl, bf, zws, picks, attempts))
  }

  /** One turn keeps the books: the zone choice `z`, made on the trailer as
      the earlier turns left it, and the attempt `a` that followed it. */
  lemma BooksStep(t: Trailer, ps: seq<Pallet>, s0: seq<PalletState>, l0: seq<Pallet>, L0: seq<PalletState>,
                  g0: Picture, n: nat, zl: nat, bf: real, i: nat,
                  out0: seq<Pallet>, attempts0: seq<Attempt>, zoneOf0: seq<nat>, zw0: seq<int>,
                  picks0: seq<Option<nat>>, zws0: seq<seq<int>>, g1: Picture, z: Option<nat>, a: Attempt,
                  out: seq<Pallet>, zoneOf: seq<nat>, zw: seq<int>, g: Picture)
    requires i < |ps| && Books(t, ps, s0, l0, L0, g0, n, zl, bf, i, out0, attempts0, zoneOf0, zw0, picks0, zws0, g1)
    requires Distinct(ps) && Disjoint(ps, l0) ==>
               Turn(t, g1, L0 + Placed(s0, attempts0, i), s0[i], zw0, zl, bf, z, a)
    requires a.Loaded() ==> z.Some? && z.value < n
    requires out == if a.Loaded() then out0 + [ps[i]] else out0
    requires zoneOf == if a.Loaded() then zoneOf0 + [z.value] else zoneOf0
    requires zw == Credit(zw0, z, a, s0[i].spec.TotalWeight())
    requires Distinct(ps) ==> g == if a.Loaded() then g1.Then([After(s0[i], a)]) else g1
    ensures Books(t, ps, s0, l0, L0, g0, n, zl, bf, i + 1, out, attempts0 + [a], zoneOf, zw, picks0 + [z], zws0 + [zw], g)
  {
    TalliedStep(ps, s0, n, i, out0, attempts0, zoneOf0, zw0, picks0, zws0, z, a, out, zoneOf, zw);
    if Distinct(ps) {
      PlacedStep(g0, L0, s0, attempts0, a);
      if Disjoint(ps, l0) {
        ZonedStep(t, g0, L0, s0, zl, bf, zws0, picks0, attempts0, zw, z, a);
      }
    }
  }

  /** The trailer as the books of the zone loop describe it after the
      first `i` pallets: the loaded list, the grid copy `g`, the pallets not
      tried yet, the loaded boxes, and consistency kept when the trailer
      started consistent (`c0`). */
  ghost predicate Scene(t: Trailer, ps: seq<Pallet>, s0: seq<PalletState>, l0: seq<Pallet>, L0: seq<PalletState>,
                        c0: bool, i: nat, out: seq<Pallet>, attempts: seq<Attempt>, g: Picture)
    reads t`loaded, t.loaded, ps, t`spaceMap, t.spaceMap
    requires |ps| == |s0| && i <= |s0| && i <= |attempts|
  {
    && t.loaded == l0 + out
    && t.Shows(g)
    && (Distinct(ps) ==> forall k :: i <= k < |ps| ==> ps[k].State() == s0[k])
    && (Distinct(ps) && Disjoint(ps, l0) ==> t.Loaded() == L0 + Placed(s0, attempts, i))
    && (Distinct(ps) && Disjoint(ps, l0) && c0 ==> t.Consistent(t.Loaded()))
  }

  /** What the zone loop knows after the first `i` pallets: the books, and
      the trailer as they describe it. */
  ghost predicate ZoneProgress(t: Trailer, ps: seq<Pallet>, s0: seq<PalletState>, l0: seq<Pallet>, L0: seq<PalletState>,
                               g0: Picture, c0: bool, n: nat, zl: nat, bf: real, i: nat,
                               out: seq<Pallet>, attempts: seq<Attempt>, zoneOf: seq<nat>, zw: seq<int>,
                               picks: seq<Option<nat>>, zws: seq<seq<int>>, g: Picture)
    reads t`loaded, t.loaded, ps, t`spaceMap, t.spaceMap
  {
    && Books(t, ps, s0, l0, L0, g0, n, zl, bf, i, out, attempts, zoneOf, zw, picks, zws, g)
    && Scene(t, ps, s0, l0, L0, c0, i, out, attempts, g)
  }

  /** `range(zones_count)`: no zones for a negative count. */
  function ZoneCount(zones: int): nat
  {
    if zones > 0 then zones else 0
  }

  /** `load_pallets`. A zone count that is not a number, zero zones, or a
      factor that is not a number, fails before anything is loaded; with a
      negative count there are no zones, and the first pallet's zone choice
      divides by zero. Otherwise, without repeated pallets and none loaded
      yet, every turn is the zone choice and the fallback's attempt on the
      trailer as the earlier turns left it, and a failure is the zone choice
      of the turn after the last. */
  method LoadPallets(t: Trailer, ps: seq<Pallet>, cfg: Config)
      returns (r: Result<seq<Pallet>, string>, ghost order: seq<Pallet>, ghost attempts: seq<Attempt>, ghost zoneOf: seq<nat>,
               ghost picks: seq<Option<nat>>, ghost zws: seq<seq<int>>)
    requires t.Valid()
    modifies ps, t`loaded, t`distribution, t.spaceMap
    ensures t.Valid()
    ensures order == SortByWeight(ps, true)
    ensures Zones(cfg).Err? || Zones(cfg) == Ok(0) || BalancingFactor(cfg).Err? ==> r.Err? && t.loaded == old(t.loaded)
    ensures Zones(cfg).Ok? && Zones(cfg).value < 0 && BalancingFactor(cfg).Ok? ==> (r.Ok? <==> ps == []) && t.loaded == old(t.loaded)
    ensures r.Ok? ==> |attempts| == |order| && r.value == Accepted(order, attempts) && t.loaded == old(t.loaded) + r.value
    ensures r.Ok? ==> |zoneOf| == |r.value| && forall k :: 0 <= k < |zoneOf| ==> zoneOf[k] < Zones(cfg).value
    ensures Distinct(ps) && Disjoint(ps, old(t.loaded)) && old(t.Consistent(t.Loaded())) ==> t.Consistent(t.Loaded())
    ensures Zones(cfg).Ok? && Zones(cfg).value != 0 && BalancingFactor(cfg).Ok? ==>
              && |picks| == |attempts| && zoneOf == Zoning(picks, attempts)
              && Ledger(ZoneCount(Zones(cfg).value), old(States(order)), zws, picks, attempts)
    ensures Zones(cfg).Ok? && Zones(cfg).value != 0 && BalancingFactor(cfg).Ok? && Distinct(ps) && Disjoint(ps, old(t.loaded)) ==>
              var zl, bf := ZoneLength(t.length, Zones(cfg).value), BalancingFactor(cfg).value;
              && Zoned(t, old(t.Snapshot()), old(t.Loaded()), old(States(order)), zl, bf, zws, picks, attempts)
              && (r.Err? ==> Stuck(t, old(t.Snapshot()), old(t.Loaded()), old(States(order)), zl, bf, zws, attempts, r.error))
  {
    var sorted := SortByWeight(ps, true);
    order := sorted;
    Rearranged(ps, sorted, t.loaded);
    attempts, zoneOf, picks, zws := [], [], [], [];
    var zones := Zones(cfg);
    if zones.Err? {
      return Err(zones.error), order, attempts, zoneOf, picks, zws;
    }
    if zones.value == 0 {
      return Err("ZeroDivisionError"), order, attempts, zoneOf, picks, zws;
    }
    var factor := BalancingFactor(cfg);
    if factor.Err? {
      return Err(factor.error), order, attempts, zoneOf, picks, zws;
    }
    var n := ZoneCount(zones.value);
    var zl := ZoneLength(t.length, zones.value);
    r, attempts, zoneOf, picks, zws := LoadZones(t, sorted, n, zl, factor.value, t.Snapshot());
  }

  /** The loop of `load_pallets` over `n` zones of length `zl`, on a trailer
      whose grid `g0` copies. */
  method LoadZones(t: Trailer, ps: seq<Pallet>, n: nat, zl: nat, bf: real, ghost g0: Picture)
      returns (r: Result<seq<Pallet>, string>, ghost attempts: seq<Attempt>, ghost zoneOf: seq<nat>,
               ghost picks: seq<Option<nat>>, ghost zws: seq<seq<int>>)
    requires t.Valid() && t.Shows(g0)
    modifies ps, t`loaded, t`distribution, t.spaceMap
    ensures t.Valid()
    ensures n == 0 ==> (r.Ok? <==> ps == []) && t.loaded == old(t.loaded)
    ensures r.Ok? ==> |attempts| == |ps| && r.value == Accepted(ps, attempts) && t.loaded == old(t.loaded) + r.value
    ensures r.Ok? ==> |zoneOf| == |r.value| && forall k :: 0 <= k < |zoneOf| ==> zoneOf[k] < n
    ensures |picks| == |attempts| && zoneOf == Zoning(picks, attempts) && Ledger(n, old(States(ps)), zws, picks, attempts)
    ensures Distinct(ps) && Disjoint(ps, old(t.loaded)) && old(t.Consistent(t.Loaded())) ==> t.Consistent(t.Loaded())
    ensures Distinct(ps) && Disjoint(ps, old(t.loaded)) ==>
              && Zoned(t, g0, old(t.Loaded()), old(States(ps)), zl, bf, zws, picks, attempts)
              && (r.Err? ==> Stuck(t, g0, old(t.Loaded()), old(States(ps)), zl, bf, zws, attempts, r.error))
  {
    ghost var s0, l0, L0, c0 := States(ps), t.loaded, t.Loaded(), t.Consistent(t.Loaded());
    assert g0.Then([]) == g0 && L0 + [] == L0 && l0 + [] == l0;
    var failed, out, zw;
    ghost var g;
    failed, out, attempts, zoneOf, zw, picks, zws, g := ZoneLoop(t, ps, s0, l0, L0, g0, c0, n, zl, bf);
    if failed.Some? {
      return Err(failed.value), attempts, zoneOf, picks, zws;
    }
    assert ps[..|ps|] == ps;
    r := Ok(out);
  }

  /** The `for` loop of `load_pallets`, from the books of no turn at all,
      until the last pallet or the first zone choice that fails. */
  method ZoneLoop(t: Trailer, ps: seq<Pallet>, ghost s0: seq<PalletState>, ghost l0: seq<Pallet>, ghost L0: seq<PalletState>,
                  ghost g0: Picture, ghost c0: bool, n: nat, zl: nat, bf: real)
      returns (failed: Option<string>, out: seq<Pallet>, ghost attempts: seq<Attempt>, ghost zoneOf: seq<nat>, zw: seq<int>,
               ghost picks: seq<Option<nat>>, ghost zws: seq<seq<int>>, ghost g: Picture)
    requires t.Valid()
    requires ZoneProgress(t, ps, s0, l0, L0, g0, c0, n, zl, bf, 0, [], [], [], Zeros(n), [], [Zeros(n)], g0)
    modifies ps, t`loaded, t`distribution, t.spaceMap
    ensures t.Valid() && |attempts| <= |ps|
    ensures ZoneProgress(t, ps, s0, l0, L0, g0, c0, n, zl, bf, |attempts|, out, attempts, zoneOf, zw, picks, zws, g)
    ensures failed.None? ==> |attempts| == |ps|
    ensures n == 0 ==> |attempts| == 0 && (failed.None? <==> ps == [])
    ensures failed.Some? && Distinct(ps) && Disjoint(ps, l0) ==> Stuck(t, g0, L0, s0, zl, bf, zws, attempts, failed.value)
  {
    zw, out, g := Zeros(n), [], g0;
    attempts, zoneOf, picks, zws := [], [], [], [zw];
    failed := None;
    for i := 0 to |ps|
      invariant t.Valid() && |attempts| == i && failed.None?
      invariant n == 0 ==> i == 0
      invariant ZoneProgress(t, ps, s0, l0, L0, g0, c0, n, zl, bf, i, out, attempts, zoneOf, zw, picks, zws, g)
    {
      failed, out, attempts, zoneOf, zw, picks, zws, g :=
        LoadOne(t, ps, s0, l0, L0, g0, c0, n, zl, bf, i, out, attempts, zoneOf, zw, picks, zws, g);
      if failed.Some? {
        return;
      }
    }
  }

  /** One more attempt extends the accepted list by its pallet if the
      trailer took it. */
  lemma AcceptedStep(ps: seq<Pallet>, i: nat, attempts0: seq<Attempt>, a: Attempt, out0: seq<Pallet>)
    requires i < |ps| && |attempts0| == i && out0 == Accepted(ps[..i], attempts0)
    ensures Accepted(ps[..i + 1], attempts0 + [a]) == if a.Loaded() then out0 + [ps[i]] else out0
  {
    assert ps[..i + 1][..i] == ps[..i] && (attempts0 + [a])[..i] == attempts0;
  }

  /** The zones and the zone weights of one turn: an accepted pallet is
      recorded with its zone, and its weight goes to that zone. */
  lemma Tally(ps: seq<Pallet>, n: nat, i: nat, out0: seq<Pallet>, zoneOf0: seq<nat>, zw0: seq<int>,
              a: Attempt, z: Option<nat>, out: seq<Pallet>, zoneOf: seq<nat>, zw: seq<int>)
    requires i < |ps|
    requires |zoneOf0| == |out0| && (forall k :: 0 <= k < |zoneOf0| ==> zoneOf0[k] < n) && zw0 == ZoneLoads(n, out0, zoneOf0)
    requires a.Loaded() ==> z.Some? && z.value < n
    requires out == if a.Loaded() then out0 + [ps[i]] else out0
    requires zoneOf == if a.Loaded() then zoneOf0 + [z.value] else zoneOf0
    requires zw == Credit(zw0, z, a, ps[i].spec.TotalWeight())
    ensures |zoneOf| == |out| && (forall k :: 0 <= k < |zoneOf| ==> zoneOf[k] < n)
    ensures zw == ZoneLoads(n, out, zoneOf)
  {
    var w := ps[i].spec.TotalWeight();
    if a.Loaded() {
      var zw1 := zw0[z.value := zw0[z.value] + w];
      LoadsSnoc(n, out0, zoneOf0, zw0, ps[i], z.value, out, zoneOf);
      assert ZoneLoads(n, out, zoneOf) == zw1;
      Credited(zw0, z, a, w);
      assert zw == zw1;
    } else {
      assert zw == zw0;
    }
  }

  /** An accepted pallet's weight goes to the zone it was placed in. */
  lemma Credited(zw: seq<int>, z: Option<nat>, a: Attempt, w: int)
    requires a.Loaded() && z.Some? && z.value < |zw|
    ensures Credit(zw, z, a, w) == zw[z.value := zw[z.value] + w]
  {
  }

  /** Accepting one more pallet into zone `z` adds its weight to that zone. */
  lemma LoadsSnoc(n: nat, out0: seq<Pallet>, zoneOf0: seq<nat>, zw0: seq<int>, p: Pallet, z: nat, out: seq<Pallet>, zoneOf: seq<nat>)
    requires |zoneOf0| == |out0| && (forall k :: 0 <= k < |zoneOf0| ==> zoneOf0[k] < n) && z < n
    requires zw0 == ZoneLoads(n, out0, zoneOf0)
    requires out == out0 + [p] && zoneOf == zoneOf0 + [z]
    ensures |zoneOf| == |out| && forall k :: 0 <= k < |zoneOf| ==> zoneOf[k] < n
    ensures ZoneLoads(n, out, zoneOf) == zw0[z := zw0[z] + p.spec.TotalWeight()]
  {
    assert out[..|out0|] == out0 && zoneOf[..|zoneOf0|] == zoneOf0;
  }

  /** One turn of the loop: choose a zone, and place the pallet there with the
      rotation fallback. A failure comes from the zone choice, and leaves
      everything as it was. */
  method LoadOne(t: Trailer, ps: seq<Pallet>, ghost s0: seq<PalletState>, ghost l0: seq<Pallet>, ghost L0: seq<PalletState>,
                 ghost g0: Picture, ghost c0: bool, n: nat, zl: nat, bf: real, i: nat,
                 out0: seq<Pallet>, ghost attempts0: seq<Attempt>, ghost zoneOf0: seq<nat>, zw0: seq<int>,
                 ghost picks0: seq<Option<nat>>, ghost zws0: seq<seq<int>>, ghost g1: Picture)
      returns (failed: Option<string>, out: seq<Pallet>, ghost attempts: seq<Attempt>, ghost zoneOf: seq<nat>, zw: seq<int>,
               ghost picks: seq<Option<nat>>, ghost zws: seq<seq<int>>, ghost g: Picture)
    requires t.Valid() && i < |ps|
    requires ZoneProgress(t, ps, s0, l0, L0, g0, c0, n, zl, bf, i, out0, attempts0, zoneOf0, zw0, picks0, zws0, g1)
    modifies ps[i], t`loaded, t`distribution, t.spaceMap
    ensures t.Valid()
    ensures n == 0 ==> failed.Some?
    ensures failed.Some? ==> ZoneProgress(t, ps, s0, l0, L0, g0, c0, n, zl, bf, i, out, attempts, zoneOf, zw, picks, zws, g)
    ensures failed.Some? && Distinct(ps) && Disjoint(ps, l0) ==> Stuck(t, g0, L0, s0, zl, bf, zws, attempts, failed.value)
    ensures failed.None? ==> ZoneProgress(t, ps, s0, l0, L0, g0, c0, n, zl, bf, i + 1, out, attempts, zoneOf, zw, picks, zws, g)
  {
    var choice := SelectBestZone(t, g1, ps[i].State(), zw0, zl, bf);
    assert ZoneProgress(t, ps, s0, l0, L0, g0, c0, n, zl, bf, i, out0, attempts0, zoneOf0, zw0, picks0, zws0, g1);
    failed, out, attempts, zoneOf, zw, picks, zws, g :=
      TakeTurn(t, ps, s0, l0, L0, g0, c0, n, zl, bf, i, choice, out0, attempts0, zoneOf0, zw0, picks0, zws0, g1);
  }

  /** The rest of a turn, for the zone choice `choice` made on the trailer
      as the books describe it: place the pallet in the chosen zone with the
      rotation fallback, or fail with the choice's error and change nothing. */
  method TakeTurn(t: Trailer, ps: seq<Pallet>, ghost s0: seq<PalletState>, ghost l0: seq<Pallet>, ghost L0: seq<PalletState>,
                 ghost g0: Picture, ghost c0: bool, n: nat, zl: nat, bf: real, i: nat, choice: Result<Option<nat>, string>,
                 out0: seq<Pallet>, ghost attempts0: seq<Attempt>, ghost zoneOf0: seq<nat>, zw0: seq<int>,
                 ghost picks0: seq<Option<nat>>, ghost zws0: seq<seq<int>>, ghost g1: Picture)
      returns (failed: Option<string>, out: seq<Pallet>, ghost attempts: seq<Attempt>, ghost zoneOf: seq<nat>, zw: seq<int>,
               ghost picks: seq<Option<nat>>, ghost zws: seq<seq<int>>, ghost g: Picture)
    requires t.Valid() && i < |ps|
    requires ZoneProgress(t, ps, s0, l0, L0, g0, c0, n, zl, bf, i, out0, attempts0, zoneOf0, zw0, picks0, zws0, g1)
    requires choice == Choose(t, g1, t.Loaded(), ps[i].State(), zw0, zl, bf)
    modifies ps[i], t`loaded, t`distribution, t.spaceMap
    ensures t.Valid()
    ensures n == 0 ==> failed.Some?
    ensures failed.Some? ==> ZoneProgress(t, ps, s0, l0, L0, g0, c0, n, zl, bf, i, out, attempts, zoneOf, zw, picks, zws, g)
    ensures failed.Some? && Distinct(ps) && Disjoint(ps, l0) ==> Stuck(t, g0, L0, s0, zl, bf, zws, attempts, failed.value)
    ensures failed.None? ==> ZoneProgress(t, ps, s0, l0, L0, g0, c0, n, zl, bf, i + 1, out, attempts, zoneOf, zw, picks, zws, g)
  {
    if choice.Err? {
      StuckAt(t, ps, s0, l0, L0, g0, c0, n, zl, bf, i, out0, attempts0, zoneOf0, zw0, picks0, zws0, g1, choice.error);
      return Some(choice.error), out0, attempts0, zoneOf0, zw0, picks0, zws0, g1;
    }
    out, attempts, zoneOf, zw, picks, zws, g := PlaceInZone(t, ps, s0, l0, L0, g0, c0, n, zl, bf, i, choice.value,
                                                            out0, attempts0, zoneOf0, zw0, picks0, zws0, g1);
    failed := None;
  }

  /** A zone choice that fails on the trailer the books describe is the
      failure `Stuck` records; with no zones the choice always fails. */
  lemma StuckAt(t: Trailer, ps: seq<Pallet>, s0: seq<PalletState>, l0: seq<Pallet>, L0: seq<PalletState>,
                g0: Picture, c0: bool, n: nat, zl: nat, bf: real, i: nat,
                out: seq<Pallet>, attempts: seq<Attempt>, zoneOf: seq<nat>, zw: seq<int>,
                picks: seq<Option<nat>>, zws: seq<seq<int>>, g: Picture, e: string)
    requires i < |ps| && ZoneProgress(t, ps, s0, l0, L0, g0, c0, n, zl, bf, i, out, attempts, zoneOf, zw, picks, zws, g)
    requires Choose(t, g, t.Loaded(), ps[i].State(), zw, zl, bf) == Err(e)
    ensures Distinct(ps) && Disjoint(ps, l0) ==> Stuck(t, g0, L0, s0, zl, bf, zws, attempts, e)
  {
    if Distinct(ps) && Disjoint(ps, l0) {
      assert ps[i].State() == s0[i];
      assert |attempts| == i && zws[i] == zw;
    }
  }

  /** The placement half of a turn, for the zone choice `z`: no zone, no attempt. */
  method PlaceInZone(t: Trailer, ps: seq<Pallet>, ghost s0: seq<PalletState>, ghost l0: seq<Pallet>, ghost L0: seq<PalletState>,
                     ghost g0: Picture, ghost c0: bool, n: nat, zl: nat, bf: real, i: nat, z: Option<nat>,
                     out0: seq<Pallet>, ghost attempts0: seq<Attempt>, ghost zoneOf0: seq<nat>, zw0: seq<int>,
                     ghost picks0: seq<Option<nat>>, ghost zws0: seq<seq<int>>, ghost g1: Picture)
      returns (out: seq<Pallet>, ghost attempts: seq<Attempt>, ghost zoneOf: seq<nat>, zw: seq<int>,
               ghost picks: seq<Option<nat>>, ghost zws: seq<seq<int>>, ghost g: Picture)
    requires t.Valid() && i < |ps|
    requires ZoneProgress(t, ps, s0, l0, L0, g0, c0, n, zl, bf, i, out0, attempts0, zoneOf0, zw0, picks0, zws0, g1)
    requires Choose(t, g1, t.Loaded(), ps[i].State(), zw0, zl, bf) == Ok(z)
    modifies ps[i], t`loaded, t`distribution, t.spaceMap
    ensures t.Valid()
    ensures ZoneProgress(t, ps, s0, l0, L0, g0, c0, n, zl, bf, i + 1, out, attempts, zoneOf, zw, picks, zws, g)
  {
    var p := ps[i];
    assert p.spec == s0[i].spec && |zw0| == n;
    if Distinct(ps) {
      DistinctIndices(ps);
      assert p !in out0;
    }
    var a;
    a, out, g := Advance(t, ps, s0, l0, L0, c0, i, out0, attempts0, g1, z, zl, zw0, bf);
    attempts, picks := attempts0 + [a], picks0 + [z];
    zoneOf := if a.Loaded() then zoneOf0 + [z.value] else zoneOf0;
    zw := Credit(zw0, z, a, p.spec.TotalWeight());
    zws := zws0 + [zw];
    BooksStep(t, ps, s0, l0, L0, g0, n, zl, bf, i, out0, attempts0, zoneOf0, zw0, picks0, zws0, g1, z, a, out, zoneOf, zw, g);
  }

  /** The trailer's half of a turn: the attempt in the zone `z` that the
      zone choice returned, and the trailer as it leaves it. */
  method Advance(t: Trailer, ps: seq<Pallet>, ghost s0: seq<PalletState>, ghost l0: seq<Pallet>, ghost L0: seq<PalletState>,
                 ghost c0: bool, i: nat, out0: seq<Pallet>, ghost attempts0: seq<Attempt>, ghost g1: Picture,
                 z: Option<nat>, zl: nat, ghost zw0: seq<int>, ghost bf: real)
      returns (a: Attempt, out: seq<Pallet>, ghost g: Picture)
    requires t.Valid() && i < |ps| == |s0| && |attempts0| == i
    requires Scene(t, ps, s0, l0, L0, c0, i, out0, attempts0, g1)
    requires Distinct(ps) ==> ps[i] !in out0
    requires Choose(t, g1, t.Loaded(), ps[i].State(), zw0, zl, bf) == Ok(z)
    modifies ps[i], t`loaded, t`distribution, t.spaceMap
    ensures t.Valid()
    ensures out == if a.Loaded() then out0 + [ps[i]] else out0
    ensures g == if a.Loaded() then g1.Then([ps[i].State()]) else g1
    ensures a.Loaded() ==> z.Some?
    ensures Distinct(ps) ==> ps[i].State() == After(s0[i], a)
    ensures Distinct(ps) && Disjoint(ps, l0) ==> Turn(t, g1, L0 + Placed(s0, attempts0, i), s0[i], zw0, zl, bf, z, a)
    ensures Scene(t, ps, s0, l0, L0, c0, i + 1, out, attempts0 + [a], g)
  {
    var p := ps[i];
    if Distinct(ps) {
      DistinctIndices(ps);
      assert forall k :: i < k < |ps| ==> ps[k] != p;
    }
    assert (l0 + out0) + [p] == l0 + (out0 + [p]);
    a := TryZone(t, p, z, zl, g1, zw0, bf);
    out := if a.Loaded() then out0 + [p] else out0;
    g := if a.Loaded() then g1.Then([p.State()]) else g1;
    PlacedStep(g1, L0, s0, attempts0, a);
  }

  /** `_find_position_in_zone` and what follows it, in the zone `z` that
      the zone choice returned, if any. */
  method TryZone(t: Trailer, p: Pallet, z: Option<nat>, zl: nat, ghost g: Picture, ghost zw: seq<int>, ghost bf: real)
      returns (a: Attempt)
    requires t.Valid() && t.Shows(g) && Choose(t, g, t.Loaded(), p.State(), zw, zl, bf) == Ok(z)
    modifies p, t`loaded, t`distribution, t.spaceMap
    ensures t.Valid()
    ensures t.Shows(if a.Loaded() then g.Then([p.State()]) else g)
    ensures p.State() == After(old(p.State()), a)
    ensures a.Loaded() ==> z.Some? && t.loaded == old(t.loaded) + [p]
    ensures !a.Loaded() ==> t.loaded == old(t.loaded)
    ensures p !in old(t.loaded) ==> Turn(t, g, old(t.Loaded()), old(p.State()), zw, zl, bf, z, a)
    ensures p !in old(t.loaded) ==> t.Loaded() == old(t.Loaded()) + if a.Loaded() then [p.State()] else []
    ensures p !in old(t.loaded) && old(t.Consistent(t.Loaded())) ==> t.Consistent(t.Loaded())
  {
    a := NoRoom;
    if z.Some? {
      a := PlaceWithFallback(t, p, Zone(z.value, zl), g);
    }
  }
}
