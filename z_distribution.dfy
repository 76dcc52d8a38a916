/** `ZDistributionLoading`: the trailer's height is cut into layers; each
    layer takes the pallets whose height fits it (the bottom layer heaviest
    first, the others lightest first and under a weight threshold that falls
    layer by layer) and places each as close to the floor's centre as the
    layer allows. */
module ZDistribution {
  import opened Wrappers
  import opened Cargo
  import opened Container
  import opened Base
  import opened Scans
  import opened Placement

  const Name := "Z Distribution Loading"

  /** The "Z_Distribution" entry of the defaults table. */
  const Defaults: Config := map["zones" := IntValue(2), "balancing_factor" := RealValue(0.7)]

  /** `config.get("zones", 2)`, the number of layers. */
  function Layers(cfg: Config): Result<int, string> { CountOf(cfg, "zones", 2) }

  /** `config.get("balancing_factor", 0.7)`. */
  function BalancingFactor(cfg: Config): Result<real, string> { FactorOf(cfg, "balancing_factor", 0.7) }

  // ---------------------------------------------------------------------
  // Grouping by height

  /** The pallets of `ps` whose (unrotated) height is `h`, in list order. */
  function WithHeight(ps: seq<Pallet>, h: int): (r: seq<Pallet>)
    ensures forall p :: p in r ==> p in ps && p.spec.height == h
    ensures forall p :: p in ps && p.spec.height == h ==> p in r
  {
    if ps == [] then []
    else
      var n := |ps| - 1;
      assert ps == ps[..n] + [ps[n]];
      WithHeight(ps[..n], h) + if ps[n].spec.height == h then [ps[n]] else []
  }

  /** The heights of `ps` in order of first appearance, each once. */
  function Heights(ps: seq<Pallet>): (hs: seq<int>)
    ensures forall h :: h in hs <==> WithHeight(ps, h) != []
    ensures forall a, b :: 0 <= a < b < |hs| ==> hs[a] != hs[b]
  {
    if ps == [] then []
    else
      var n := |ps| - 1;
      var hs := Heights(ps[..n]);
      if ps[n].spec.height in hs then hs else hs + [ps[n].spec.height]
  }

  /** A dictionary from heights to lists of pallets: its keys in insertion
      order, and the list under each key. */
  datatype Grouping = Grouping(heights: seq<int>, members: map<int, seq<Pallet>>)
  {
    ghost predicate WellFormed()
    {
      forall h :: h in heights <==> h in members
    }
  }

  /** What `_group_pallets_by_height` builds: one key per height, in order of
      first appearance, holding that height's pallets in list order. */
  function Grouped(ps: seq<Pallet>): Grouping
  {
    Grouping(Heights(ps), map h | h in Heights(ps) :: WithHeight(ps, h))
  }

  /** Every pallet sits in the group of its own height and in no other, and
      no group is empty. */
  lemma GroupedPartition(ps: seq<Pallet>)
    ensures Grouped(ps).WellFormed()
    ensures forall p :: p in ps ==> p.spec.height in Grouped(ps).members && p in Grouped(ps).members[p.spec.height]
    ensures forall h, p :: h in Grouped(ps).members && p in Grouped(ps).members[h] ==> p in ps && p.spec.height == h
    ensures forall h :: h in Grouped(ps).members ==> Grouped(ps).members[h] != []
  {
    forall p | p in ps
      ensures p.spec.height in Heights(ps)
    {
      assert p in WithHeight(ps, p.spec.height);
    }
  }

  /** The dictionary built from the pallets `qs`: the heights in order of
      first appearance, each keyed to its pallets. */
  ghost predicate GroupedAs(qs: seq<Pallet>, heights: seq<int>, members: map<int, seq<Pallet>>)
  {
    && heights == Heights(qs)
    && (forall h :: h in members <==> h in heights)
    && (forall h :: h in members ==> members[h] == WithHeight(qs, h))
  }

  /** One more pallet: its height becomes a key if it is new, and the pallet
      joins the list under its height. */
  function AddPallet(g: Grouping, p: Pallet): Grouping
  {
    var h := p.spec.height;
    var m := if h in g.members then g.members else g.members[h := []];
    Grouping(if h in g.members then g.heights else g.heights + [h], m[h := m[h] + [p]])
  }

  /** The dictionary the loop of `_group_pallets_by_height` has built after
      the pallets `qs`. */
  function Built(qs: seq<Pallet>): Grouping
  {
    if qs == [] then Grouping([], map[]) else AddPallet(Built(qs[..|qs| - 1]), qs[|qs| - 1])
  }

  /** Adding a pallet keeps the dictionary the one of the longer list. */
  lemma GroupStep(qs: seq<Pallet>, p: Pallet, g: Grouping)
    requires GroupedAs(qs, g.heights, g.members)
    ensures GroupedAs(qs + [p], AddPallet(g, p).heights, AddPallet(g, p).members)
  {
    SnocStep(qs, p);
    ListsStep(qs, p, g);
  }

  /** Each list of the larger dictionary holds the pallets of its height. */
  lemma ListsStep(qs: seq<Pallet>, p: Pallet, g: Grouping)
    requires GroupedAs(qs, g.heights, g.members)
    ensures var members' := AddPallet(g, p).members;
      forall k :: k in members' ==> members'[k] == WithHeight(qs + [p], k)
  {
    var h, members, members' := p.spec.height, g.members, AddPallet(g, p).members;
    assert members' == members[h := (if h in members then members[h] else []) + [p]];
    SnocStep(qs, p);
    forall k | k in members'
      ensures members'[k] == WithHeight(qs + [p], k)
    {
      if k != h {
        assert members'[k] == members[k] == WithHeight(qs, k);
      } else if h in members {
        assert members'[k] == WithHeight(qs, h) + [p];
      } else {
        assert WithHeight(qs, h) == [];
      }
    }
  }

  /** The loop builds the grouping of the pallets it has seen. */
  lemma {:induction false} BuiltGrouped(qs: seq<Pallet>)
    ensures GroupedAs(qs, Built(qs).heights, Built(qs).members)
  {
    if qs != [] {
      var n := |qs| - 1;
      var init := qs[..n];
      assert init + [qs[n]] == qs;
      assert Built(qs) == AddPallet(Built(init), qs[n]);
      BuiltGrouped(init);
      GroupStep(init, qs[n], Built(init));
    }
  }

  /** How the keys and the lists grow by one pallet. */
  lemma SnocStep(qs: seq<Pallet>, p: Pallet)
    ensures var h := p.spec.height;
      Heights(qs + [p]) == if h in Heights(qs) then Heights(qs) else Heights(qs) + [h]
    ensures forall k :: WithHeight(qs + [p], k) == WithHeight(qs, k) + if p.spec.height == k then [p] else []
  {
    assert (qs + [p])[..|qs|] == qs;
  }

  /** `_group_pallets_by_height`. */
  method GroupByHeight(ps: seq<Pallet>) returns (g: Grouping)
    ensures g == Grouped(ps)
  {
    var heights: seq<int> := [];
    var members: map<int, seq<Pallet>> := map[];
    for i := 0 to |ps|
      invariant Grouping(heights, members) == Built(ps[..i])
    {
      var p := ps[i];
      var h := p.spec.height;
      assert ps[..i + 1][..i] == ps[..i];
      if h !in members {
        heights := heights + [h];
        members := members[h := []];
      }
      members := members[h := members[h] + [p]];
    }
    assert ps[..|ps|] == ps;
    BuiltGrouped(ps);
    GroupedWhole(ps, heights, members);
    g := Grouping(heights, members);
  }

  /** Once every pallet is seen, the grouping is the whole list's. */
  lemma GroupedWhole(ps: seq<Pallet>, heights: seq<int>, members: map<int, seq<Pallet>>)
    requires GroupedAs(ps, heights, members)
    ensures Grouping(heights, members) == Grouped(ps)
  {
    var m := Grouped(ps).members;
    assert forall h :: h in members <==> h in m;
    assert forall h :: h in members ==> members[h] == m[h];
    assert members == m;
  }

  // ---------------------------------------------------------------------
  // Selecting the pallets of a layer

  /** The groups of height at most `lh` put end to end, in key order. */
  function Gather(heights: seq<int>, members: map<int, seq<Pallet>>, lh: int): (r: seq<Pallet>)
    requires forall h :: h in heights ==> h in members
    ensures forall p :: p in r ==> exists h :: h in heights && h <= lh && p in members[h]
    ensures forall h, p :: h in heights && h <= lh && p in members[h] ==> p in r
  {
    if heights == [] then []
    else
      var n := |heights| - 1;
      var h := heights[n];
      assert heights == heights[..n] + [h];
      Gather(heights[..n], members, lh) + if h <= lh then members[h] else []
  }

  /** Gathering the grouping of `ps` keeps exactly the pallets that fit under `lh`. */
  lemma GatherGrouped(ps: seq<Pallet>, lh: int)
    ensures Grouped(ps).WellFormed()
    ensures forall p :: p in Gather(Grouped(ps).heights, Grouped(ps).members, lh) <==> p in ps && p.spec.height <= lh
  {
    GroupedPartition(ps);
    var g := Grouped(ps);
    forall p | p in ps && p.spec.height <= lh
      ensures p in Gather(g.heights, g.members, lh)
    {
      assert p.spec.height in g.heights && p in g.members[p.spec.height];
    }
  }

  /** The list comprehension of `_select_pallets_for_layer`: the pallets no
      taller than `lh` and, when there is a limit, no heavier than it. */
  function Keep(ps: seq<Pallet>, lh: int, limit: Option<real>): (r: seq<Pallet>)
    ensures forall p :: p in r ==> p in ps && Admitted(p, lh, limit)
    ensures forall p :: p in ps && Admitted(p, lh, limit) ==> p in r
  {
    if ps == [] then []
    else
      var n := |ps| - 1;
      assert ps == ps[..n] + [ps[n]];
      Keep(ps[..n], lh, limit) + if Admitted(ps[n], lh, limit) then [ps[n]] else []
  }

  predicate Admitted(p: Pallet, lh: int, limit: Option<real>)
  {
    p.spec.height <= lh && (limit.Some? ==> p.spec.TotalWeight() as real <= limit.value)
  }

  /** Weights descending (`reverse`) or ascending along the list. */
  ghost predicate WeightOrdered(ps: seq<Pallet>, reverse: bool)
  {
    forall a, b :: 0 <= a < b < |ps| ==> Ordered(ps[a].spec.TotalWeight(), ps[b].spec.TotalWeight(), reverse)
  }

  /** Keeping some of a list keeps its weight order. */
  lemma {:induction false} KeepOrdered(ps: seq<Pallet>, lh: int, limit: Option<real>, reverse: bool)
    requires WeightOrdered(ps, reverse)
    ensures WeightOrdered(Keep(ps, lh, limit), reverse)
  {
    if ps != [] {
      var n := |ps| - 1;
      assert WeightOrdered(ps[..n], reverse);
      KeepOrdered(ps[..n], lh, limit, reverse);
      var front := Keep(ps[..n], lh, limit);
      var r := Keep(ps, lh, limit);
      assert r == front + if Admitted(ps[n], lh, limit) then [ps[n]] else [];
      forall a, b | 0 <= a < b < |r|
        ensures Ordered(r[a].spec.TotalWeight(), r[b].spec.TotalWeight(), reverse)
      {
        if b == |front| {
          assert r[a] == front[a] && r[b] == ps[n];
          assert front[a] in front;
          var j :| 0 <= j < n && ps[..n][j] == front[a];
          assert ps[j] == front[a];
        } else {
          assert r[a] == front[a] && r[b] == front[b];
        }
      }
    }
  }

  /** `max_load * balancing_factor * (1 - layer_idx / total_layers)`. */
  function Threshold(maxLoad: int, bf: real, i: nat, n: nat): real
    requires n > 0
  {
    maxLoad as real * bf * (1.0 - i as real / n as real)
  }

  /** The higher the layer, the lower the threshold. */
  lemma ThresholdFalls(maxLoad: int, bf: real, i: nat, j: nat, n: nat)
    requires n > 0 && i <= j && maxLoad >= 0 && bf >= 0.0
    ensures Threshold(maxLoad, bf, j, n) <= Threshold(maxLoad, bf, i, n)
  {
    var c := maxLoad as real * bf;
    assert c >= 0.0 by { NonNegativeProduct(maxLoad as real, bf); }
    var fi, fj := 1.0 - i as real / n as real, 1.0 - j as real / n as real;
    assert i as real / n as real <= j as real / n as real by { DivideMonotone(i as real, j as real, n as real); }
    assert c * fi - c * fj == c * (fi - fj);
    NonNegativeProduct(c, fi - fj);
  }

  lemma NonNegativeProduct(a: real, b: real)
    requires a >= 0.0 && b >= 0.0
    ensures a * b >= 0.0
  {
  }

  lemma DivideMonotone(a: real, b: real, d: real)
    requires a <= b && d > 0.0
    ensures a / d <= b / d
  {
    assert b / d - a / d == (b - a) / d;
  }

  /** What `_select_pallets_for_layer` returns for layer `i` of `n`: the
      bottom layer takes every pallet that fits, heaviest first; a higher one
      takes those that fit and are under the threshold, lightest first; a
      factor that is not a number fails there. */
  function Selection(g: Grouping, i: nat, n: nat, lh: int, maxLoad: int, bf: Result<real, string>): Result<seq<Pallet>, string>
    requires n > 0 && g.WellFormed()
  {
    var gathered := Gather(g.heights, g.members, lh);
    if i == 0 then Ok(Keep(SortByWeight(gathered, true), lh, None))
    else if bf.Err? then Err(bf.error)
    else Ok(Keep(SortByWeight(gathered, false), lh, Some(Threshold(maxLoad, bf.value, i, n))))
  }

  /** Sorting what was gathered from the grouping of `ps` and keeping the
      admitted pallets yields exactly the admitted pallets of `ps`, in weight order. */
  lemma KeptFromGrouping(ps: seq<Pallet>, lh: int, limit: Option<real>, reverse: bool)
    ensures Grouped(ps).WellFormed()
    ensures var r := Keep(SortByWeight(Gather(Grouped(ps).heights, Grouped(ps).members, lh), reverse), lh, limit);
      && (forall p :: p in r ==> p in ps && Admitted(p, lh, limit))
      && (forall p :: p in ps && Admitted(p, lh, limit) ==> p in r)
      && (forall a, b :: 0 <= a < b < |r| ==> Ordered(r[a].spec.TotalWeight(), r[b].spec.TotalWeight(), reverse))
  {
    GatherGrouped(ps, lh);
    var g := Grouped(ps);
    var gathered := Gather(g.heights, g.members, lh);
    var sorted := SortByWeight(gathered, reverse);
    Rearranged(gathered, sorted, []);
    assert WeightOrdered(sorted, reverse);
    KeepOrdered(sorted, lh, limit, reverse);
  }

  /** A layer's selection from the grouping of `ps`: exactly the pallets of
      `ps` admitted to it, heaviest first at the bottom and lightest first
      above; it fails only above the bottom and only for a factor that is not
      a number. */
  lemma SelectionMeaning(ps: seq<Pallet>, i: nat, n: nat, lh: int, maxLoad: int, bf: Result<real, string>)
    requires n > 0
    ensures Grouped(ps).WellFormed()
    ensures Selection(Grouped(ps), i, n, lh, maxLoad, bf).Err? <==> i > 0 && bf.Err?
    ensures var r := Selection(Grouped(ps), i, n, lh, maxLoad, bf);
      r.Ok? ==>
        && (forall p :: p in r.value ==> p in ps && Admitted(p, lh, Limit(maxLoad, bf, i, n)))
        && (forall p :: p in ps && Admitted(p, lh, Limit(maxLoad, bf, i, n)) ==> p in r.value)
        && (forall a, b :: 0 <= a < b < |r.value| ==> Ordered(r.value[a].spec.TotalWeight(), r.value[b].spec.TotalWeight(), i == 0))
  {
    KeptFromGrouping(ps, lh, Limit(maxLoad, bf, i, n), i == 0);
  }

  /** The weight limit of layer `i`: none for the bottom layer, the threshold above it. */
  function Limit(maxLoad: int, bf: Result<real, string>, i: nat, n: nat): Option<real>
    requires n > 0
  {
    if i == 0 || bf.Err? then None else Some(Threshold(maxLoad, bf.value, i, n))
  }

  /** Above the bottom, a higher layer of the same height admits no pallet a
      lower one refuses. */
  lemma HigherLayersLighter(g: Grouping, i: nat, j: nat, n: nat, lh: int, maxLoad: int, bf: real)
    requires n > 0 && g.WellFormed() && 0 < i <= j && maxLoad >= 0 && bf >= 0.0
    ensures forall p :: p in Selection(g, j, n, lh, maxLoad, Ok(bf)).value ==> p in Selection(g, i, n, lh, maxLoad, Ok(bf)).value
  {
    ThresholdFalls(maxLoad, bf, i, j, n);
    var gathered := Gather(g.heights, g.members, lh);
    Rearranged(gathered, SortByWeight(gathered, false), []);
  }

  /** `_select_pallets_for_layer`. */
  method SelectForLayer(g: Grouping, i: nat, n: nat, lh: int, maxLoad: int, bf: Result<real, string>)
      returns (r: Result<seq<Pallet>, string>)
    requires n > 0 && g.WellFormed()
    ensures r == Selection(g, i, n, lh, maxLoad, bf)
  {
    var list: seq<Pallet> := [];
    for k := 0 to |g.heights|
      invariant list == Gather(g.heights[..k], g.members, lh)
    {
      var h := g.heights[k];
      assert g.heights[..k + 1][..k] == g.heights[..k] && g.heights[..k + 1][k] == h;
      if h <= lh {
        list := list + g.members[h];
      }
    }
    assert g.heights[..|g.heights|] == g.heights;
    if i == 0 {
      r := Ok(Keep(SortByWeight(list, true), lh, None));
    } else if bf.Err? {
      r := Err(bf.error);
    } else {
      r := Ok(Keep(SortByWeight(list, false), lh, Some(Threshold(maxLoad, bf.value, i, n))));
    }
  }

  // ---------------------------------------------------------------------
  // The loading loop

  /** Layer `k` tried `sel`, its selection, with outcomes `tried`, and accepted `got`. */
  ghost predicate Stratum(g: Grouping, n: nat, lh: int, maxLoad: int, bf: Result<real, string>, k: nat,
                          sel: seq<Pallet>, got: seq<Pallet>, tried: seq<Attempt>)
    requires n > 0 && g.WellFormed()
  {
    Selection(g, k, n, lh, maxLoad, bf) == Ok(sel) && |tried| == |sel| && got == Accepted(sel, tried)
  }

  /** The loop's record after `i` layers: layer `k` tried `layers[k]` and
      accepted `outs[k]`; `out` is all of them in layer order. */
  ghost predicate Strata(g: Grouping, n: nat, lh: int, maxLoad: int, bf: Result<real, string>, i: nat,
                         out: seq<Pallet>, layers: seq<seq<Pallet>>, outs: seq<seq<Pallet>>, attempts: seq<seq<Attempt>>)
    requires n > 0 && g.WellFormed()
  {
    && i <= n && |layers| == i && |outs| == i && |attempts| == i
    && (forall k :: 0 <= k < i ==> Stratum(g, n, lh, maxLoad, bf, k, layers[k], outs[k], attempts[k]))
    && out == Concat(outs)
  }

  /** One more layer extends the record of selections. */
  lemma StrataStep(g: Grouping, n: nat, lh: int, maxLoad: int, bf: Result<real, string>, i: nat, out0: seq<Pallet>,
                   layers0: seq<seq<Pallet>>, outs0: seq<seq<Pallet>>, attempts0: seq<seq<Attempt>>,
                   sel: seq<Pallet>, got: seq<Pallet>, tried: seq<Attempt>)
    requires n > 0 && g.WellFormed() && i < n && Strata(g, n, lh, maxLoad, bf, i, out0, layers0, outs0, attempts0)
    requires Stratum(g, n, lh, maxLoad, bf, i, sel, got, tried)
    ensures Strata(g, n, lh, maxLoad, bf, i + 1, out0 + got, layers0 + [sel], outs0 + [got], attempts0 + [tried])
  {
    ConcatSnoc(outs0, got);
    StratumSnoc(g, n, lh, maxLoad, bf, i, layers0, outs0, attempts0, sel, got, tried);
  }

  /** The earlier layers keep their records in the longer sequences. */
  lemma StratumSnoc(g: Grouping, n: nat, lh: int, maxLoad: int, bf: Result<real, string>, i: nat,
                    layers0: seq<seq<Pallet>>, outs0: seq<seq<Pallet>>, attempts0: seq<seq<Attempt>>,
                    sel: seq<Pallet>, got: seq<Pallet>, tried: seq<Attempt>)
    requires n > 0 && g.WellFormed() && |layers0| == i && |outs0| == i && |attempts0| == i
    requires forall k :: 0 <= k < i ==> Stratum(g, n, lh, maxLoad, bf, k, layers0[k], outs0[k], attempts0[k])
    requires Stratum(g, n, lh, maxLoad, bf, i, sel, got, tried)
    ensures var layers, outs, attempts := layers0 + [sel], outs0 + [got], attempts0 + [tried];
      forall k :: 0 <= k < i + 1 ==> Stratum(g, n, lh, maxLoad, bf, k, layers[k], outs[k], attempts[k])
  {
    var layers, outs, attempts := layers0 + [sel], outs0 + [got], attempts0 + [tried];
    forall k | 0 <= k < i + 1
      ensures Stratum(g, n, lh, maxLoad, bf, k, layers[k], outs[k], attempts[k])
    {
      if k < i {
        assert layers[k] == layers0[k] && outs[k] == outs0[k] && attempts[k] == attempts0[k];
      }
    }
  }

  /** None of the `layers` selected `p`. */
  ghost predicate Unselected(layers: seq<seq<Pallet>>, p: Pallet)
  {
    forall j :: 0 <= j < |layers| ==> p !in layers[j]
  }

  /** A pallet is unselected by one more layer exactly when that layer's selection leaves it out too. */
  lemma UnselectedSnoc(layers: seq<seq<Pallet>>, sel: seq<Pallet>, p: Pallet)
    ensures Unselected(layers + [sel], p) <==> Unselected(layers, p) && p !in sel
  {
    var layers' := layers + [sel];
    assert layers'[|layers|] == sel;
    assert forall j :: 0 <= j < |layers| ==> layers'[j] == layers[j];
  }

  /** Layer `k` at height `k * lh` began with the list `l`, the boxes `b` and
      the grid copy `pic`, started its selection `sel` from the states `s`,
      made the attempts `tried`, and left the list `l'`, the boxes `b'` and the
      grid copy `pic'`. Without repeats in the selection, the grid gained
      the boxes the layer placed; if moreover none of its pallets was on the
      trailer, the layer was the greedy loop with the layer finder and the
      boxes grew by what it placed. */
  ghost predicate Storey(t: Trailer, k: nat, lh: int, sel: seq<Pallet>, got: seq<Pallet>, tried: seq<Attempt>, s: seq<PalletState>,
                         l: seq<Pallet>, l': seq<Pallet>, b: seq<PalletState>, b': seq<PalletState>, pic: Picture, pic': Picture)
  {
    && |s| == |sel| == |tried|
    && l' == l + got
    && (Distinct(sel) ==> pic' == pic.Then(Placed(s, tried, |sel|)))
    && (Distinct(sel) && Disjoint(sel, l) ==> Greedy(t, pic, b, s, Layer(k * lh, lh), tried) && b' == b + Placed(s, tried, |sel|))
  }

  /** The record of the trailer through the layers: layer `k` is a `Storey`
      from `lists[k]`, `boxes[k]` and `pics[k]` to `lists[k + 1]`,
      `boxes[k + 1]` and `pics[k + 1]`. */
  ghost predicate Stacked(t: Trailer, lh: int, layers: seq<seq<Pallet>>, outs: seq<seq<Pallet>>, attempts: seq<seq<Attempt>>,
                          starts: seq<seq<PalletState>>, lists: seq<seq<Pallet>>, boxes: seq<seq<PalletState>>, pics: seq<Picture>)
  {
    && |starts| == |outs| == |attempts| == |layers|
    && |lists| == |boxes| == |pics| == |layers| + 1
    && forall k :: 0 <= k < |layers| ==>
         Storey(t, k, lh, layers[k], outs[k], attempts[k], starts[k], lists[k], lists[k + 1], boxes[k], boxes[k + 1], pics[k], pics[k + 1])
  }

  /** One more layer extends the record. */
  lemma StackedSnoc(t: Trailer, lh: int, layers: seq<seq<Pallet>>, outs: seq<seq<Pallet>>, attempts: seq<seq<Attempt>>,
                    starts: seq<seq<PalletState>>, lists: seq<seq<Pallet>>, boxes: seq<seq<PalletState>>, pics: seq<Picture>,
                    sel: seq<Pallet>, got: seq<Pallet>, tried: seq<Attempt>, s: seq<PalletState>, l': seq<Pallet>, b': seq<PalletState>, pic': Picture)
    requires Stacked(t, lh, layers, outs, attempts, starts, lists, boxes, pics)
    requires var i := |layers|; Storey(t, i, lh, sel, got, tried, s, lists[i], l', boxes[i], b', pics[i], pic')
    ensures Stacked(t, lh, layers + [sel], outs + [got], attempts + [tried], starts + [s], lists + [l'], boxes + [b'], pics + [pic'])
  {
    var i := |layers|;
    var layers', outs', attempts', starts' := layers + [sel], outs + [got], attempts + [tried], starts + [s];
    var lists', boxes', pics' := lists + [l'], boxes + [b'], pics + [pic'];
    forall k | 0 <= k < |layers'|
      ensures Storey(t, k, lh, layers'[k], outs'[k], attempts'[k], starts'[k], lists'[k], lists'[k + 1], boxes'[k], boxes'[k + 1], pics'[k], pics'[k + 1])
    {
      assert lists'[k] == lists[k] && boxes'[k] == boxes[k] && pics'[k] == pics[k];
      if k < i {
        assert layers'[k] == layers[k] && outs'[k] == outs[k] && attempts'[k] == attempts[k] && starts'[k] == starts[k];
        assert lists'[k + 1] == lists[k + 1] && boxes'[k + 1] == boxes[k + 1] && pics'[k + 1] == pics[k + 1];
      }
    }
  }

  /** Layer `k` started each pallet no lower layer had selected from the state `m0` records for it. */
  ghost predicate Origins(m0: map<Pallet, PalletState>, layers: seq<seq<Pallet>>, starts: seq<seq<PalletState>>)
  {
    && |starts| == |layers|
    && forall k :: 0 <= k < |layers| ==>
         && |starts[k]| == |layers[k]|
         && forall m :: 0 <= m < |layers[k]| && Unselected(layers[..k], layers[k][m]) ==>
              layers[k][m] in m0 && starts[k][m] == m0[layers[k][m]]
  }

  /** One more layer whose fresh pallets start from the recorded states extends `Origins`. */
  lemma OriginsSnoc(m0: map<Pallet, PalletState>, layers: seq<seq<Pallet>>, starts: seq<seq<PalletState>>, sel: seq<Pallet>, s: seq<PalletState>)
    requires Origins(m0, layers, starts) && |s| == |sel|
    requires forall m :: 0 <= m < |sel| && Unselected(layers, sel[m]) ==> sel[m] in m0 && s[m] == m0[sel[m]]
    ensures Origins(m0, layers + [sel], starts + [s])
  {
    var layers', starts' := layers + [sel], starts + [s];
    forall k | 0 <= k < |layers'|
      ensures |starts'[k]| == |layers'[k]|
      ensures forall m :: 0 <= m < |layers'[k]| && Unselected(layers'[..k], layers'[k][m]) ==>
                layers'[k][m] in m0 && starts'[k][m] == m0[layers'[k][m]]
    {
      assert layers'[..k] == layers[..k];
      if k < |layers| {
        assert layers'[k] == layers[k] && starts'[k] == starts[k];
      } else {
        assert layers[..k] == layers;
      }
    }
  }

  /** The pallets of the list that no layer has selected are in the states `m0` records. */
  ghost predicate Still(order: seq<Pallet>, layers: seq<seq<Pallet>>, m0: map<Pallet, PalletState>)
    reads order
  {
    forall p :: p in order && Unselected(layers, p) ==> p in m0 && p.State() == m0[p]
  }

  /** What the layer loop knows after `i` layers. The loop began with the
      list `l0`, the boxes `b0` and the grid copy `pic0`, and `m0` records the
      pallet states of that moment. */
  ghost predicate Layering(t: Trailer, order: seq<Pallet>, g: Grouping, n: nat, lh: int, bf: Result<real, string>, i: nat,
                           l0: seq<Pallet>, b0: seq<PalletState>, pic0: Picture, m0: map<Pallet, PalletState>,
                           out: seq<Pallet>, layers: seq<seq<Pallet>>, outs: seq<seq<Pallet>>, attempts: seq<seq<Attempt>>,
                           starts: seq<seq<PalletState>>, lists: seq<seq<Pallet>>, boxes: seq<seq<PalletState>>, pics: seq<Picture>)
    reads t`loaded, t.loaded, t`spaceMap, t.spaceMap, order
    requires n > 0 && g.WellFormed()
  {
    && t.loaded == l0 + out
    && Strata(g, n, lh, t.maxLoad, bf, i, out, layers, outs, attempts)
    && (i > 1 ==> bf.Ok?)
    && Stacked(t, lh, layers, outs, attempts, starts, lists, boxes, pics)
    && lists[0] == l0 && boxes[0] == b0 && pics[0] == pic0
    && lists[i] == t.loaded && boxes[i] == t.Loaded() && t.Shows(pics[i])
    && Origins(m0, layers, starts) && Still(order, layers, m0)
  }

  /** `load_pallets`. A layer count that is not a whole number fails before
      anything is loaded, and a count below one loads nothing. Otherwise the
      layers are loaded bottom up, and the run fails at the second layer,
      after the first is loaded, when the factor is not a number. The layers
      form a `Stacked` record that begins with the trailer at the call; a
      pallet no lower layer selected starts from its state at the call, which
      `m0` records. */
  method LoadPallets(t: Trailer, ps: seq<Pallet>, cfg: Config)
      returns (r: Result<seq<Pallet>, string>, ghost order: seq<Pallet>, ghost layers: seq<seq<Pallet>>,
               ghost outs: seq<seq<Pallet>>, ghost attempts: seq<seq<Attempt>>, ghost starts: seq<seq<PalletState>>,
               ghost lists: seq<seq<Pallet>>, ghost boxes: seq<seq<PalletState>>, ghost pics: seq<Picture>,
               ghost m0: map<Pallet, PalletState>)
    requires t.Valid()
    modifies ps, t`loaded, t`distribution, t.spaceMap
    ensures t.Valid()
    ensures order == SortByVolume(ps, true)
    ensures t.loaded == old(t.loaded) + Concat(outs)
    ensures Layers(cfg).Err? ==> r.Err? && outs == []
    ensures Layers(cfg).Ok? && Layers(cfg).value <= 0 ==> r == Ok([]) && outs == []
    ensures Layers(cfg).Ok? && Layers(cfg).value > 0 ==>
              var n := Layers(cfg).value;
              && Grouped(order).WellFormed()
              && Strata(Grouped(order), n, t.height / n, t.maxLoad, BalancingFactor(cfg), |outs|, Concat(outs), layers, outs, attempts)
              && (r.Ok? ==> |outs| == n && r.value == Concat(outs))
              && (r.Err? ==> |outs| == 1 && n > 1 && BalancingFactor(cfg).Err?)
              && Stacked(t, t.height / n, layers, outs, attempts, starts, lists, boxes, pics)
    ensures Layers(cfg).Ok? && Layers(cfg).value > 1 && BalancingFactor(cfg).Err? ==> r.Err?
    ensures |lists| == |boxes| == |pics| == |outs| + 1
    ensures lists[0] == old(t.loaded) && boxes[0] == old(t.Loaded()) && pics[0] == old(t.Snapshot())
    ensures lists[|outs|] == t.loaded && boxes[|outs|] == t.Loaded() && t.Shows(pics[|outs|])
    ensures forall p :: p in ps ==> p in m0 && m0[p] == old(p.State())
    ensures Origins(m0, layers, starts)
  {
    var sorted := SortByVolume(ps, true);
    order := sorted;
    Rearranged(ps, sorted, []);
    r, layers, outs, attempts, starts, lists, boxes, pics, m0 := Distribute(t, sorted, Layers(cfg), BalancingFactor(cfg));
  }

  /** What `load_pallets` does with the layer count once the pallets are sorted. */
  method Distribute(t: Trailer, order: seq<Pallet>, count: Result<int, string>, bf: Result<real, string>)
      returns (r: Result<seq<Pallet>, string>, ghost layers: seq<seq<Pallet>>,
               ghost outs: seq<seq<Pallet>>, ghost attempts: seq<seq<Attempt>>, ghost starts: seq<seq<PalletState>>,
               ghost lists: seq<seq<Pallet>>, ghost boxes: seq<seq<PalletState>>, ghost pics: seq<Picture>,
               ghost m0: map<Pallet, PalletState>)
    requires t.Valid()
    modifies order, t`loaded, t`distribution, t.spaceMap
    ensures t.Valid()
    ensures t.loaded == old(t.loaded) + Concat(outs)
    ensures count.Err? ==> r.Err? && outs == []
    ensures count.Ok? && count.value <= 0 ==> r == Ok([]) && outs == []
    ensures count.Ok? && count.value > 0 ==>
              var n := count.value;
              && Grouped(order).WellFormed()
              && Strata(Grouped(order), n, t.height / n, t.maxLoad, bf, |outs|, Concat(outs), layers, outs, attempts)
              && (r.Ok? ==> |outs| == n && r.value == Concat(outs))
              && (r.Err? ==> |outs| == 1 && n > 1 && bf.Err?)
              && Stacked(t, t.height / n, layers, outs, attempts, starts, lists, boxes, pics)
    ensures |lists| == |boxes| == |pics| == |outs| + 1
    ensures lists[0] == old(t.loaded) && boxes[0] == old(t.Loaded()) && pics[0] == old(t.Snapshot())
    ensures lists[|outs|] == t.loaded && boxes[|outs|] == t.Loaded() && t.Shows(pics[|outs|])
    ensures forall p :: p in order ==> p in m0 && m0[p] == old(p.State())
    ensures Origins(m0, layers, starts)
  {
    layers, outs, attempts, starts := [], [], [], [];
    lists, boxes, pics := [t.loaded], [t.Loaded()], [t.Snapshot()];
    m0 := map p | p in order :: p.State();
    if count.Err? {
      return Err(count.error), layers, outs, attempts, starts, lists, boxes, pics, m0;
    }
    if count.value <= 0 {
      return Ok([]), layers, outs, attempts, starts, lists, boxes, pics, m0;
    }
    var g := GroupByHeight(order);
    assert g.WellFormed();
    r, layers, outs, attempts, starts, lists, boxes, pics, m0 := LoadLayers(t, order, g, count.value, bf);
  }

  /** The loop over the `n` layers. */
  method LoadLayers(t: Trailer, order: seq<Pallet>, g: Grouping, n: nat, bf: Result<real, string>)
      returns (r: Result<seq<Pallet>, string>, ghost layers: seq<seq<Pallet>>,
               ghost outs: seq<seq<Pallet>>, ghost attempts: seq<seq<Attempt>>, ghost starts: seq<seq<PalletState>>,
               ghost lists: seq<seq<Pallet>>, ghost boxes: seq<seq<PalletState>>, ghost pics: seq<Picture>,
               ghost m0: map<Pallet, PalletState>)
    requires t.Valid() && n > 0 && g == Grouped(order) && g.WellFormed()
    modifies order, t`loaded, t`distribution, t.spaceMap
    ensures t.Valid()
    ensures forall p :: p in order ==> p in m0 && m0[p] == old(p.State())
    ensures Layering(t, order, g, n, t.height / n, bf, |outs|, old(t.loaded), old(t.Loaded()), old(t.Snapshot()), m0,
                     Concat(outs), layers, outs, attempts, starts, lists, boxes, pics)
    ensures r.Ok? ==> |outs| == n && r.value == Concat(outs)
    ensures r.Err? ==> |outs| == 1 && n > 1 && bf.Err?
  {
    ghost var l0, b0, pic0 := t.loaded, t.Loaded(), t.Snapshot();
    m0 := map p | p in order :: p.State();
    var lh := t.height / n;
    var out: seq<Pallet> := [];
    layers, outs, attempts, starts := [], [], [], [];
    lists, boxes, pics := [l0], [b0], [pic0];
    for i := 0 to n
      invariant t.Valid()
      invariant forall p :: p in order ==> p in m0 && m0[p] == old(p.State())
      invariant Layering(t, order, g, n, lh, bf, i, l0, b0, pic0, m0, out, layers, outs, attempts, starts, lists, boxes, pics)
    {
      var selected, got;
      selected, got, layers, outs, attempts, starts, lists, boxes, pics :=
        NextLayer(t, order, g, n, lh, bf, i, l0, b0, pic0, m0, out, layers, outs, attempts, starts, lists, boxes, pics);
      if selected.Err? {
        assert |outs| == 1 && out == Concat(outs);
        r := Err(selected.error);
        return;
      }
      out := out + got;
    }
    assert |outs| == n && out == Concat(outs);
    r := Ok(out);
  }

  /** Layer `i` of the loop: its selection and, when there is one, the layer
      loaded from it. Only the second layer can fail, when the factor is not a
      number, and then nothing changes. */
  method NextLayer(t: Trailer, order: seq<Pallet>, g: Grouping, n: nat, lh: int, bf: Result<real, string>, i: nat,
                   ghost l0: seq<Pallet>, ghost b0: seq<PalletState>, ghost pic0: Picture,
                   ghost m0: map<Pallet, PalletState>, ghost out0: seq<Pallet>,
                   ghost layers0: seq<seq<Pallet>>, ghost outs0: seq<seq<Pallet>>, ghost attempts0: seq<seq<Attempt>>,
                   ghost starts0: seq<seq<PalletState>>, ghost lists0: seq<seq<Pallet>>, ghost boxes0: seq<seq<PalletState>>,
                   ghost pics0: seq<Picture>)
      returns (selected: Result<seq<Pallet>, string>, got: seq<Pallet>, ghost layers: seq<seq<Pallet>>,
               ghost outs: seq<seq<Pallet>>, ghost attempts: seq<seq<Attempt>>, ghost starts: seq<seq<PalletState>>,
               ghost lists: seq<seq<Pallet>>, ghost boxes: seq<seq<PalletState>>, ghost pics: seq<Picture>)
    requires t.Valid() && n > 0 && g == Grouped(order) && g.WellFormed() && i < n
    requires Layering(t, order, g, n, lh, bf, i, l0, b0, pic0, m0, out0, layers0, outs0, attempts0, starts0, lists0, boxes0, pics0)
    modifies order, t`loaded, t`distribution, t.spaceMap
    ensures t.Valid()
    ensures selected.Err? ==> i == 1
    ensures selected.Err? ==> bf.Err? && outs == outs0
    ensures selected.Err? ==>
              Layering(t, order, g, n, lh, bf, i, l0, b0, pic0, m0, out0, layers, outs, attempts, starts, lists, boxes, pics)
    ensures selected.Ok? ==>
              Layering(t, order, g, n, lh, bf, i + 1, l0, b0, pic0, m0, out0 + got, layers, outs, attempts, starts, lists, boxes, pics)
  {
    layers, outs, attempts, starts, lists, boxes, pics := layers0, outs0, attempts0, starts0, lists0, boxes0, pics0;
    selected := SelectForLayer(g, i, n, lh, t.maxLoad, bf);
    assert Layering(t, order, g, n, lh, bf, i, l0, b0, pic0, m0, out0, layers0, outs0, attempts0, starts0, lists0, boxes0, pics0);
    if selected.Err? {
      assert i > 0 && bf.Err?;
      return selected, [], layers, outs, attempts, starts, lists, boxes, pics;
    }
    var sel := selected.value;
    SelectionWithin(order, i, n, lh, t.maxLoad, bf);
    got, layers, outs, attempts, starts, lists, boxes, pics :=
      StackLayer(t, order, g, n, lh, bf, i, sel, l0, b0, pic0, m0, out0, layers0, outs0, attempts0, starts0, lists0, boxes0, pics0);
  }

  /** Layer `i`, its pallets no lower layer selected started from the states
      `m0` records: the pallets no layer has selected yet keep them. */
  method StackLayer(t: Trailer, order: seq<Pallet>, g: Grouping, n: nat, lh: int, bf: Result<real, string>, i: nat,
                    sel: seq<Pallet>, ghost l0: seq<Pallet>, ghost b0: seq<PalletState>, ghost pic0: Picture,
                    ghost m0: map<Pallet, PalletState>, ghost out0: seq<Pallet>,
                    ghost layers0: seq<seq<Pallet>>, ghost outs0: seq<seq<Pallet>>, ghost attempts0: seq<seq<Attempt>>,
                    ghost starts0: seq<seq<PalletState>>, ghost lists0: seq<seq<Pallet>>, ghost boxes0: seq<seq<PalletState>>,
                    ghost pics0: seq<Picture>)
      returns (got: seq<Pallet>, ghost layers: seq<seq<Pallet>>, ghost outs: seq<seq<Pallet>>, ghost attempts: seq<seq<Attempt>>,
               ghost starts: seq<seq<PalletState>>, ghost lists: seq<seq<Pallet>>, ghost boxes: seq<seq<PalletState>>,
               ghost pics: seq<Picture>)
    requires t.Valid() && n > 0 && g == Grouped(order) && g.WellFormed() && i < n
    requires Selection(g, i, n, lh, t.maxLoad, bf) == Ok(sel)
    requires Layering(t, order, g, n, lh, bf, i, l0, b0, pic0, m0, out0, layers0, outs0, attempts0, starts0, lists0, boxes0, pics0)
    modifies sel, t`loaded, t`distribution, t.spaceMap
    ensures t.Valid()
    ensures Layering(t, order, g, n, lh, bf, i + 1, l0, b0, pic0, m0, out0 + got, layers, outs, attempts, starts, lists, boxes, pics)
  {
    SelectionWithin(order, i, n, lh, t.maxLoad, bf);
    ghost var s := States(sel);
    forall m | 0 <= m < |sel| && Unselected(layers0, sel[m])
      ensures sel[m] in m0 && s[m] == m0[sel[m]]
    {
      assert sel[m] in order;
    }
    OriginsSnoc(m0, layers0, starts0, sel, s);
    got, layers, outs, attempts, starts, lists, boxes, pics :=
      PlaceLayer(t, order, g, n, lh, bf, i, sel, out0, layers0, outs0, attempts0, starts0, lists0, boxes0, pics0);
    AppendAssoc(l0, out0, got);
    forall p | p in order && Unselected(layers, p)
      ensures p in m0 && p.State() == m0[p]
    {
      UnselectedSnoc(layers0, sel, p);
      assert old(p.State()) == m0[p];
    }
  }

  /** Layer `i`: its selection through the greedy loop with the layer finder,
      on the trailer as the lower layers left it; only the selected pallets
      change. */
  method PlaceLayer(t: Trailer, order: seq<Pallet>, g: Grouping, n: nat, lh: int, bf: Result<real, string>, i: nat,
                    sel: seq<Pallet>, ghost out0: seq<Pallet>,
                    ghost layers0: seq<seq<Pallet>>, ghost outs0: seq<seq<Pallet>>, ghost attempts0: seq<seq<Attempt>>,
                    ghost starts0: seq<seq<PalletState>>, ghost lists0: seq<seq<Pallet>>, ghost boxes0: seq<seq<PalletState>>,
                    ghost pics0: seq<Picture>)
      returns (got: seq<Pallet>, ghost layers: seq<seq<Pallet>>, ghost outs: seq<seq<Pallet>>, ghost attempts: seq<seq<Attempt>>,
               ghost starts: seq<seq<PalletState>>, ghost lists: seq<seq<Pallet>>, ghost boxes: seq<seq<PalletState>>,
               ghost pics: seq<Picture>)
    requires t.Valid() && n > 0 && g == Grouped(order) && g.WellFormed() && i < n
    requires Strata(g, n, lh, t.maxLoad, bf, i, out0, layers0, outs0, attempts0)
    requires Selection(g, i, n, lh, t.maxLoad, bf) == Ok(sel)
    requires Stacked(t, lh, layers0, outs0, attempts0, starts0, lists0, boxes0, pics0)
    requires lists0[i] == t.loaded && boxes0[i] == t.Loaded() && t.Shows(pics0[i])
    modifies sel, t`loaded, t`distribution, t.spaceMap
    ensures t.Valid()
    ensures t.loaded == old(t.loaded) + got
    ensures Strata(g, n, lh, t.maxLoad, bf, i + 1, out0 + got, layers, outs, attempts)
    ensures Stacked(t, lh, layers, outs, attempts, starts, lists, boxes, pics)
    ensures layers == layers0 + [sel] && starts == starts0 + [old(States(sel))]
    ensures lists[0] == lists0[0] && boxes[0] == boxes0[0] && pics[0] == pics0[0]
    ensures lists[i + 1] == t.loaded && boxes[i + 1] == t.Loaded() && t.Shows(pics[i + 1])
  {
    ghost var s := States(sel);
    ghost var tried, pic';
    got, tried, pic' := PlaceAll(t, sel, Layer(i * lh, lh), pics0[i]);
    LayerStep(t, g, n, lh, bf, i, sel, out0, layers0, outs0, attempts0, starts0, lists0, boxes0, pics0,
              got, tried, s, t.loaded, t.Loaded(), pic');
    layers, outs, attempts, starts := layers0 + [sel], outs0 + [got], attempts0 + [tried], starts0 + [s];
    lists, boxes, pics := lists0 + [t.loaded], boxes0 + [t.Loaded()], pics0 + [pic'];
  }

  /** Layer `i` as the greedy loop over its selection reports it extends
      the loop's record. */
  lemma LayerStep(t: Trailer, g: Grouping, n: nat, lh: int, bf: Result<real, string>, i: nat, sel: seq<Pallet>,
                  out0: seq<Pallet>, layers0: seq<seq<Pallet>>, outs0: seq<seq<Pallet>>, attempts0: seq<seq<Attempt>>,
                  starts0: seq<seq<PalletState>>, lists0: seq<seq<Pallet>>, boxes0: seq<seq<PalletState>>, pics0: seq<Picture>,
                  got: seq<Pallet>, tried: seq<Attempt>, s: seq<PalletState>, l': seq<Pallet>, b': seq<PalletState>, pic': Picture)
    requires n > 0 && g.WellFormed() && i < n
    requires Strata(g, n, lh, t.maxLoad, bf, i, out0, layers0, outs0, attempts0)
    requires Selection(g, i, n, lh, t.maxLoad, bf) == Ok(sel)
    requires Stacked(t, lh, layers0, outs0, attempts0, starts0, lists0, boxes0, pics0)
    requires |tried| == |sel| == |s| && got == Accepted(sel, tried) && l' == lists0[i] + got
    requires Distinct(sel) ==> pic' == pics0[i].Then(Placed(s, tried, |sel|))
    requires Distinct(sel) && Disjoint(sel, lists0[i]) ==>
               && Greedy(t, pics0[i], boxes0[i], s, Layer(i * lh, lh), tried)
               && b' == boxes0[i] + Placed(s, tried, |sel|)
    ensures Strata(g, n, lh, t.maxLoad, bf, i + 1, out0 + got, layers0 + [sel], outs0 + [got], attempts0 + [tried])
    ensures Stacked(t, lh, layers0 + [sel], outs0 + [got], attempts0 + [tried], starts0 + [s],
                    lists0 + [l'], boxes0 + [b'], pics0 + [pic'])
  {
    assert Stratum(g, n, lh, t.maxLoad, bf, i, sel, got, tried);
    StrataStep(g, n, lh, t.maxLoad, bf, i, out0, layers0, outs0, attempts0, sel, got, tried);
    StackedSnoc(t, lh, layers0, outs0, attempts0, starts0, lists0, boxes0, pics0, sel, got, tried, s, l', b', pic');
  }

  /** A selection draws its pallets from the grouped list. */
  lemma SelectionWithin(order: seq<Pallet>, i: nat, n: nat, lh: int, maxLoad: int, bf: Result<real, string>)
    requires n > 0 && Grouped(order).WellFormed() && Selection(Grouped(order), i, n, lh, maxLoad, bf).Ok?
    ensures var sel := Selection(Grouped(order), i, n, lh, maxLoad, bf).value;
      forall k :: 0 <= k < |sel| ==> sel[k] in order
  {
    KeptFromGrouping(order, lh, Limit(maxLoad, bf, i, n), i == 0);
    var sel := Selection(Grouped(order), i, n, lh, maxLoad, bf).value;
    forall k | 0 <= k < |sel|
      ensures sel[k] in order
    {
      assert sel[k] in sel;
    }
  }

  /** The layers hand out only pallets of the ordered list. */
  lemma StrataWithin(order: seq<Pallet>, n: nat, lh: int, maxLoad: int, bf: Result<real, string>, i: nat,
                     out: seq<Pallet>, layers: seq<seq<Pallet>>, outs: seq<seq<Pallet>>, attempts: seq<seq<Attempt>>)
    requires n > 0 && Grouped(order).WellFormed() && Strata(Grouped(order), n, lh, maxLoad, bf, i, out, layers, outs, attempts)
    ensures forall j :: 0 <= j < |out| ==> out[j] in order
  {
    forall k, j | 0 <= k < |outs| && 0 <= j < |outs[k]|
      ensures outs[k][j] in order
    {
      assert Stratum(Grouped(order), n, lh, maxLoad, bf, k, layers[k], outs[k], attempts[k]);
      SelectionWithin(order, k, n, lh, maxLoad, bf);
      assert outs[k][j] in outs[k];
      assert outs[k][j] in layers[k];
    }
    ConcatFrom(outs, order);
  }
}
