/** `XYAxisLoading`: the pallets, heaviest first (or largest first), each on
    the floor at the first free grid point from the front (or the back). */
module XYAxis {
  import opened Cargo
  import opened Container
  import opened Base
  import opened Scans
  import opened Placement

  const Name := "XY Axis Loading"

  /** The defaults are looked up under "XY_Axis_Loading", a key the defaults
      table does not have, so the merged configuration is the caller's own. */
  const Defaults: Config := map[]

  /** `prioritize_heavy_pallets`, true unless configured otherwise. */
  predicate PrioritizeHeavy(cfg: Config)
  {
    "prioritize_heavy_pallets" !in cfg || Truthy(cfg["prioritize_heavy_pallets"])
  }

  /** `start_position == "front"`, with "front" the default. */
  predicate FromFront(cfg: Config)
  {
    "start_position" !in cfg || cfg["start_position"] == StrValue("front")
  }

  /** The order the pallets are tried in: heaviest first, or largest first. */
  function Arrange(ps: seq<Pallet>, heavyFirst: bool): (r: seq<Pallet>)
    ensures multiset(r) == multiset(ps)
    ensures heavyFirst ==> forall a, b :: 0 <= a < b < |r| ==> r[a].spec.TotalWeight() >= r[b].spec.TotalWeight()
    ensures !heavyFirst ==> forall a, b :: 0 <= a < b < |r| ==> r[a].spec.Volume() >= r[b].spec.Volume()
  {
    if heavyFirst then SortByWeight(ps, true) else SortByVolume(ps, true)
  }

  /** `load_pallets`: the shared greedy loop over the arranged pallets with
      the floor finder. */
  method LoadPallets(t: Trailer, ps: seq<Pallet>, cfg: Config) returns (out: seq<Pallet>, ghost order: seq<Pallet>, ghost attempts: seq<Attempt>)
    requires t.Valid()
    modifies ps, t`loaded, t`distribution, t.spaceMap
    ensures t.Valid()
    ensures order == Arrange(ps, PrioritizeHeavy(cfg))
    ensures |attempts| == |order| && out == Accepted(order, attempts)
    ensures t.loaded == old(t.loaded) + out
    ensures Distinct(ps) ==> forall k :: 0 <= k < |order| ==> order[k].State() == After(old(order[k].State()), attempts[k])
    ensures Distinct(ps) ==> forall k :: 0 <= k < |order| && attempts[k].Found? ==>
              Within(t, order[k].State(), Floor(FromFront(cfg)), order[k].position)
    ensures Distinct(ps) && Disjoint(ps, old(t.loaded)) && old(t.Consistent(t.Loaded())) ==> t.Consistent(t.Loaded())
    ensures Distinct(ps) && Disjoint(ps, old(t.loaded)) ==>
              && Greedy(t, old(t.Snapshot()), old(t.Loaded()), old(States(order)), Floor(FromFront(cfg)), attempts)
              && t.Loaded() == old(t.Loaded()) + Placed(old(States(order)), attempts, |order|)
  {
    var sorted := Arrange(ps, PrioritizeHeavy(cfg));
    order := sorted;
    Rearranged(ps, sorted, t.loaded);
    ghost var g0, s0, L0 := t.Snapshot(), States(sorted), t.Loaded();
    ghost var g;
    out, attempts, g := PlaceAll(t, sorted, Floor(FromFront(cfg)), g0);
  }
}
