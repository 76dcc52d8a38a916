/** `LoadingAlgorithm`: a named strategy with its own trailer and merged
    configuration, and the `run` lifecycle every strategy shares (reset,
    fresh copies of the caller's pallets, the strategy's `load_pallets`,
    then the trailer's list overwritten with the result). */
module Loading {
  import opened Wrappers
  import opened Cargo
  import opened Container
  import opened Base
  import opened Placement
  import XYAxis
  import XDistribution
  import YDistribution
  import ZDistribution

  /** The classes deriving from `LoadingAlgorithm`. */
  datatype Kind =
    | XYAxisLoading
    | XDistributionLoading
    | YDistributionLoading
    | ZDistributionLoading
    | ReinforcementLearningLoading

  /** The name each constructor passes to `LoadingAlgorithm.__init__`. */
  function NameOf(k: Kind): string
  {
    match k
    case XYAxisLoading => XYAxis.Name
    case XDistributionLoading => XDistribution.Name
    case YDistributionLoading => YDistribution.Name
    case ZDistributionLoading => ZDistribution.Name
    case ReinforcementLearningLoading => "RL_Loading"
  }

  /** The defaults each constructor merges under the caller's entries; the
      reinforcement-learning strategy keeps the caller's configuration as is. */
  function DefaultsOf(k: Kind): Config
  {
    match k
    case XYAxisLoading => XYAxis.Defaults
    case XDistributionLoading => XDistribution.Defaults
    case YDistributionLoading => YDistribution.Defaults
    case ZDistributionLoading => ZDistribution.Defaults
    case ReinforcementLearningLoading => map[]
  }

  /** The record `get_statistics` returns. */
  datatype Statistics = Statistics(
    efficiency: Efficiency,
    weightDistribution: Weights,
    weightDistributionValid: BalanceValidity,
    palletsCount: nat)

  /** The copies `run` hands to the strategy: the same physical record, at
      the default position and rotation, and new objects, none shared. */
  method Copies(ps: seq<Pallet>) returns (cs: seq<Pallet>)
    ensures |cs| == |ps|
    ensures forall k :: 0 <= k < |cs| ==> fresh(cs[k]) && cs[k].State() == PalletState(ps[k].spec, Origin, 0)
    ensures forall j, k :: 0 <= j < k < |cs| ==> cs[j] != cs[k]
  {
    cs := [];
    for i := 0 to |ps|
      invariant |cs| == i
      invariant forall k :: 0 <= k < i ==> fresh(cs[k]) && cs[k].State() == PalletState(ps[k].spec, Origin, 0)
      invariant forall j, k :: 0 <= j < k < i ==> cs[j] != cs[k]
    {
      var c := new Pallet(ps[i].spec, Origin, 0);
      cs := cs + [c];
    }
  }

  class Algorithm {
    const name: string
    const kind: Kind
    const config: Config
    const trailer: Trailer

    /** The trailer's grid fits its dimensions and its capacity is not negative. */
    ghost predicate Valid()
      reads trailer`spaceMap
    {
      trailer.Valid() && trailer.maxLoad >= 0
    }

    /** A strategy's constructor: its name, `{**defaults, **config}` (with an
        absent configuration read as the empty one) and a new default trailer. */
    constructor (kind: Kind, cfg: Config)
      ensures this.kind == kind && name == NameOf(kind)
      ensures config == Merge(DefaultsOf(kind), cfg)
      ensures fresh(trailer) && fresh(trailer.spaceMap) && Valid() && trailer.GridClear()
      ensures trailer.length == DefaultLength && trailer.width == DefaultWidth
      ensures trailer.height == DefaultHeight && trailer.maxLoad == DefaultMaxLoad
      ensures trailer.loaded == [] && trailer.distribution == NoWeight
    {
      this.kind := kind;
      name := NameOf(kind);
      config := Merge(DefaultsOf(kind), cfg);
      var t := DefaultTrailer();
      trailer := t;
    }

    /** What every strategy's `load_pallets` promises on success: the
        trailer's list has grown by the result, which holds only pallets of
        the input. */
    ghost predicate Delivered(ps: seq<Pallet>, r: Result<seq<Pallet>, string>, l0: seq<Pallet>)
      reads trailer`loaded
    {
      r.Ok? ==> trailer.loaded == l0 + r.value && forall j :: 0 <= j < |r.value| ==> r.value[j] in ps
    }

    /** How each strategy's outcome depends on its configuration: the axis
        strategy always succeeds; the length zones fail on a zone count that
        is not a number or is zero and on a factor that is not a number; the
        width zones succeed exactly on a non-zero numeric count; the layers
        fail exactly on a count that is not a number or on a factor that is
        not a number when there is more than one layer. */
    ghost predicate Outcome(r: Result<seq<Pallet>, string>)
    {
      && (kind == XYAxisLoading ==> r.Ok?)
      && (kind == XDistributionLoading &&
          (XDistribution.Zones(config).Err? || XDistribution.Zones(config) == Ok(0) || XDistribution.BalancingFactor(config).Err?)
          ==> r.Err?)
      && (kind == YDistributionLoading ==>
          (r.Ok? <==> YDistribution.Zones(config).Ok? && YDistribution.Zones(config).value != 0))
      && (kind == ZDistributionLoading ==>
          (r.Err? <==> ZDistribution.Layers(config).Err? ||
                       (ZDistribution.Layers(config).value > 1 && ZDistribution.BalancingFactor(config).Err?)))
    }

    /** `load_pallets`, dispatched on the strategy: the shared outcome, the
        error outcomes of the configuration, and, for the heuristics other than
        the layered one, a trailer kept consistent when the pallets are
        distinct and not loaded yet. */
    method LoadPallets(ps: seq<Pallet>) returns (r: Result<seq<Pallet>, string>)
      requires Valid() && kind != ReinforcementLearningLoading
      modifies ps, trailer`loaded, trailer`distribution, trailer.spaceMap
      ensures Valid()
      ensures Delivered(ps, r, old(trailer.loaded))
      ensures Outcome(r)
      ensures kind != ZDistributionLoading && Distinct(ps) && Disjoint(ps, old(trailer.loaded)) && old(trailer.Consistent(trailer.Loaded()))
              ==> trailer.Consistent(trailer.Loaded())
    {
      match kind {
        case XYAxisLoading => r := LoadAlongAxes(ps);
        case XDistributionLoading => r := LoadAlongLength(ps);
        case YDistributionLoading => r := LoadAcrossWidth(ps);
        case ZDistributionLoading => r := LoadInLayers(ps);
      }
    }

    /** `XYAxisLoading.load_pallets`. */
    method LoadAlongAxes(ps: seq<Pallet>) returns (r: Result<seq<Pallet>, string>)
      requires Valid()
      modifies ps, trailer`loaded, trailer`distribution, trailer.spaceMap
      ensures Valid() && r.Ok? && Delivered(ps, r, old(trailer.loaded))
      ensures Distinct(ps) && Disjoint(ps, old(trailer.loaded)) && old(trailer.Consistent(trailer.Loaded()))
              ==> trailer.Consistent(trailer.Loaded())
    {
      var out;
      ghost var order, attempts;
      out, order, attempts := XYAxis.LoadPallets(trailer, ps, config);
      r := Ok(out);
      AcceptedWithin(order, attempts);
      Rearranged(ps, order, []);
    }

    /** `XDistributionLoading.load_pallets`. */
    method LoadAlongLength(ps: seq<Pallet>) returns (r: Result<seq<Pallet>, string>)
      requires Valid()
      modifies ps, trailer`loaded, trailer`distribution, trailer.spaceMap
      ensures Valid() && Delivered(ps, r, old(trailer.loaded))
      ensures XDistribution.Zones(config).Err? || XDistribution.Zones(config) == Ok(0) || XDistribution.BalancingFactor(config).Err?
              ==> r.Err?
      ensures Distinct(ps) && Disjoint(ps, old(trailer.loaded)) && old(trailer.Consistent(trailer.Loaded()))
              ==> trailer.Consistent(trailer.Loaded())
    {
      ghost var order, attempts, zoneOf, picks, widths;
      r, order, attempts, zoneOf, picks, widths := XDistribution.LoadPallets(trailer, ps, config);
      if r.Ok? {
        AcceptedWithin(order, attempts);
        Rearranged(ps, order, []);
      }
    }

    /** `YDistributionLoading.load_pallets`. */
    method LoadAcrossWidth(ps: seq<Pallet>) returns (r: Result<seq<Pallet>, string>)
      requires Valid()
      modifies ps, trailer`loaded, trailer`distribution, trailer.spaceMap
      ensures Valid() && Delivered(ps, r, old(trailer.loaded))
      ensures r.Ok? <==> YDistribution.Zones(config).Ok? && YDistribution.Zones(config).value != 0
      ensures Distinct(ps) && Disjoint(ps, old(trailer.loaded)) && old(trailer.Consistent(trailer.Loaded()))
              ==> trailer.Consistent(trailer.Loaded())
    {
      ghost var order, groups, outs, attempts, starts, states;
      r, order, groups, outs, attempts, starts, states := YDistribution.LoadPallets(trailer, ps, config);
      if r.Ok? && YDistribution.Zones(config).value > 0 {
        YDistribution.BandsWithin(order, YDistribution.Zones(config).value, r.value, groups, outs, attempts);
        Rearranged(ps, order, []);
      }
    }

    /** `ZDistributionLoading.load_pallets`. */
    method LoadInLayers(ps: seq<Pallet>) returns (r: Result<seq<Pallet>, string>)
      requires Valid()
      modifies ps, trailer`loaded, trailer`distribution, trailer.spaceMap
      ensures Valid() && Delivered(ps, r, old(trailer.loaded))
      ensures r.Err? <==> ZDistribution.Layers(config).Err? ||
                          (ZDistribution.Layers(config).value > 1 && ZDistribution.BalancingFactor(config).Err?)
    {
      ghost var order, layers, outs, attempts, starts, lists, boxes, pics, states;
      r, order, layers, outs, attempts, starts, lists, boxes, pics, states := ZDistribution.LoadPallets(trailer, ps, config);
      if r.Ok? && ZDistribution.Layers(config).value > 0 {
        var n := ZDistribution.Layers(config).value;
        ZDistribution.StrataWithin(order, n, trailer.height / n, trailer.maxLoad, ZDistribution.BalancingFactor(config),
                                   |outs|, Concat(outs), layers, outs, attempts);
        Rearranged(ps, order, []);
      }
    }

    /** `run`: an optional reset, then the strategy on fresh copies of the
        caller's pallets, whose result becomes the trailer's list. The
        caller's pallets are left as they are and every returned pallet is
        one of the copies; after a reset the heuristics other than the
        layered one leave the trailer without overlap, in bounds and within
        capacity. */
    method Run(pallets: seq<Pallet>, reset: bool) returns (r: Result<seq<Pallet>, string>, ghost copies: seq<Pallet>)
      requires Valid() && kind != ReinforcementLearningLoading
      modifies trailer`loaded, trailer`distribution, trailer`spaceMap, trailer.spaceMap
      ensures Valid()
      ensures reset ==> fresh(trailer.spaceMap)
      ensures |copies| == |pallets|
      ensures forall k :: 0 <= k < |copies| ==> fresh(copies[k]) && copies[k].spec == pallets[k].spec
      ensures forall j, k :: 0 <= j < k < |copies| ==> copies[j] != copies[k]
      ensures forall k :: 0 <= k < |pallets| ==> pallets[k].State() == old(pallets[k].State())
      ensures r.Ok? ==> trailer.loaded == r.value
      ensures r.Ok? ==> forall j :: 0 <= j < |r.value| ==> r.value[j] in copies
      ensures Outcome(r)
      ensures reset && kind != ZDistributionLoading ==> trailer.Consistent(trailer.Loaded())
    {
      if reset {
        trailer.Reset();
      }
      ghost var empty := trailer.loaded == [];
      assert empty ==> trailer.Consistent(trailer.Loaded());
      var cs := Copies(pallets);
      copies := cs;
      DistinctByIndex(cs);
      assert empty ==> Disjoint(cs, trailer.loaded) && trailer.Consistent(trailer.Loaded());
      r := LoadPallets(cs);
      assert empty && kind != ZDistributionLoading ==> trailer.Consistent(trailer.Loaded());
      if r.Ok? {
        Adopt(r.value);
      }
    }

    /** `self.trailer.loaded_pallets = loaded_pallets`: the list is replaced;
        when it already was that list, nothing the trailer reports changes. */
    method Adopt(out: seq<Pallet>)
      modifies trailer`loaded
      ensures trailer.loaded == out
      ensures old(trailer.loaded) == out ==> trailer.Loaded() == old(trailer.Loaded())
    {
      trailer.loaded := out;
    }

    /** `get_statistics`: the trailer's efficiency record, its weight
        accumulators, their validity and the pallet count, which agrees with
        the efficiency record's own count. */
    function GetStatistics(): (s: Statistics)
      reads trailer`loaded, trailer`distribution, trailer.loaded
      ensures s.palletsCount == |trailer.loaded| && s.efficiency.palletsLoaded == s.palletsCount
      ensures s.weightDistribution == trailer.distribution
      ensures s.weightDistributionValid.overallValid <==>
                s.weightDistributionValid.sideBalanced && s.weightDistributionValid.frontBackBalanced
    {
      Statistics(trailer.LoadingEfficiency(), trailer.distribution, trailer.WeightDistributionValidity(), |trailer.loaded|)
    }
  }

  /** What a freshly made or just reset strategy reports: nothing loaded, no
      weight, sides balanced and front-to-back not balanced. */
  lemma EmptyStatistics(a: Algorithm)
    requires a.trailer.loaded == [] && a.trailer.distribution == NoWeight
    ensures a.GetStatistics() == Statistics(Efficiency(0.0, 0.0, 0, 0.0, 0.5, 0.0), NoWeight, BalanceValidity(true, false, false), 0)
  {
    ResetEfficiency(a.trailer);
    EmptyBalance();
  }
}
