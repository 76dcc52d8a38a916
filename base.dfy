/** What every loading strategy inherits: the three stable sorts of the
    pallet list and the rotation probe. */
module Base {
  import opened Cargo
  import opened Container
  import opened Wrappers
  import Sorting

  /** A value of a strategy's configuration dictionary. */
  datatype Value = IntValue(i: int) | RealValue(r: real) | BoolValue(b: bool) | StrValue(s: string)

  /** The configuration dictionary: the strategy's defaults merged with the caller's entries. */
  type Config = map<string, Value>

  /** `{**defaults, **config}`: the caller's entries win. */
  function Merge(defaults: Config, config: Config): (m: Config)
    ensures m.Keys == defaults.Keys + config.Keys
    ensures forall k :: k in config ==> m[k] == config[k]
    ensures forall k :: k in defaults && k !in config ==> m[k] == defaults[k]
  {
    defaults + config
  }

  /** Python truthiness of a configuration value. */
  predicate Truthy(v: Value)
  {
    match v
    case IntValue(i) => i != 0
    case RealValue(r) => r != 0.0
    case BoolValue(b) => b
    case StrValue(s) => s != ""
  }

  /** `config.get(key, default)` used as a count: an `int`, or a `bool`
      (which Python counts as 0 or 1); any other value makes the arithmetic
      on it fail with a `TypeError`. */
  function CountOf(cfg: Config, key: string, default: int): (r: Result<int, string>)
    ensures key !in cfg ==> r == Ok(default)
    ensures key in cfg && cfg[key].IntValue? ==> r == Ok(cfg[key].i)
    ensures r.Err? ==> key in cfg && (cfg[key].RealValue? || cfg[key].StrValue?)
  {
    if key !in cfg then Ok(default)
    else
      match cfg[key]
      case IntValue(i) => Ok(i)
      case BoolValue(b) => Ok(if b then 1 else 0)
      case _ => Err("TypeError")
  }

  /** `config.get(key, default)` used as a factor: any number; a string
      makes the arithmetic on it fail with a `TypeError`. */
  function FactorOf(cfg: Config, key: string, default: real): (r: Result<real, string>)
    ensures key !in cfg ==> r == Ok(default)
    ensures key in cfg && cfg[key].RealValue? ==> r == Ok(cfg[key].r)
    ensures r.Err? <==> key in cfg && cfg[key].StrValue?
  {
    if key !in cfg then Ok(default)
    else
      match cfg[key]
      case IntValue(i) => Ok(i as real)
      case RealValue(x) => Ok(x)
      case BoolValue(b) => Ok(if b then 1.0 else 0.0)
      case StrValue(_) => Err("TypeError")
  }

  /** The sort keys of the three helpers. */
  function VolumeOf(p: Pallet): int { p.spec.Volume() }
  function WeightOf(p: Pallet): int { p.spec.TotalWeight() }
  /** `footprint[0] * footprint[1]`, which does not depend on the rotation (`FootprintArea`). */
  function AreaOf(p: Pallet): int { p.spec.length * p.spec.width }

  function Keys(ps: seq<Pallet>, key: Pallet -> int): (ks: seq<int>)
    ensures |ks| == |ps| && forall k :: 0 <= k < |ps| ==> ks[k] == key(ps[k])
  {
    seq(|ps|, k requires 0 <= k < |ps| => key(ps[k]))
  }

  /** Descending when `reverse`, ascending otherwise. */
  predicate Ordered(a: int, b: int, reverse: bool)
  {
    if reverse then a >= b else a <= b
  }

  /** `r` draws its elements from `xs` by an index map `o` that keeps
      elements with equal keys in their input order. */
  ghost predicate StableOrder<T>(xs: seq<T>, keys: seq<int>, r: seq<T>)
    requires |keys| == |xs|
  {
    exists o: seq<nat> ::
      && |o| == |r| && Sorting.InRange(o, |xs|)
      && (forall k :: 0 <= k < |r| ==> r[k] == xs[o[k]])
      && (forall a, b :: 0 <= a < b < |r| && keys[o[a]] == keys[o[b]] ==> o[a] < o[b])
  }

  /** `sorted(pallets, key=key, reverse=reverse)`: a permutation, ordered by
      the key, and stable. */
  function SortBy(ps: seq<Pallet>, key: Pallet -> int, reverse: bool): (r: seq<Pallet>)
    ensures |r| == |ps| && multiset(r) == multiset(ps)
    ensures forall a, b :: 0 <= a < b < |r| ==> Ordered(key(r[a]), key(r[b]), reverse)
    ensures StableOrder(ps, Keys(ps, key), r)
  {
    SortByFacts(ps, key, reverse);
    Sorting.Sorted(ps, Keys(ps, key), reverse)
  }

  lemma SortByFacts(ps: seq<Pallet>, key: Pallet -> int, reverse: bool)
    ensures var r := Sorting.Sorted(ps, Keys(ps, key), reverse);
      && |r| == |ps| && multiset(r) == multiset(ps)
      && (forall a, b :: 0 <= a < b < |r| ==> Ordered(key(r[a]), key(r[b]), reverse))
      && StableOrder(ps, Keys(ps, key), r)
  {
    var keys := Keys(ps, key);
    var r, o := Sorting.Sorted(ps, keys, reverse), Sorting.Order(keys, reverse);
    Sorting.SortedSpec(ps, keys, reverse);
    forall a, b | 0 <= a < b < |r|
      ensures Ordered(key(r[a]), key(r[b]), reverse)
    {
      assert key(r[a]) == keys[o[a]] && key(r[b]) == keys[o[b]];
    }
    assert Sorting.InRange(o, |ps|);
  }

  /** `_sort_pallets_by_volume`. */
  function SortByVolume(ps: seq<Pallet>, reverse: bool): (r: seq<Pallet>)
    ensures multiset(r) == multiset(ps)
    ensures forall a, b :: 0 <= a < b < |r| ==> Ordered(r[a].spec.Volume(), r[b].spec.Volume(), reverse)
    ensures StableOrder(ps, Keys(ps, VolumeOf), r)
  {
    SortBy(ps, VolumeOf, reverse)
  }

  /** `_sort_pallets_by_weight`. */
  function SortByWeight(ps: seq<Pallet>, reverse: bool): (r: seq<Pallet>)
    ensures multiset(r) == multiset(ps)
    ensures forall a, b :: 0 <= a < b < |r| ==> Ordered(r[a].spec.TotalWeight(), r[b].spec.TotalWeight(), reverse)
    ensures StableOrder(ps, Keys(ps, WeightOf), r)
  {
    SortBy(ps, WeightOf, reverse)
  }

  /** `_sort_pallets_by_footprint`. */
  function SortByFootprint(ps: seq<Pallet>, reverse: bool): (r: seq<Pallet>)
    ensures multiset(r) == multiset(ps)
    ensures forall a, b :: 0 <= a < b < |r| ==> Ordered(r[a].spec.length * r[a].spec.width, r[b].spec.length * r[b].spec.width, reverse)
    ensures StableOrder(ps, Keys(ps, AreaOf), r)
  {
    SortBy(ps, AreaOf, reverse)
  }

  /** The footprint's area is the same in both rotations. */
  lemma FootprintArea(s: PalletState)
    ensures s.Footprint().0 * s.Footprint().1 == s.spec.length * s.spec.width
  {
    if s.rotation == 90 {
      assert s.Footprint() == (s.spec.width, s.spec.length);
    }
  }

  /** Some position is available to `s` in `t`. */
  ghost predicate HasRoom(t: Trailer, s: PalletState)
    reads t`loaded, t.loaded, t`spaceMap, t.spaceMap
  {
    RoomAmong(t, s, t.Loaded())
  }

  /** Some position is available to `s` in `t` with the loaded boxes `ls`. */
  ghost predicate RoomAmong(t: Trailer, s: PalletState, ls: seq<PalletState>)
    reads t`spaceMap, t.spaceMap
  {
    exists q :: t.AvailableAmong(s, q, ls)
  }

  /** The boxes the scan of `_try_rotate_pallet` sees: the loaded boxes,
      with the pallet's own box, if it is loaded, turned to `s`. */
  function Seen(ls: seq<PalletState>, loaded: seq<Pallet>, p: Pallet, s: PalletState): (seen: seq<PalletState>)
    requires |ls| == |loaded|
    ensures |seen| == |ls|
    ensures forall i :: 0 <= i < |ls| ==> seen[i] == if loaded[i] == p then s else ls[i]
    ensures p !in loaded ==> seen == ls
  {
    seq(|ls|, i requires 0 <= i < |ls| => if loaded[i] == p then s else ls[i])
  }

  /** `_try_rotate_pallet`: the pallet ends rotated exactly when the rotated
      orientation has an available position among the boxes the scan sees,
      which are the loaded ones, with the pallet's own box turned when it is
      loaded; the trailer is not touched. */
  method TryRotatePallet(p: Pallet, t: Trailer) returns (b: bool)
    modifies p
    ensures p.position == old(p.position)
    ensures p.rotation == if b then Toggle(old(p.rotation)) else old(p.rotation)
    ensures b <==> RoomAmong(t, old(p.State()).Rotated(), Seen(old(t.Loaded()), t.loaded, p, old(p.State()).Rotated()))
    ensures p !in t.loaded ==> (b <==> HasRoom(t, old(p.State()).Rotated()))
  {
    ghost var s0, l0 := p.State(), t.Loaded();
    var original := p.rotation;
    p.Rotate();
    assert p.State() == s0.Rotated();
    ghost var seen := Seen(l0, t.loaded, p, s0.Rotated());
    assert t.Loaded() == seen;
    var after := t.GetAvailablePositions(p);
    Scanned(t, s0.Rotated(), seen, after);
    if original != p.rotation {
      p.Rotate();
    }
    if |after| > 0 {
      p.Rotate();
      b := true;
    } else {
      b := false;
    }
    assert p !in t.loaded ==> t.Loaded() == l0 == seen;
  }

  /** A scan that lists exactly the available positions finds one exactly when there is room. */
  lemma Scanned(t: Trailer, s: PalletState, ls: seq<PalletState>, after: seq<Position>)
    requires forall q :: q in after <==> t.AvailableAmong(s, q, ls)
    ensures |after| > 0 <==> RoomAmong(t, s, ls)
  {
    if |after| > 0 {
      assert after[0] in after;
    }
  }
}
