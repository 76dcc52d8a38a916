/** The position finders of the four strategies. Each walks the 100 mm
    grid x-major (x outer, y inner, both ascending), tests every grid point
    and keeps the best one; they differ in the ranges walked, in the height
    they test at a point and in what "best" means. */
module Scans {
  import opened Wrappers
  import opened Cargo
  import opened Container

  /** Which finder, with its parameters. */
  datatype Scan =
    /** `XYAxisLoading._find_best_position`: the whole floor at z = 0; the
        first position from the front, or from the back when `front` is false. */
    | Floor(front: bool)
    /** `XDistributionLoading._find_position_in_zone`: x from `zone * zoneLength`
        to the zone's far end cut at the trailer length, at the lowest
        available height, lowest z first. */
    | Zone(zone: nat, zoneLength: nat)
    /** The floor test of `XDistributionLoading._select_best_zone`: the zone's
        x range, not cut at the trailer length, at z = 0. */
    | ZoneFloor(zone: nat, zoneLength: nat)
    /** `YDistributionLoading._find_position_in_zone`: y from `yStart` to
        `yEnd`, at z = 0, closest to the band's centre line first. */
    | Band(yStart: int, yEnd: int)
    /** `ZDistributionLoading._find_position_in_layer`: the whole floor, at the
        lowest available height if that lies within the layer, closest to the
        trailer's centre first. */
    | Layer(zStart: int, layerHeight: int)

  /** Two values of the same `range(start, _, 100)` less than 100 apart are equal. */
  lemma SameGridPoint(a: int, b: int, start: int)
    requires (a - start) % Resolution == 0 && (b - start) % Resolution == 0
    requires b <= a < b + Resolution
    ensures a == b
  {
    var i, j := (a - start) / Resolution, (b - start) / Resolution;
    assert a - start == Resolution * i && b - start == Resolution * j;
  }

  /** `start + 100 k` is a value of `range(start, _, 100)`. */
  lemma OnGrid(v: int, start: int, k: nat)
    requires v == start + Resolution * k
    ensures (v - start) % Resolution == 0
  {
  }

  /** First value of the x scan. */
  function XStart(scan: Scan): int
  {
    match scan
    case Zone(zone, zl) => zone * zl
    case ZoneFloor(zone, zl) => zone * zl
    case _ => 0
  }

  /** The x scan is `range(XStart, XStop, 100)`. */
  function XStop(t: Trailer, s: PalletState, scan: Scan): int
  {
    var l := s.Dimensions().length;
    match scan
    case Zone(zone, zl) =>
      var end := (zone + 1) * zl;
      (if end < t.length then end else t.length) - l + 1
    case ZoneFloor(zone, zl) => (zone + 1) * zl - l + 1
    case _ => t.length - l + 1
  }

  function YStart(scan: Scan): int
  {
    if scan.Band? then scan.yStart else 0
  }

  /** The y scan is `range(YStart, YStop, 100)`. */
  function YStop(t: Trailer, s: PalletState, scan: Scan): int
  {
    var w := s.Dimensions().width;
    if scan.Band? then scan.yEnd - w + 1 else t.width - w + 1
  }

  /** The height a finder tests at `(x, y)`, or `None` when it skips the point
      because the lowest available height is missing or out of its range. */
  function Level(t: Trailer, g: Picture, s: PalletState, scan: Scan, x: int, y: int): Option<int>
  {
    var d := s.Dimensions();
    match scan
    case Zone(_, _) =>
      if x < 0 || y < 0 then None
      else
        var z := g.Lowest(x, y, d.length, d.width);
        if z.Some? && z.value + d.height <= t.height then z else None
    case Layer(zs, lh) =>
      if x < 0 || y < 0 then None
      else
        var z := g.Lowest(x, y, d.length, d.width);
        if z.Some? && z.value >= zs && z.value + d.height <= zs + lh then z else None
    case _ => Some(0)
  }

  /** A position the finder may return: a scanned point, at the probed
      height, free of every loaded box. */
  predicate Candidate(t: Trailer, g: Picture, ls: seq<PalletState>, s: PalletState, scan: Scan, q: Position)
  {
    && InScanRange(q.x, XStart(scan), XStop(t, s, scan))
    && InScanRange(q.y, YStart(scan), YStop(t, s, scan))
    && Level(t, g, s, scan, q.x, q.y) == Some(q.z)
    && !CollidesWithAny(s.WithPosition(q), ls)
  }

  /** The finder for `scan` has something to return. */
  ghost predicate Room(t: Trailer, g: Picture, ls: seq<PalletState>, s: PalletState, scan: Scan)
  {
    exists q :: Candidate(t, g, ls, s, scan, q)
  }

  /** The bounds every position a finder returns respects: on its scan grid,
      and at a height the finder allows. */
  predicate Within(t: Trailer, s: PalletState, scan: Scan, q: Position)
  {
    var h := s.Dimensions().height;
    && InScanRange(q.x, XStart(scan), XStop(t, s, scan))
    && InScanRange(q.y, YStart(scan), YStop(t, s, scan))
    && match scan
       case Zone(_, _) => q.z + h <= t.height
       case Layer(zs, lh) => zs <= q.z && q.z + h <= zs + lh
       case _ => q.z == 0
  }

  lemma CandidateWithin(t: Trailer, g: Picture, ls: seq<PalletState>, s: PalletState, scan: Scan, q: Position)
    requires Candidate(t, g, ls, s, scan, q)
    ensures Within(t, s, scan, q)
  {
  }

  /** The quantity a finder minimises: the height for a zone; twice the
      distance of the footprint's centre from the band's centre line; the
      square of twice the distance of the footprint's centre from the
      trailer's centre (the same order as the distance itself). */
  function Key(t: Trailer, s: PalletState, scan: Scan, q: Position): int
  {
    var d := s.Dimensions();
    match scan
    case Band(ys, ye) =>
      var off := 2 * q.y + d.width - ys - ye;
      if off < 0 then -off else off
    case Layer(_, _) =>
      var dx, dy := 2 * q.x + d.length - t.length, 2 * q.y + d.width - t.width;
      dx * dx + dy * dy
    case _ => q.z
  }

  /** The floor finder's order: by `(x, y)` from the front, by `(-x, y)` from the back. */
  predicate FloorBefore(front: bool, a: Position, b: Position)
  {
    if front then ScanBefore(a, b) else a.x > b.x || (a.x == b.x && a.y < b.y)
  }

  /** `a` beats `b`. The floor finder sorts its candidates; the others keep
      a point only when its key is strictly smaller than the best so far, so
      of equal keys the first scanned wins. */
  predicate Preferred(t: Trailer, s: PalletState, scan: Scan, a: Position, b: Position)
  {
    if scan.Floor? then FloorBefore(scan.front, a, b)
    else
      var ka, kb := Key(t, s, scan, a), Key(t, s, scan, b);
      ka < kb || (ka == kb && ScanBefore(a, b))
  }

  /** `q` is the position the finder returns: a candidate no other candidate beats. */
  ghost predicate Best(t: Trailer, g: Picture, ls: seq<PalletState>, s: PalletState, scan: Scan, q: Position)
  {
    && Candidate(t, g, ls, s, scan, q)
    && forall q' :: Candidate(t, g, ls, s, scan, q') ==> !Preferred(t, s, scan, q', q)
  }

  /** The finders' common contract: the best candidate, or `None` exactly when there is none. */
  ghost predicate Finds(t: Trailer, g: Picture, ls: seq<PalletState>, s: PalletState, scan: Scan, r: Option<Position>)
  {
    && (r.Some? ==> Best(t, g, ls, s, scan, r.value))
    && (r.None? ==> forall q :: !Candidate(t, g, ls, s, scan, q))
  }

  // ---------------------------------------------------------------------
  // The keep-the-best scans (zone, band, layer)

  /** `r` is the best of the candidates scanned before the point `(x, y)`. */
  ghost predicate Covered(t: Trailer, g: Picture, ls: seq<PalletState>, s: PalletState, scan: Scan, r: Option<Position>, x: int, y: int)
  {
    && (r.Some? ==> Candidate(t, g, ls, s, scan, r.value) && ScannedBefore(r.value, x, y))
    && forall q :: Candidate(t, g, ls, s, scan, q) && ScannedBefore(q, x, y) ==> r.Some? && !Preferred(t, s, scan, q, r.value)
  }

  /** The height test at one grid point. */
  method LevelAt(t: Trailer, ghost g: Picture, s: PalletState, scan: Scan, x: int, y: int) returns (z: Option<int>)
    requires t.Shows(g)
    ensures z == Level(t, g, s, scan, x, y)
  {
    var d := s.Dimensions();
    match scan
    case Zone(_, _) =>
      if x < 0 || y < 0 {
        return None;
      }
      z := t.FindLowestAvailableHeight(x, y, d.length, d.width);
      t.SameLowest(g, x, y, d.length, d.width);
      if !(z.Some? && z.value + d.height <= t.height) {
        z := None;
      }
    case Layer(zs, lh) =>
      if x < 0 || y < 0 {
        return None;
      }
      z := t.FindLowestAvailableHeight(x, y, d.length, d.width);
      t.SameLowest(g, x, y, d.length, d.width);
      if !(z.Some? && z.value >= zs && z.value + d.height <= zs + lh) {
        z := None;
      }
    case _ =>
      z := Some(0);
  }

  /** Outside the floor scan, "beats" is a strict order. */
  lemma PreferredOrder(t: Trailer, s: PalletState, scan: Scan, a: Position, b: Position, c: Position)
    requires !scan.Floor?
    ensures !Preferred(t, s, scan, a, a)
    ensures Preferred(t, s, scan, a, b) && Preferred(t, s, scan, b, c) ==> Preferred(t, s, scan, a, c)
  {
  }

  /** The value a keep-the-best scan holds after the point `(x, y)`: a
      collision-free point at the probed height replaces the best so far
      only when its key is strictly smaller. */
  function Keep(t: Trailer, g: Picture, ls: seq<PalletState>, s: PalletState, scan: Scan, r: Option<Position>, x: int, y: int, z: Option<int>): Option<Position>
  {
    if z.Some? && !CollidesWithAny(s.WithPosition(Position(x, y, z.value)), ls)
       && (r.None? || Key(t, s, scan, Position(x, y, z.value)) < Key(t, s, scan, r.value))
    then Some(Position(x, y, z.value)) else r
  }

  /** One point of a keep-the-best scan keeps `Covered`. */
  lemma SearchStep(t: Trailer, g: Picture, ls: seq<PalletState>, s: PalletState, scan: Scan, r: Option<Position>, x: int, y: int, z: Option<int>)
    requires !scan.Floor?
    requires InScanRange(x, XStart(scan), XStop(t, s, scan))
    requires InScanRange(y, YStart(scan), YStop(t, s, scan))
    requires Covered(t, g, ls, s, scan, r, x, y)
    requires z == Level(t, g, s, scan, x, y)
    ensures Covered(t, g, ls, s, scan, Keep(t, g, ls, s, scan, r, x, y, z), x, y + Resolution)
  {
    var r' := Keep(t, g, ls, s, scan, r, x, y, z);
    if r' != r {
      assert Candidate(t, g, ls, s, scan, r'.value);
    }
    forall q | Candidate(t, g, ls, s, scan, q) && ScannedBefore(q, x, y + Resolution)
      ensures r'.Some? && !Preferred(t, s, scan, q, r'.value)
    {
      if ScannedBefore(q, x, y) {
        EarlierStaysBeaten(t, g, ls, s, scan, r, x, y, z, q);
      } else {
        ThisPointBeaten(t, g, ls, s, scan, r, x, y, z, q);
      }
    }
  }

  lemma EarlierStaysBeaten(t: Trailer, g: Picture, ls: seq<PalletState>, s: PalletState, scan: Scan, r: Option<Position>, x: int, y: int, z: Option<int>,
                           q: Position)
    requires !scan.Floor?
    requires Covered(t, g, ls, s, scan, r, x, y)
    requires Candidate(t, g, ls, s, scan, q) && ScannedBefore(q, x, y)
    ensures var r' := Keep(t, g, ls, s, scan, r, x, y, z); r'.Some? && !Preferred(t, s, scan, q, r'.value)
  {
    var r' := Keep(t, g, ls, s, scan, r, x, y, z);
    if r' != r {
      PreferredOrder(t, s, scan, q, r'.value, r.value);
    }
  }

  lemma ThisPointBeaten(t: Trailer, g: Picture, ls: seq<PalletState>, s: PalletState, scan: Scan, r: Option<Position>, x: int, y: int, z: Option<int>,
                        q: Position)
    requires !scan.Floor?
    requires InScanRange(y, YStart(scan), YStop(t, s, scan))
    requires Covered(t, g, ls, s, scan, r, x, y)
    requires z == Level(t, g, s, scan, x, y)
    requires Candidate(t, g, ls, s, scan, q) && ScannedBefore(q, x, y + Resolution) && !ScannedBefore(q, x, y)
    ensures var r' := Keep(t, g, ls, s, scan, r, x, y, z); r'.Some? && !Preferred(t, s, scan, q, r'.value)
  {
    SameGridPoint(q.y, y, YStart(scan));
    assert q.x == x && q.y == y;
    assert z == Some(q.z);
    var r' := Keep(t, g, ls, s, scan, r, x, y, z);
    if r' == Some(q) {
      PreferredOrder(t, s, scan, q, q, q);
    } else {
      assert r.Some? && Key(t, s, scan, q) >= Key(t, s, scan, r.value);
      assert ScannedBefore(r.value, x, y);
    }
  }

  /** The end of a row: every candidate of the row has been scanned. */
  lemma RowFinished(t: Trailer, g: Picture, ls: seq<PalletState>, s: PalletState, scan: Scan, r: Option<Position>, x: int, y: int)
    requires (x - XStart(scan)) % Resolution == 0
    requires y >= YStart(scan) && y >= YStop(t, s, scan)
    requires Covered(t, g, ls, s, scan, r, x, y)
    ensures Covered(t, g, ls, s, scan, r, x + Resolution, YStart(scan))
  {
    forall q | Candidate(t, g, ls, s, scan, q) && ScannedBefore(q, x + Resolution, YStart(scan))
      ensures ScannedBefore(q, x, y)
    {
      if q.x >= x {
        SameGridPoint(q.x, x, XStart(scan));
      }
    }
  }

  /** The end of the scan: every candidate has been scanned. */
  lemma ScanFinished(t: Trailer, g: Picture, ls: seq<PalletState>, s: PalletState, scan: Scan, r: Option<Position>, x: int)
    requires x >= XStop(t, s, scan)
    requires Covered(t, g, ls, s, scan, r, x, YStart(scan))
    ensures Finds(t, g, ls, s, scan, r)
  {
  }

  /** The scan loops of `_find_position_in_zone` (both strategies) and
      `_find_position_in_layer`. */
  method Search(t: Trailer, ghost g: Picture, s: PalletState, scan: Scan) returns (r: Option<Position>)
    requires !scan.Floor? && t.Shows(g)
    ensures Finds(t, g, t.Loaded(), s, scan, r)
  {
    ghost var ls := t.Loaded();
    r := None;
    var x := XStart(scan);
    ghost var k: nat := 0;
    while x < XStop(t, s, scan)
      invariant x == XStart(scan) + Resolution * k
      invariant Covered(t, g, ls, s, scan, r, x, YStart(scan))
    {
      OnGrid(x, XStart(scan), k);
      r := SearchRow(t, g, ls, s, scan, x, r);
      x := x + Resolution;
      k := k + 1;
    }
    ScanFinished(t, g, ls, s, scan, r, x);
  }

  /** The inner (y) loop of `Search`. */
  method SearchRow(t: Trailer, ghost g: Picture, ghost ls: seq<PalletState>, s: PalletState, scan: Scan, x: int, r0: Option<Position>) returns (r: Option<Position>)
    requires ls == t.Loaded() && t.Shows(g)
    requires !scan.Floor?
    requires InScanRange(x, XStart(scan), XStop(t, s, scan))
    requires Covered(t, g, ls, s, scan, r0, x, YStart(scan))
    ensures Covered(t, g, ls, s, scan, r, x + Resolution, YStart(scan))
  {
    r := r0;
    var y := YStart(scan);
    ghost var k: nat := 0;
    while y < YStop(t, s, scan)
      invariant y == YStart(scan) + Resolution * k
      invariant Covered(t, g, ls, s, scan, r, x, y)
    {
      OnGrid(y, YStart(scan), k);
      r := Visit(t, g, ls, s, scan, x, y, r);
      y := y + Resolution;
      k := k + 1;
    }
    RowFinished(t, g, ls, s, scan, r, x, y);
  }

  /** The body of the inner loop: the height test, then the key comparison,
      then the collision test. */
  method Visit(t: Trailer, ghost g: Picture, ghost ls: seq<PalletState>, s: PalletState, scan: Scan, x: int, y: int, r0: Option<Position>) returns (r: Option<Position>)
    requires ls == t.Loaded() && t.Shows(g)
    requires !scan.Floor?
    requires InScanRange(x, XStart(scan), XStop(t, s, scan))
    requires InScanRange(y, YStart(scan), YStop(t, s, scan))
    requires Covered(t, g, ls, s, scan, r0, x, y)
    ensures r == Keep(t, g, ls, s, scan, r0, x, y, Level(t, g, s, scan, x, y))
    ensures Covered(t, g, ls, s, scan, r, x, y + Resolution)
  {
    r := r0;
    var z := LevelAt(t, g, s, scan, x, y);
    if z.Some? {
      var at := Position(x, y, z.value);
      if r.None? || Key(t, s, scan, at) < Key(t, s, scan, r.value) {
        var c := t.CheckCollision(s.WithPosition(at));
        if !c {
          r := Some(at);
        }
      }
    }
    SearchStep(t, g, ls, s, scan, r0, x, y, z);
  }

  // ---------------------------------------------------------------------
  // The collect-and-sort scan of the floor

  /** The first element of `ps` in the floor order: what sorting the list
      by that key and taking its head yields, the keys of the list being distinct. */
  function Least(front: bool, ps: seq<Position>): (m: Position)
    requires ps != []
    ensures m in ps
    ensures forall q :: q in ps ==> !FloorBefore(front, q, m)
  {
    if |ps| == 1 then ps[0]
    else
      var m := Least(front, ps[1..]);
      assert forall q :: q in ps ==> q == ps[0] || q in ps[1..];
      if FloorBefore(front, ps[0], m) then ps[0] else m
  }

  /** One point of the floor scan: a collision-free point is appended. */
  lemma CollectStep(t: Trailer, g: Picture, ls: seq<PalletState>, s: PalletState, front: bool, ps: seq<Position>, next: seq<Position>, x: int, y: int)
    requires InScanRange(x, 0, XStop(t, s, Floor(front)))
    requires InScanRange(y, 0, YStop(t, s, Floor(front)))
    requires forall q :: q in ps <==> Candidate(t, g, ls, s, Floor(front), q) && ScannedBefore(q, x, y)
    requires next == if CollidesWithAny(s.WithPosition(Position(x, y, 0)), ls) then ps
                     else ps + [Position(x, y, 0)]
    ensures forall q :: q in next <==> Candidate(t, g, ls, s, Floor(front), q) && ScannedBefore(q, x, y + Resolution)
  {
    forall q | Candidate(t, g, ls, s, Floor(front), q) && ScannedBefore(q, x, y + Resolution) && !ScannedBefore(q, x, y)
      ensures q == Position(x, y, 0)
    {
      SameGridPoint(q.y, y, 0);
    }
  }

  /** `XYAxisLoading._find_best_position`: every collision-free grid point of
      the floor is collected, then the first in the floor order is returned. */
  method FindBestPosition(t: Trailer, ghost g: Picture, s: PalletState, front: bool) returns (r: Option<Position>)
    ensures Finds(t, g, t.Loaded(), s, Floor(front), r)
  {
    ghost var ls := t.Loaded();
    var ps: seq<Position> := [];
    var x := 0;
    while x < XStop(t, s, Floor(front))
      invariant x >= 0 && x % Resolution == 0
      invariant forall q :: q in ps <==> Candidate(t, g, ls, s, Floor(front), q) && q.x < x
    {
      ps := CollectRow(t, g, ls, s, front, x, ps);
      x := x + Resolution;
    }
    if ps == [] {
      return None;
    }
    r := Some(Least(front, ps));
  }

  /** The inner (y) loop of `FindBestPosition`. */
  method CollectRow(t: Trailer, ghost g: Picture, ghost ls: seq<PalletState>, s: PalletState, front: bool, x: int, ps0: seq<Position>) returns (ps: seq<Position>)
    requires ls == t.Loaded()
    requires InScanRange(x, 0, XStop(t, s, Floor(front)))
    requires forall q :: q in ps0 <==> Candidate(t, g, ls, s, Floor(front), q) && q.x < x
    ensures forall q :: q in ps <==> Candidate(t, g, ls, s, Floor(front), q) && q.x < x + Resolution
  {
    ps := ps0;
    var y := 0;
    while y < YStop(t, s, Floor(front))
      invariant y >= 0 && y % Resolution == 0
      invariant forall q :: q in ps <==> Candidate(t, g, ls, s, Floor(front), q) && ScannedBefore(q, x, y)
    {
      ghost var before := ps;
      var c := t.CheckCollision(s.WithPosition(Position(x, y, 0)));
      if !c {
        ps := ps + [Position(x, y, 0)];
      }
      CollectStep(t, g, ls, s, front, before, ps, x, y);
      y := y + Resolution;
    }
    forall q | Candidate(t, g, ls, s, Floor(front), q) && x <= q.x < x + Resolution
      ensures q.x == x && ScannedBefore(q, x, y)
    {
      SameGridPoint(q.x, x, 0);
    }
  }

  // ---------------------------------------------------------------------
  // The floor test of the zone choice

  /** The availability test of `_select_best_zone`: some collision-free floor
      point lies in the zone's (uncut) x range; the scan stops at the first. */
  method ZoneHasFloorSlot(t: Trailer, ghost g: Picture, s: PalletState, zone: nat, zoneLength: nat) returns (b: bool)
    ensures b <==> Room(t, g, t.Loaded(), s, ZoneFloor(zone, zoneLength))
  {
    ghost var ls := t.Loaded();
    var scan := ZoneFloor(zone, zoneLength);
    var x := XStart(scan);
    ghost var k: nat := 0;
    while x < XStop(t, s, scan)
      invariant x == XStart(scan) + Resolution * k
      invariant forall q :: Candidate(t, g, ls, s, scan, q) ==> q.x >= x
    {
      OnGrid(x, XStart(scan), k);
      b := RowHasFloorSlot(t, g, ls, s, scan, x);
      if b {
        return;
      }
      RowHasNoFloorSlot(t, g, ls, s, scan, x);
      x := x + Resolution;
      k := k + 1;
    }
    return false;
  }

  /** The inner (y) loop of `ZoneHasFloorSlot`: the row `x` has a collision-free floor point. */
  method RowHasFloorSlot(t: Trailer, ghost g: Picture, ghost ls: seq<PalletState>, s: PalletState, scan: Scan, x: int) returns (b: bool)
    requires ls == t.Loaded()
    requires scan.ZoneFloor?
    requires InScanRange(x, XStart(scan), XStop(t, s, scan))
    requires forall q :: Candidate(t, g, ls, s, scan, q) ==> q.x >= x
    ensures b ==> exists q :: Candidate(t, g, ls, s, scan, q)
    ensures !b ==> forall q :: Candidate(t, g, ls, s, scan, q) ==> q.x != x
  {
    var y := 0;
    ghost var k: nat := 0;
    while y < YStop(t, s, scan)
      invariant y == Resolution * k
      invariant forall q :: Candidate(t, g, ls, s, scan, q) ==> !ScannedBefore(q, x, y)
    {
      OnGrid(y, 0, k);
      var c := t.CheckCollision(s.WithPosition(Position(x, y, 0)));
      if !c {
        assert Candidate(t, g, ls, s, scan, Position(x, y, 0));
        return true;
      }
      FloorPointTaken(t, g, ls, s, scan, x, y);
      y := y + Resolution;
      k := k + 1;
    }
    return false;
  }

  /** A floor point that collides is no candidate, and no other candidate lies between it and the next. */
  lemma FloorPointTaken(t: Trailer, g: Picture, ls: seq<PalletState>, s: PalletState, scan: Scan, x: int, y: int)
    requires scan.ZoneFloor?
    requires y % Resolution == 0
    requires CollidesWithAny(s.WithPosition(Position(x, y, 0)), ls)
    requires forall q :: Candidate(t, g, ls, s, scan, q) ==> !ScannedBefore(q, x, y)
    ensures forall q :: Candidate(t, g, ls, s, scan, q) ==> !ScannedBefore(q, x, y + Resolution)
  {
    forall q | Candidate(t, g, ls, s, scan, q)
      ensures !ScannedBefore(q, x, y + Resolution)
    {
      if q.x == x && y <= q.y < y + Resolution {
        SameGridPoint(q.y, y, 0);
        assert false;
      }
    }
  }

  /** A row without candidates: every candidate lies beyond it. */
  lemma RowHasNoFloorSlot(t: Trailer, g: Picture, ls: seq<PalletState>, s: PalletState, scan: Scan, x: int)
    requires (x - XStart(scan)) % Resolution == 0
    requires forall q :: Candidate(t, g, ls, s, scan, q) ==> q.x >= x && q.x != x
    ensures forall q :: Candidate(t, g, ls, s, scan, q) ==> q.x >= x + Resolution
  {
    forall q | Candidate(t, g, ls, s, scan, q)
      ensures q.x >= x + Resolution
    {
      if q.x < x + Resolution {
        SameGridPoint(q.x, x, XStart(scan));
        assert false;
      }
    }
  }

  /** The finder a strategy runs for `scan`. */
  method Find(t: Trailer, ghost g: Picture, s: PalletState, scan: Scan) returns (r: Option<Position>)
    requires !scan.ZoneFloor? && t.Shows(g)
    ensures Finds(t, g, t.Loaded(), s, scan, r)
  {
    ghost var ls := t.Loaded();
    if scan.Floor? {
      r := FindBestPosition(t, g, s, scan.front);
    } else {
      r := Search(t, g, s, scan);
    }
  }
}
