/** The trailer: its fixed dimensions and capacity, the list of loaded
    pallets, a coarse occupancy grid at 100 mm per cell, and the weight
    accumulators for the four halves of the floor. */
module Container {
  import opened Wrappers
  import opened Cargo

  /** Millimetres per grid cell. */
  const Resolution: int := 100

  /** The standard trailer of the configuration (mm and kg). */
  const DefaultLength: int := 13600
  const DefaultWidth: int := 2450
  const DefaultHeight: int := 2700
  const DefaultMaxLoad: int := 24000

  /** Allowed deviation of a balance ratio from its target. */
  const WeightDistributionThreshold: real := 0.1
  /** Target share of the weight on the front half. */
  const FrontToBackTarget: real := 0.6

  /** Cells along an axis of extent `n`: `n // resolution + 1` (Dafny's `/`
      with a positive divisor is Python's floor division). */
  function GridSize(n: int): int { n / Resolution + 1 }

  /** A bound of a Python slice resolved against an axis of `n` cells:
      a negative bound counts from the end, and the result is cut to `0..n`. */
  function SliceBound(b: int, n: nat): (r: nat)
    ensures r <= n
    ensures 0 <= b <= n ==> r == b
  {
    if b < 0 then (if b + n < 0 then 0 else b + n)
    else if b > n then n
    else b
  }

  /** Along one axis, `_update_space_map` writes the cells from
      `pos // res` to `min((pos + len) // res + 1, n)`, as a slice. */
  predicate AxisMarks(pos: int, len: int, n: nat, i: int)
  {
    var e := (pos + len) / Resolution + 1;
    SliceBound(pos / Resolution, n) <= i < SliceBound(if e < n then e else n, n)
  }

  /** `v` is one of the values of Python's `range(start, stop, 100)`. */
  predicate InScanRange(v: int, start: int, stop: int)
  {
    start <= v < stop && (v - start) % Resolution == 0
  }

  // ---------------------------------------------------------------------
  // Weight accumulators

  /** The `weight_distribution` record; the source keeps these as floats
      holding sums of integer weights. */
  datatype Weights = Weights(left: int, right: int, front: int, back: int, total: int)

  const NoWeight := Weights(0, 0, 0, 0, 0)

  /** The footprint centre lies on the left half: `y + w/2 < width/2`. */
  predicate OnLeft(s: PalletState, width: int)
  {
    2 * s.position.y + s.Dimensions().width < width
  }

  /** The footprint centre lies on the front half: `x + l/2 < length/2`. */
  predicate AtFront(s: PalletState, length: int)
  {
    2 * s.position.x + s.Dimensions().length < length
  }

  /** One step of `_update_weight_distribution`: the pallet's total weight
      goes to its side, to its end and to the total. */
  function Credit(d: Weights, s: PalletState, length: int, width: int): Weights
  {
    var w := s.spec.TotalWeight();
    Weights(
      d.left + (if OnLeft(s, width) then w else 0),
      d.right + (if OnLeft(s, width) then 0 else w),
      d.front + (if AtFront(s, length) then w else 0),
      d.back + (if AtFront(s, length) then 0 else w),
      d.total + w)
  }

  /** The accumulators after crediting every pallet in list order. */
  function Distribute(ls: seq<PalletState>, length: int, width: int): Weights
  {
    if ls == [] then NoWeight
    else Credit(Distribute(ls[..|ls| - 1], length, width), ls[|ls| - 1], length, width)
  }

  /** `_current_load`: the sum of the total weights. */
  function TotalLoad(ls: seq<PalletState>): int
  {
    if ls == [] then 0 else TotalLoad(ls[..|ls| - 1]) + ls[|ls| - 1].spec.TotalWeight()
  }

  /** The sum of the volumes. */
  function TotalVolume(ls: seq<PalletState>): int
  {
    if ls == [] then 0 else TotalVolume(ls[..|ls| - 1]) + ls[|ls| - 1].spec.Volume()
  }

  /** Side balance: the right half's share, 0.5 when nothing is loaded on either side. */
  function SideBalance(d: Weights): real
  {
    var total := d.left + d.right;
    if total == 0 then 0.5 else d.right as real / total as real
  }

  /** Front/back balance: the front half's share, 0.0 when nothing is loaded. */
  function FrontBackBalance(d: Weights): real
  {
    var total := d.front + d.back;
    if total == 0 then 0.0 else d.front as real / total as real
  }

  function Abs(r: real): real { if r < 0.0 then -r else r }

  datatype BalanceValidity = BalanceValidity(sideBalanced: bool, frontBackBalanced: bool, overallValid: bool)

  /** `is_weight_distribution_valid`: each ratio within the threshold of its target. */
  function BalanceCheck(d: Weights): (v: BalanceValidity)
    ensures v.sideBalanced <==> -WeightDistributionThreshold <= SideBalance(d) - 0.5 <= WeightDistributionThreshold
    ensures v.frontBackBalanced <==>
              -WeightDistributionThreshold <= FrontBackBalance(d) - FrontToBackTarget <= WeightDistributionThreshold
    ensures v.overallValid <==> v.sideBalanced && v.frontBackBalanced
  {
    var side := Abs(SideBalance(d) - 0.5) <= WeightDistributionThreshold;
    var frontBack := Abs(FrontBackBalance(d) - FrontToBackTarget) <= WeightDistributionThreshold;
    BalanceValidity(side, frontBack, side && frontBack)
  }

  /** The record `get_loading_efficiency` returns. */
  datatype Efficiency = Efficiency(
    spaceUtilization: real,
    weightUtilization: real,
    palletsLoaded: int,
    palletsPerCubicMeter: real,
    weightBalanceSide: real,
    weightBalanceFrontBack: real)

  // ---------------------------------------------------------------------
  // Geometry against the loaded list

  /** `s` collides with some box of `ls`. */
  predicate CollidesWithAny(s: PalletState, ls: seq<PalletState>)
  {
    exists i :: 0 <= i < |ls| && Collides(s, ls[i])
  }

  /** No two distinct entries of the list collide. */
  predicate NoOverlap(ls: seq<PalletState>)
  {
    forall i, j :: 0 <= i < |ls| && 0 <= j < |ls| && i != j ==> !Collides(ls[i], ls[j])
  }

  /** Snapshots of the pallets of a list, in order. */
  function States(ps: seq<Pallet>): (ls: seq<PalletState>)
    reads ps
    ensures |ls| == |ps| && forall i :: 0 <= i < |ps| ==> ls[i] == ps[i].State()
  {
    seq(|ps|, i requires 0 <= i < |ps| reads ps => ps[i].State())
  }

  /** Index of the first pallet with the given id, or `|ps|` if none has it. */
  function IndexOfId(ps: seq<Pallet>, id: string): (i: nat)
    ensures i <= |ps|
    ensures i < |ps| ==> ps[i].spec.id == id
    ensures forall k :: 0 <= k < i ==> ps[k].spec.id != id
  {
    if ps == [] then 0
    else if ps[0].spec.id == id then 0
    else 1 + IndexOfId(ps[1..], id)
  }

  /** `(x, y)` comes strictly before `(x', y')` in the x-major scan order. */
  predicate ScanBefore(a: Position, b: Position)
  {
    a.x < b.x || (a.x == b.x && a.y < b.y)
  }

  /** `q` lies before the scan point `(x, y)`. */
  predicate ScannedBefore(q: Position, x: int, y: int)
  {
    q.x < x || (q.x == x && q.y < y)
  }

  /** The positions are listed in strictly increasing scan order. */
  predicate ScanOrdered(ps: seq<Position>)
  {
    forall i, j :: 0 <= i < j < |ps| ==> ScanBefore(ps[i], ps[j])
  }

  /** A value copy of an occupancy grid of `n0` by `n1` by `n2` cells: the
      cells `start` held when the copy was taken, then the cells of each box
      of `stamped`, in order, set to 1 as `add_pallet` writes them. */
  datatype Picture = Picture(n0: nat, n1: nat, n2: nat, start: seq<seq<seq<int>>>, stamped: seq<PalletState>)
  {
    /** The copy once the boxes `boxes` are written as well. */
    function Then(boxes: seq<PalletState>): Picture
    {
      Picture(n0, n1, n2, start, stamped + boxes)
    }

    /** The cells `_update_space_map` writes for the box `s` on this grid. */
    predicate Covers(s: PalletState, i: int, j: int, k: int)
    {
      var d := s.Dimensions();
      && AxisMarks(s.position.x, d.length, n0, i)
      && AxisMarks(s.position.y, d.width, n1, j)
      && AxisMarks(s.position.z, d.height, n2, k)
    }

    /** The value of the cell `(i, j, k)`. */
    function Cell(i: int, j: int, k: int): int
      decreases |stamped|
    {
      if stamped == [] then
        if 0 <= i < |start| && 0 <= j < |start[i]| && 0 <= k < |start[i][j]| then start[i][j][k] else 0
      else if Covers(stamped[|stamped| - 1], i, j, k) then 1
      else Picture(n0, n1, n2, start, stamped[..|stamped| - 1]).Cell(i, j, k)
    }

    /** Writing one more box sets its cells to 1 and keeps every other cell. */
    lemma ThenCell(s: PalletState, i: int, j: int, k: int)
      ensures Then([s]).Cell(i, j, k) == if Covers(s, i, j, k) then 1 else Cell(i, j, k)
    {
      assert (stamped + [s])[..|stamped|] == stamped;
    }

    /** One plus the highest occupied level of column `(i, j)` below `n`, or 0. */
    function ColumnTop(i: int, j: int, n: int): (top: nat)
      requires n >= 0
      ensures top <= n
      decreases n
    {
      if n == 0 then 0
      else if Cell(i, j, n - 1) == 1 then n
      else ColumnTop(i, j, n - 1)
    }

    /** The largest column top over the cells `(i, ys) .. (i, ye - 1)`. */
    function RowTop(i: int, ys: int, ye: int): (top: nat)
      ensures top <= n2
      decreases ye - ys
    {
      if ye <= ys then 0
      else
        var rest := RowTop(i, ys, ye - 1);
        var column := ColumnTop(i, ye - 1, n2);
        if column > rest then column else rest
    }

    /** The largest column top over the rectangle `xs .. xe - 1` by `ys .. ye - 1`. */
    function RectTop(xs: int, xe: int, ys: int, ye: int): (top: nat)
      ensures top <= n2
      decreases xe - xs
    {
      if xe <= xs then 0
      else
        var rest := RectTop(xs, xe - 1, ys, ye);
        var row := RowTop(xe - 1, ys, ye);
        if row > rest then row else rest
    }

    /** `_find_lowest_available_height` on this grid. */
    function Lowest(x: int, y: int, l: int, w: int): Option<int>
    {
      var xe, ye := (x + l) / Resolution + 1, (y + w) / Resolution + 1;
      if xe >= n0 || ye >= n1 then None
      else Some(Resolution * RectTop(x / Resolution, xe, y / Resolution, ye))
    }
  }

  class Trailer {
    const length: int
    const width: int
    const height: int
    const maxLoad: int
    var loaded: seq<Pallet>
    var spaceMap: array3<int>
    var distribution: Weights

    /** Non-negative dimensions, and a grid of `dim // res + 1` cells along each axis. */
    ghost predicate Valid()
      reads this`spaceMap
    {
      && length >= 0 && width >= 0 && height >= 0
      && spaceMap.Length0 == GridSize(length)
      && spaceMap.Length1 == GridSize(width)
      && spaceMap.Length2 == GridSize(height)
    }

    /** Every cell of the grid is free. */
    predicate GridClear()
      reads this`spaceMap, spaceMap
    {
      forall i, j, k :: 0 <= i < spaceMap.Length0 && 0 <= j < spaceMap.Length1 && 0 <= k < spaceMap.Length2 ==>
        spaceMap[i, j, k] == 0
    }

    /** `Trailer(length, width, height, max_load)`: an empty list, a free grid
        and zero weights. */
    constructor (length: int, width: int, height: int, maxLoad: int)
      requires length >= 0 && width >= 0 && height >= 0
      ensures this.length == length && this.width == width && this.height == height && this.maxLoad == maxLoad
      ensures Valid() && fresh(spaceMap) && GridClear()
      ensures loaded == [] && distribution == NoWeight
    {
      this.length := length;
      this.width := width;
      this.height := height;
      this.maxLoad := maxLoad;
      loaded := [];
      spaceMap := new int[GridSize(length), GridSize(width), GridSize(height)]((i, j, k) => 0);
      distribution := NoWeight;
    }

    /** The loaded pallets as they stand now. */
    function Loaded(): seq<PalletState>
      reads this`loaded, loaded
    {
      States(loaded)
    }

    /** `_current_load`. */
    function CurrentLoad(): int
      reads this`loaded, loaded
    {
      TotalLoad(Loaded())
    }

    /** `_check_bounds`: the box lies inside the trailer on all three axes. */
    predicate Fits(s: PalletState)
    {
      var d := s.Dimensions();
      && 0 <= s.position.x && s.position.x + d.length <= length
      && 0 <= s.position.y && s.position.y + d.width <= width
      && 0 <= s.position.z && s.position.z + d.height <= height
    }

    /** The invariant `add_pallet` maintains: no overlap, all in bounds, capacity respected. */
    predicate Consistent(ls: seq<PalletState>)
    {
      && NoOverlap(ls)
      && (forall i :: 0 <= i < |ls| ==> Fits(ls[i]))
      && TotalLoad(ls) <= maxLoad
    }

    /** The grid cells `_update_space_map` writes for the box `s`. */
    predicate Marks(s: PalletState, i: int, j: int, k: int)
      reads this`spaceMap
    {
      var d := s.Dimensions();
      && AxisMarks(s.position.x, d.length, spaceMap.Length0, i)
      && AxisMarks(s.position.y, d.width, spaceMap.Length1, j)
      && AxisMarks(s.position.z, d.height, spaceMap.Length2, k)
    }

    /** `_check_collision`: the first loaded pallet the box collides with ends the search. */
    method CheckCollision(s: PalletState) returns (c: bool)
      ensures c <==> CollidesWithAny(s, Loaded())
    {
      var i := 0;
      while i < |loaded|
        invariant 0 <= i <= |loaded|
        invariant forall k :: 0 <= k < i ==> !Collides(s, loaded[k].State())
      {
        if Collides(s, loaded[i].State()) {
          assert Collides(s, Loaded()[i]);
          return true;
        }
        i := i + 1;
      }
      return false;
    }

    /** `_update_space_map`: writes `value` into the box's cells and leaves every other cell alone. */
    method UpdateSpaceMap(s: PalletState, value: int)
      requires Valid()
      modifies spaceMap
      ensures forall i, j, k :: 0 <= i < spaceMap.Length0 && 0 <= j < spaceMap.Length1 && 0 <= k < spaceMap.Length2 ==>
                spaceMap[i, j, k] == if Marks(s, i, j, k) then value else old(spaceMap[i, j, k])
    {
      forall i, j, k | 0 <= i < spaceMap.Length0 && 0 <= j < spaceMap.Length1 && 0 <= k < spaceMap.Length2
        && Marks(s, i, j, k)
      {
        spaceMap[i, j, k] := value;
      }
    }

    /** `_update_weight_distribution`: the accumulators are rebuilt from the list. */
    method UpdateWeightDistribution()
      modifies this`distribution
      ensures distribution == Distribute(Loaded(), length, width)
    {
      distribution := NoWeight;
      var i := 0;
      while i < |loaded|
        invariant 0 <= i <= |loaded|
        invariant distribution == Distribute(Loaded()[..i], length, width)
      {
        assert Loaded()[..i + 1][..i] == Loaded()[..i];
        distribution := Credit(distribution, loaded[i].State(), length, width);
        i := i + 1;
      }
      assert Loaded()[..i] == Loaded();
    }

    /** `add_pallet`: all three checks come before any change, so a refused
        pallet leaves the list, the grid and the weights as they were. */
    method AddPallet(p: Pallet) returns (ok: bool)
      requires Valid()
      modifies this`loaded, this`distribution, spaceMap
      ensures Valid()
      ensures ok <==> && Fits(p.State())
                      && !CollidesWithAny(p.State(), old(Loaded()))
                      && old(CurrentLoad()) + p.spec.TotalWeight() <= maxLoad
      ensures ok ==> loaded == old(loaded) + [p] && Loaded() == old(Loaded()) + [p.State()]
      ensures ok ==> distribution == Distribute(Loaded(), length, width)
      ensures ok ==> forall i, j, k :: 0 <= i < spaceMap.Length0 && 0 <= j < spaceMap.Length1 && 0 <= k < spaceMap.Length2 ==>
                       spaceMap[i, j, k] == if Marks(p.State(), i, j, k) then 1 else old(spaceMap[i, j, k])
      ensures !ok ==> loaded == old(loaded) && distribution == old(distribution) && unchanged(spaceMap)
      ensures old(Consistent(Loaded())) ==> Consistent(Loaded())
    {
      if !Fits(p.State()) {
        return false;
      }
      var c := CheckCollision(p.State());
      if c {
        return false;
      }
      if CurrentLoad() + p.spec.TotalWeight() > maxLoad {
        return false;
      }
      ghost var before := Loaded();
      UpdateSpaceMap(p.State(), 1);
      assert Loaded() == before;
      loaded := loaded + [p];
      ghost var after := before + [p.State()];
      assert Loaded() == after;
      UpdateWeightDistribution();
      assert Loaded() == after;
      if Consistent(before) {
        AddKeepsConsistent(before, p.State());
      }
      return true;
    }

    /** `remove_pallet`: the first pallet with the id leaves the list, its
        cells are freed and the weights are rebuilt; an unknown id changes nothing. */
    method RemovePallet(id: string) returns (ok: bool)
      requires Valid()
      modifies this`loaded, this`distribution, spaceMap
      ensures Valid()
      ensures ok <==> exists i :: 0 <= i < |old(loaded)| && old(loaded)[i].spec.id == id
      ensures ok ==> var i := IndexOfId(old(loaded), id);
                     && loaded == old(loaded)[..i] + old(loaded)[i + 1..]
                     && distribution == Distribute(Loaded(), length, width)
                     && forall a, b, c :: 0 <= a < spaceMap.Length0 && 0 <= b < spaceMap.Length1 && 0 <= c < spaceMap.Length2 ==>
                          spaceMap[a, b, c] == if Marks(old(loaded)[i].State(), a, b, c) then 0 else old(spaceMap[a, b, c])
      ensures !ok ==> loaded == old(loaded) && distribution == old(distribution) && unchanged(spaceMap)
      ensures old(Consistent(Loaded())) && (forall k :: 0 <= k < |old(loaded)| ==> old(loaded)[k].spec.TotalWeight() >= 0)
              ==> Consistent(Loaded())
    {
      var i := 0;
      while i < |loaded|
        invariant 0 <= i <= |loaded|
        invariant forall k :: 0 <= k < i ==> loaded[k].spec.id != id
      {
        if loaded[i].spec.id == id {
          break;
        }
        i := i + 1;
      }
      if i == |loaded| {
        return false;
      }
      IndexOfIdFirst(loaded, id, i);
      RemoveAt(i);
      return true;
    }

    /** The body of `remove_pallet` once the pallet is found at index `i`:
        free its cells, drop it from the list, rebuild the weights. */
    method RemoveAt(i: nat)
      requires Valid() && i < |loaded|
      modifies this`loaded, this`distribution, spaceMap
      ensures Valid()
      ensures loaded == old(loaded)[..i] + old(loaded)[i + 1..]
      ensures distribution == Distribute(Loaded(), length, width)
      ensures forall a, b, c :: 0 <= a < spaceMap.Length0 && 0 <= b < spaceMap.Length1 && 0 <= c < spaceMap.Length2 ==>
                spaceMap[a, b, c] == if Marks(old(loaded)[i].State(), a, b, c) then 0 else old(spaceMap[a, b, c])
      ensures old(Consistent(Loaded())) && old(loaded)[i].spec.TotalWeight() >= 0 ==> Consistent(Loaded())
    {
      ghost var before := Loaded();
      UpdateSpaceMap(loaded[i].State(), 0);
      assert Loaded() == before;
      loaded := loaded[..i] + loaded[i + 1..];
      ghost var after := before[..i] + before[i + 1..];
      assert Loaded() == after;
      UpdateWeightDistribution();
      assert Loaded() == after;
      if Consistent(before) && before[i].spec.TotalWeight() >= 0 {
        RemoveKeepsConsistent(before, i);
      }
    }

    /** `reset`: an empty list, a fresh all-free grid and zero weights. */
    method Reset()
      requires Valid()
      modifies this`loaded, this`spaceMap, this`distribution
      ensures Valid() && fresh(spaceMap) && GridClear()
      ensures loaded == [] && distribution == NoWeight
    {
      loaded := [];
      spaceMap := new int[GridSize(length), GridSize(width), GridSize(height)]((i, j, k) => 0);
      distribution := NoWeight;
    }

    /** One plus the highest occupied level of column `(i, j)` below `n`, or 0
        when the column is free there: `np.where(column == 1)[0][-1] + 1`. */
    function ColumnTop(i: int, j: int, n: int): (top: nat)
      requires 0 <= i < spaceMap.Length0 && 0 <= j < spaceMap.Length1 && 0 <= n <= spaceMap.Length2
      reads this`spaceMap, spaceMap
      ensures top <= n
      decreases n
    {
      if n == 0 then 0
      else if spaceMap[i, j, n - 1] == 1 then n
      else ColumnTop(i, j, n - 1)
    }

    /** The largest column top over the cells `(i, ys) .. (i, ye - 1)`. */
    function RowTop(i: int, ys: int, ye: int): (top: nat)
      requires 0 <= i < spaceMap.Length0 && 0 <= ys && (ye <= ys || ye <= spaceMap.Length1)
      reads this`spaceMap, spaceMap
      ensures top <= spaceMap.Length2
      decreases ye - ys
    {
      if ye <= ys then 0
      else
        var rest := RowTop(i, ys, ye - 1);
        var column := ColumnTop(i, ye - 1, spaceMap.Length2);
        if column > rest then column else rest
    }

    /** The largest column top over the rectangle `xs .. xe - 1` by `ys .. ye - 1`. */
    function RectTop(xs: int, xe: int, ys: int, ye: int): (top: nat)
      requires 0 <= xs && (xe <= xs || xe <= spaceMap.Length0) && 0 <= ys && (ye <= ys || ye <= spaceMap.Length1)
      reads this`spaceMap, spaceMap
      ensures top <= spaceMap.Length2
      decreases xe - xs
    {
      if xe <= xs then 0
      else
        var rest := RectTop(xs, xe - 1, ys, ye);
        var row := RowTop(xe - 1, ys, ye);
        if row > rest then row else rest
    }

    /** A column top lies above every occupied cell of the column and, when
        positive, sits on an occupied cell. */
    lemma {:induction false} ColumnTopIsHighest(i: int, j: int, n: int)
      requires 0 <= i < spaceMap.Length0 && 0 <= j < spaceMap.Length1 && 0 <= n <= spaceMap.Length2
      ensures forall k :: 0 <= k < n && spaceMap[i, j, k] == 1 ==> k < ColumnTop(i, j, n)
      ensures ColumnTop(i, j, n) > 0 ==> spaceMap[i, j, ColumnTop(i, j, n) - 1] == 1
      decreases n
    {
      if n > 0 && spaceMap[i, j, n - 1] != 1 {
        ColumnTopIsHighest(i, j, n - 1);
      }
    }

    /** A row top bounds the tops of the row's columns and, when positive, is one of them. */
    lemma {:induction false} RowTopIsHighest(i: int, ys: int, ye: int)
      requires 0 <= i < spaceMap.Length0 && 0 <= ys && (ye <= ys || ye <= spaceMap.Length1)
      ensures forall j :: ys <= j < ye ==> ColumnTop(i, j, spaceMap.Length2) <= RowTop(i, ys, ye)
      ensures RowTop(i, ys, ye) > 0 ==> exists j :: ys <= j < ye && ColumnTop(i, j, spaceMap.Length2) == RowTop(i, ys, ye)
      decreases ye - ys
    {
      if ye > ys {
        RowTopIsHighest(i, ys, ye - 1);
      }
    }

    /** A rectangle top bounds the tops of its columns and, when positive, is one of them. */
    lemma {:induction false} RectTopIsHighest(xs: int, xe: int, ys: int, ye: int)
      requires 0 <= xs && (xe <= xs || xe <= spaceMap.Length0) && 0 <= ys && (ye <= ys || ye <= spaceMap.Length1)
      ensures forall i, j :: xs <= i < xe && ys <= j < ye ==> ColumnTop(i, j, spaceMap.Length2) <= RectTop(xs, xe, ys, ye)
      ensures RectTop(xs, xe, ys, ye) > 0 ==>
                exists i, j :: xs <= i < xe && ys <= j < ye && ColumnTop(i, j, spaceMap.Length2) == RectTop(xs, xe, ys, ye)
      decreases xe - xs
    {
      if xe > xs {
        RectTopIsHighest(xs, xe - 1, ys, ye);
        RowTopIsHighest(xe - 1, ys, ye);
      }
    }

    /** What `_find_lowest_available_height` returns for a footprint at `(x, y)`. */
    function LowestHeight(x: int, y: int, l: int, w: int): Option<int>
      requires x >= 0 && y >= 0
      reads this`spaceMap, spaceMap
    {
      var xe, ye := (x + l) / Resolution + 1, (y + w) / Resolution + 1;
      if xe >= spaceMap.Length0 || ye >= spaceMap.Length1 then None
      else Some(Resolution * RectTop(x / Resolution, xe, y / Resolution, ye))
    }

    /** `_find_lowest_available_height` gives `None` exactly when a far grid
        index of the footprint reaches the grid edge; otherwise a non-negative
        multiple of the resolution that is the top of the highest occupied cell
        under the footprint, and 0 when none is occupied. */
    lemma LowestHeightIsHighestOccupied(x: int, y: int, l: int, w: int)
      requires x >= 0 && y >= 0
      ensures var xe, ye := (x + l) / Resolution + 1, (y + w) / Resolution + 1;
        LowestHeight(x, y, l, w).None? <==> xe >= spaceMap.Length0 || ye >= spaceMap.Length1
      ensures var r := LowestHeight(x, y, l, w);
        r.Some? ==> r.value >= 0 && r.value % Resolution == 0
      ensures var r, xe, ye := LowestHeight(x, y, l, w), (x + l) / Resolution + 1, (y + w) / Resolution + 1;
        r.Some? ==> forall i, j, k ::
                      (x / Resolution <= i < xe && y / Resolution <= j < ye && 0 <= k < spaceMap.Length2
                       && spaceMap[i, j, k] == 1) ==> Resolution * (k + 1) <= r.value
      ensures var r, xe, ye := LowestHeight(x, y, l, w), (x + l) / Resolution + 1, (y + w) / Resolution + 1;
        r.Some? && r.value > 0 ==>
          exists i, j :: x / Resolution <= i < xe && y / Resolution <= j < ye
                         && Resolution * ColumnTop(i, j, spaceMap.Length2) == r.value
      ensures var r, xe, ye := LowestHeight(x, y, l, w), (x + l) / Resolution + 1, (y + w) / Resolution + 1;
        r.Some? ==> (r.value == 0 <==> forall i, j, k ::
                                         (x / Resolution <= i < xe && y / Resolution <= j < ye
                                          && 0 <= k < spaceMap.Length2) ==> spaceMap[i, j, k] != 1)
    {
      var xe, ye := (x + l) / Resolution + 1, (y + w) / Resolution + 1;
      if xe < spaceMap.Length0 && ye < spaceMap.Length1 {
        var xs, ys := x / Resolution, y / Resolution;
        RectTopIsHighest(xs, xe, ys, ye);
        var top := RectTop(xs, xe, ys, ye);
        forall i, j, k | xs <= i < xe && ys <= j < ye && 0 <= k < spaceMap.Length2 && spaceMap[i, j, k] == 1
          ensures Resolution * (k + 1) <= Resolution * top
        {
          ColumnTopIsHighest(i, j, spaceMap.Length2);
          assert k < ColumnTop(i, j, spaceMap.Length2) <= top;
        }
        if top > 0 {
          var i, j :| xs <= i < xe && ys <= j < ye && ColumnTop(i, j, spaceMap.Length2) == top;
          ColumnTopIsHighest(i, j, spaceMap.Length2);
          assert spaceMap[i, j, top - 1] == 1;
        }
      }
    }

    /** `_find_lowest_available_height`: the top of the highest occupied cell
        under the footprint, scanned column by column. */
    method FindLowestAvailableHeight(x: int, y: int, l: int, w: int) returns (r: Option<int>)
      requires x >= 0 && y >= 0
      ensures r == LowestHeight(x, y, l, w)
    {
      var xStart, yStart := x / Resolution, y / Resolution;
      var xEnd, yEnd := (x + l) / Resolution + 1, (y + w) / Resolution + 1;
      if xEnd >= spaceMap.Length0 || yEnd >= spaceMap.Length1 {
        return None;
      }
      var maxHeight := 0;
      var xi := xStart;
      while xi < xEnd
        invariant xStart <= xi && (xi <= xEnd || xi == xStart)
        invariant maxHeight == Resolution * RectTop(xStart, xi, yStart, yEnd)
      {
        var yi := yStart;
        var rest := RectTop(xStart, xi, yStart, yEnd);
        while yi < yEnd
          invariant yStart <= yi && (yi <= yEnd || yi == yStart)
          invariant var row := RowTop(xi, yStart, yi); maxHeight == Resolution * (if row > rest then row else rest)
        {
          var top := ColumnTop(xi, yi, spaceMap.Length2);
          if top > 0 {
            var blockHeight := top * Resolution;
            maxHeight := if blockHeight > maxHeight then blockHeight else maxHeight;
          }
          yi := yi + 1;
        }
        xi := xi + 1;
      }
      return Some(maxHeight);
    }

    /** `g` is a copy of the grid as it stands. */
    ghost predicate Shows(g: Picture)
      reads this`spaceMap, spaceMap
    {
      && g.n0 == spaceMap.Length0 && g.n1 == spaceMap.Length1 && g.n2 == spaceMap.Length2
      && forall i, j, k :: 0 <= i < spaceMap.Length0 && 0 <= j < spaceMap.Length1 && 0 <= k < spaceMap.Length2 ==>
           spaceMap[i, j, k] == g.Cell(i, j, k)
    }

    /** A copy of the grid as it stands, with nothing written on top. */
    ghost function Snapshot(): (g: Picture)
      reads this`spaceMap, spaceMap
      ensures Shows(g) && g.stamped == []
    {
      var m := spaceMap;
      Picture(m.Length0, m.Length1, m.Length2,
              seq(m.Length0, i requires 0 <= i < m.Length0 reads m =>
                seq(m.Length1, j requires 0 <= j < m.Length1 reads m =>
                  seq(m.Length2, k requires 0 <= k < m.Length2 reads m => m[i, j, k]))),
              [])
    }

    /** On a copy of the grid, the lowest available height is the one the grid gives. */
    lemma SameLowest(g: Picture, x: int, y: int, l: int, w: int)
      requires Shows(g) && x >= 0 && y >= 0
      ensures LowestHeight(x, y, l, w) == g.Lowest(x, y, l, w)
    {
      var xe, ye := (x + l) / Resolution + 1, (y + w) / Resolution + 1;
      if xe < spaceMap.Length0 && ye < spaceMap.Length1 {
        SameRectTop(g, x / Resolution, xe, y / Resolution, ye);
      }
    }

    lemma {:induction false} SameRectTop(g: Picture, xs: int, xe: int, ys: int, ye: int)
      requires Shows(g)
      requires 0 <= xs && (xe <= xs || xe <= spaceMap.Length0) && 0 <= ys && (ye <= ys || ye <= spaceMap.Length1)
      ensures RectTop(xs, xe, ys, ye) == g.RectTop(xs, xe, ys, ye)
      decreases xe - xs
    {
      if xe > xs {
        SameRectTop(g, xs, xe - 1, ys, ye);
        SameRowTop(g, xe - 1, ys, ye);
      }
    }

    lemma {:induction false} SameRowTop(g: Picture, i: int, ys: int, ye: int)
      requires Shows(g)
      requires 0 <= i < spaceMap.Length0 && 0 <= ys && (ye <= ys || ye <= spaceMap.Length1)
      ensures RowTop(i, ys, ye) == g.RowTop(i, ys, ye)
      decreases ye - ys
    {
      if ye > ys {
        SameRowTop(g, i, ys, ye - 1);
        SameColumnTop(g, i, ye - 1, spaceMap.Length2);
      }
    }

    lemma {:induction false} SameColumnTop(g: Picture, i: int, j: int, n: int)
      requires Shows(g)
      requires 0 <= i < spaceMap.Length0 && 0 <= j < spaceMap.Length1 && 0 <= n <= spaceMap.Length2
      ensures ColumnTop(i, j, n) == g.ColumnTop(i, j, n)
      decreases n
    {
      if n > 0 {
        SameColumnTop(g, i, j, n - 1);
      }
    }

    /** A position `get_available_positions` lists for the box `s`: on the
        100 mm scan grid with the footprint inside the floor, at the lowest
        available height, under the roof, and free of the loaded boxes. */
    predicate Available(s: PalletState, q: Position)
      reads this`loaded, loaded, this`spaceMap, spaceMap
    {
      AvailableAmong(s, q, Loaded())
    }

    /** `Available`, with the loaded boxes `ls` given as values. */
    predicate AvailableAmong(s: PalletState, q: Position, ls: seq<PalletState>)
      reads this`spaceMap, spaceMap
    {
      var d := s.Dimensions();
      && InScanRange(q.x, 0, length - d.length + 1)
      && InScanRange(q.y, 0, width - d.width + 1)
      && LowestHeight(q.x, q.y, d.length, d.width) == Some(q.z)
      && q.z + d.height <= height
      && !CollidesWithAny(s.WithPosition(q), ls)
    }

    /** At most one height is available above a scan point, and the scan's tests decide which. */
    lemma ColumnAvailability(s: PalletState, x: int, y: int, z: Option<int>, c: bool)
      requires InScanRange(x, 0, length - s.Dimensions().length + 1)
      requires InScanRange(y, 0, width - s.Dimensions().width + 1)
      requires z == LowestHeight(x, y, s.Dimensions().length, s.Dimensions().width)
      requires z.Some? && z.value + s.Dimensions().height <= height ==>
                 c == CollidesWithAny(s.WithPosition(Position(x, y, z.value)), Loaded())
      requires !(z.Some? && z.value + s.Dimensions().height <= height) ==> c
      ensures forall q: Position :: q.x == x && q.y == y ==> (Available(s, q) <==> !c && z.Some? && q == Position(x, y, z.value))
    {
    }

    /** One step of the scan: the point `(x, y)` contributes `found`, if anything. */
    lemma ScanStep(s: PalletState, ps: seq<Position>, next: seq<Position>, x: int, y: int, found: Option<Position>)
      requires y % Resolution == 0
      requires forall q :: q in ps <==> Available(s, q) && ScannedBefore(q, x, y)
      requires forall q :: q in ps ==> ScannedBefore(q, x, y)
      requires ScanOrdered(ps)
      requires forall q: Position :: q.x == x && q.y == y ==> (Available(s, q) <==> found == Some(q))
      requires found.Some? ==> found.value.x == x && found.value.y == y
      requires next == if found.Some? then ps + [found.value] else ps
      ensures forall q :: q in next <==> Available(s, q) && ScannedBefore(q, x, y + Resolution)
      ensures forall q :: q in next ==> ScannedBefore(q, x, y + Resolution)
      ensures ScanOrdered(next)
    {
      forall q | Available(s, q) && q.x == x && y <= q.y < y + Resolution
        ensures q.y == y
      {
        assert q.y % Resolution == 0;
      }
      if found.Some? {
        forall i, j | 0 <= i < j < |next| ensures ScanBefore(next[i], next[j]) {
          if j == |ps| {
            assert next[i] == ps[i] && ps[i] in ps;
          }
        }
      }
    }

    /** Finishing a row of the scan covers every available point of that row. */
    lemma RowDone(s: PalletState, ps: seq<Position>, x: int, y: int)
      requires x % Resolution == 0 && y >= width - s.Dimensions().width + 1
      requires forall q :: q in ps <==> Available(s, q) && ScannedBefore(q, x, y)
      requires forall q :: q in ps ==> ScannedBefore(q, x, y)
      ensures forall q :: q in ps <==> Available(s, q) && q.x < x + Resolution
      ensures forall q :: q in ps ==> q.x < x + Resolution
    {
      forall q | Available(s, q) && x <= q.x < x + Resolution
        ensures q.x == x
      {
        assert q.x % Resolution == 0;
      }
    }

    /** `get_available_positions`: exactly the available positions, in scan order. */
    method GetAvailablePositions(p: Pallet) returns (ps: seq<Position>)
      ensures forall q :: q in ps <==> Available(p.State(), q)
      ensures ScanOrdered(ps)
    {
      var s := p.State();
      ps := [];
      var x := 0;
      while x < length - s.Dimensions().length + 1
        invariant x >= 0 && x % Resolution == 0
        invariant forall q :: q in ps <==> Available(s, q) && q.x < x
        invariant ScanOrdered(ps)
        invariant forall q :: q in ps ==> q.x < x
      {
        ps := ScanRow(s, x, ps);
        x := x + Resolution;
      }
    }

    /** The inner loop of `get_available_positions`: the points `(x, 0), (x, 100), ...`
        of one row, appended to what the earlier rows found. */
    method ScanRow(s: PalletState, x: int, ps0: seq<Position>) returns (ps: seq<Position>)
      requires InScanRange(x, 0, length - s.Dimensions().length + 1)
      requires forall q :: q in ps0 <==> Available(s, q) && q.x < x
      requires ScanOrdered(ps0) && forall q :: q in ps0 ==> q.x < x
      ensures forall q :: q in ps <==> Available(s, q) && q.x < x + Resolution
      ensures ScanOrdered(ps) && forall q :: q in ps ==> q.x < x + Resolution
    {
      var d := s.Dimensions();
      ps := ps0;
      var y := 0;
      while y < width - d.width + 1
        invariant y >= 0 && y % Resolution == 0
        invariant forall q :: q in ps <==> Available(s, q) && ScannedBefore(q, x, y)
        invariant ScanOrdered(ps)
        invariant forall q :: q in ps ==> ScannedBefore(q, x, y)
      {
        var z := FindLowestAvailableHeight(x, y, d.length, d.width);
        var found: Option<Position> := None;
        if z.Some? && z.value + d.height <= height {
          var at := Position(x, y, z.value);
          var c := CheckCollision(s.WithPosition(at));
          ColumnAvailability(s, x, y, z, c);
          if !c {
            found := Some(at);
          }
        } else {
          ColumnAvailability(s, x, y, z, true);
        }
        ghost var before := ps;
        if found.Some? {
          ps := ps + [found.value];
        }
        ScanStep(s, before, ps, x, y, found);
        y := y + Resolution;
      }
      RowDone(s, ps, x, y);
    }

    /** Appending a box that fits, collides with nothing loaded and stays
        within capacity keeps the list consistent. */
    lemma AddKeepsConsistent(ls: seq<PalletState>, s: PalletState)
      requires Consistent(ls) && Fits(s) && !CollidesWithAny(s, ls)
      requires TotalLoad(ls) + s.spec.TotalWeight() <= maxLoad
      ensures Consistent(ls + [s])
    {
      var next := ls + [s];
      assert next[..|ls|] == ls;
      forall i, j | 0 <= i < |next| && 0 <= j < |next| && i != j
        ensures !Collides(next[i], next[j])
      {
        if j == |ls| {
          CollidesSymmetric(next[i], s);
        }
      }
    }

    /** Taking out a box of non-negative weight keeps the list consistent. */
    lemma RemoveKeepsConsistent(ls: seq<PalletState>, i: nat)
      requires i < |ls| && Consistent(ls)
      requires ls[i].spec.TotalWeight() >= 0
      ensures Consistent(ls[..i] + ls[i + 1..])
    {
      var rest := ls[..i] + ls[i + 1..];
      forall a, b | 0 <= a < |rest| && 0 <= b < |rest| && a != b
        ensures !Collides(rest[a], rest[b])
      {
        var a', b' := if a < i then a else a + 1, if b < i then b else b + 1;
        assert rest[a] == ls[a'] && rest[b] == ls[b'];
      }
      TotalLoadWithout(ls, i);
    }

    /** `get_loading_efficiency`, in exact arithmetic. */
    function LoadingEfficiency(): Efficiency
      reads this`loaded, this`distribution, loaded
    {
      EfficiencyOf(Loaded(), distribution)
    }

    /** The efficiency figures of this trailer holding `ls` with the
        accumulators `d`. */
    function EfficiencyOf(ls: seq<PalletState>, d: Weights): Efficiency
    {
      var trailerVolume := length * width * height;
      Efficiency(
        if trailerVolume > 0 then TotalVolume(ls) as real / trailerVolume as real * 100.0 else 0.0,
        if maxLoad > 0 then TotalLoad(ls) as real / maxLoad as real * 100.0 else 0.0,
        |ls|,
        if trailerVolume > 0 then |ls| as real / (trailerVolume as real / 1000000.0) else 0.0,
        SideBalance(d),
        FrontBackBalance(d))
    }

    /** `is_weight_distribution_valid`. */
    function WeightDistributionValidity(): BalanceValidity
      reads this`distribution
    {
      BalanceCheck(distribution)
    }
  }

  /** The first index carrying the id is the one `IndexOfId` finds. */
  lemma {:induction false} IndexOfIdFirst(ps: seq<Pallet>, id: string, i: nat)
    requires i < |ps| && ps[i].spec.id == id
    requires forall k :: 0 <= k < i ==> ps[k].spec.id != id
    ensures IndexOfId(ps, id) == i
  {
    if i > 0 {
      IndexOfIdFirst(ps[1..], id, i - 1);
    }
  }

  /** The total weight of a list without its entry `i`. */
  lemma {:induction false} TotalLoadWithout(ls: seq<PalletState>, i: nat)
    requires i < |ls|
    ensures TotalLoad(ls[..i] + ls[i + 1..]) == TotalLoad(ls) - ls[i].spec.TotalWeight()
    decreases |ls|
  {
    var rest := ls[..i] + ls[i + 1..];
    if i < |ls| - 1 {
      var init := ls[..|ls| - 1];
      TotalLoadWithout(init, i);
      assert rest[..|rest| - 1] == init[..i] + init[i + 1..];
      assert rest[|rest| - 1] == ls[|ls| - 1];
    } else {
      assert rest == ls[..|ls| - 1];
    }
  }

  /** After every rebuild, left + right == front + back == total == the sum of the total weights. */
  lemma {:induction false} DistributionSums(ls: seq<PalletState>, length: int, width: int)
    ensures var d := Distribute(ls, length, width);
      d.left + d.right == d.total && d.front + d.back == d.total && d.total == TotalLoad(ls)
  {
    if ls != [] {
      DistributionSums(ls[..|ls| - 1], length, width);
    }
  }

  /** With non-negative accumulators both balance ratios lie in [0, 1]. */
  lemma BalanceBounds(d: Weights)
    requires d.left >= 0 && d.right >= 0 && d.front >= 0 && d.back >= 0
    ensures 0.0 <= SideBalance(d) <= 1.0
    ensures 0.0 <= FrontBackBalance(d) <= 1.0
  {
    if d.left + d.right != 0 {
      RatioBounds(d.right, d.left);
    }
    if d.front + d.back != 0 {
      RatioBounds(d.front, d.back);
    }
  }

  lemma RatioBounds(a: int, b: int)
    requires a >= 0 && b >= 0 && b + a != 0
    ensures 0.0 <= a as real / (b + a) as real <= 1.0
  {
    var t := (b + a) as real;
    assert a as real / t * t == a as real;
  }

  /** An empty trailer is side-balanced (0.5) but not front/back balanced (0.0 against 0.6). */
  lemma EmptyBalance()
    ensures SideBalance(NoWeight) == 0.5 && FrontBackBalance(NoWeight) == 0.0
    ensures BalanceCheck(NoWeight) == BalanceValidity(true, false, false)
  {
  }

  /** After `reset` the efficiency report is all zero, with the empty-trailer balances. */
  lemma ResetEfficiency(t: Trailer)
    requires t.loaded == [] && t.distribution == NoWeight
    ensures t.LoadingEfficiency() == Efficiency(0.0, 0.0, 0, 0.0, 0.5, 0.0)
  {
  }

  /** On a consistent trailer with non-negative weights the weight utilisation is a percentage. */
  lemma WeightUtilizationBounded(t: Trailer)
    requires t.maxLoad > 0 && t.Consistent(t.Loaded())
    requires forall k :: 0 <= k < |t.loaded| ==> t.loaded[k].spec.TotalWeight() >= 0
    ensures 0.0 <= t.LoadingEfficiency().weightUtilization <= 100.0
  {
    var ls := t.Loaded();
    TotalLoadNonNegative(ls);
    var r := t.CurrentLoad() as real / t.maxLoad as real;
    assert r * t.maxLoad as real == t.CurrentLoad() as real;
  }

  lemma {:induction false} TotalLoadNonNegative(ls: seq<PalletState>)
    requires forall k :: 0 <= k < |ls| ==> ls[k].spec.TotalWeight() >= 0
    ensures TotalLoad(ls) >= 0
  {
    if ls != [] {
      TotalLoadNonNegative(ls[..|ls| - 1]);
    }
  }

  /** `Trailer()` with the configured standard dimensions. */
  method DefaultTrailer() returns (t: Trailer)
    ensures fresh(t) && fresh(t.spaceMap) && t.Valid() && t.GridClear()
    ensures t.length == DefaultLength && t.width == DefaultWidth && t.height == DefaultHeight
    ensures t.maxLoad == DefaultMaxLoad
    ensures t.loaded == [] && t.distribution == NoWeight
  {
    t := new Trailer(DefaultLength, DefaultWidth, DefaultHeight, DefaultMaxLoad);
  }
}
