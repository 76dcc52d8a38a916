/** Cargo units: the immutable physical description of a pallet, its
    mutable placement (position and rotation) and the box geometry derived
    from the two. */
module Cargo {
  import opened Wrappers

  /** A rotation is 0 or 90 degrees: any other value is a construction error. */
  type Rotation = r: int | r == 0 || r == 90

  predicate IsRotation(r: int) { r == 0 || r == 90 }

  /** `rotate`: 90 becomes 0, anything else becomes 90. */
  function Toggle(r: Rotation): (r': Rotation)
    ensures r' != r
  {
    if r == 90 then 0 else 90
  }

  datatype Position = Position(x: int, y: int, z: int)

  const Origin := Position(0, 0, 0)

  /** Extent of a placed box along x, y and z. */
  datatype Dims = Dims(length: int, width: int, height: int)

  /** The fields of a pallet that no operation changes after construction. */
  datatype PalletSpec = PalletSpec(
    id: string,
    kind: string,
    length: int,
    width: int,
    height: int,
    weight: int,
    cargoWeight: int,
    maxStackWeight: Option<int>,
    stackable: bool,
    fragile: bool,
    color: string)
  {
    /** Tare plus cargo. */
    function TotalWeight(): int { weight + cargoWeight }

    /** Volume in cubic millimetres, independent of rotation. */
    function Volume(): int { length * width * height }
  }

  /** A pallet's complete value at one moment. */
  datatype PalletState = PalletState(spec: PalletSpec, position: Position, rotation: Rotation)
  {
    /** Effective dimensions: length and width swap at 90 degrees. */
    function Dimensions(): (d: Dims)
      ensures rotation == 0 ==> d == Dims(spec.length, spec.width, spec.height)
      ensures rotation == 90 ==> d == Dims(spec.width, spec.length, spec.height)
    {
      if rotation == 0 then Dims(spec.length, spec.width, spec.height)
      else Dims(spec.width, spec.length, spec.height)
    }

    /** Base rectangle (length, width) after rotation. */
    function Footprint(): (f: (int, int))
      ensures f == (Dimensions().length, Dimensions().width)
    {
      if rotation == 0 then (spec.length, spec.width) else (spec.width, spec.length)
    }

    /** The eight corners, near-bottom-left first and far-top-right last. */
    function Corners(): seq<Position>
    {
      var x, y, z := position.x, position.y, position.z;
      var d := Dimensions();
      var dx, dy, dz := d.length, d.width, d.height;
      [ Position(x, y, z),
        Position(x + dx, y, z),
        Position(x, y + dy, z),
        Position(x + dx, y + dy, z),
        Position(x, y, z + dz),
        Position(x + dx, y, z + dz),
        Position(x, y + dy, z + dz),
        Position(x + dx, y + dy, z + dz) ]
    }

    function WithPosition(p: Position): PalletState { this.(position := p) }

    function Rotated(): PalletState { this.(rotation := Toggle(rotation)) }

    function Top(): int { position.z + Dimensions().height }
  }

  /** Strict overlap on one axis: touching intervals do not overlap. */
  predicate Overlaps(a: int, la: int, b: int, lb: int) { a < b + lb && a + la > b }

  /** `collides_with`: the two boxes overlap strictly on all three axes. */
  predicate Collides(a: PalletState, b: PalletState)
  {
    var da, db := a.Dimensions(), b.Dimensions();
    && Overlaps(a.position.x, da.length, b.position.x, db.length)
    && Overlaps(a.position.y, da.width, b.position.y, db.width)
    && Overlaps(a.position.z, da.height, b.position.z, db.height)
  }

  /** The record `to_dict` produces; `rotation` is an unchecked integer here. */
  datatype PalletDict = PalletDict(
    id: string,
    kind: string,
    length: int,
    width: int,
    height: int,
    weight: int,
    cargoWeight: int,
    maxStackWeight: Option<int>,
    stackable: bool,
    fragile: bool,
    position: Position,
    rotation: int,
    color: string)

  const RotationError := "Rotacja musi wynosić 0 lub 90 stopni"

  function ToDict(s: PalletState): PalletDict
  {
    var p := s.spec;
    PalletDict(p.id, p.kind, p.length, p.width, p.height, p.weight, p.cargoWeight,
               p.maxStackWeight, p.stackable, p.fragile, s.position, s.rotation, p.color)
  }

  /** `from_dict`: construction fails exactly when the rotation is not 0 or 90. */
  function FromDict(d: PalletDict): (r: Result<PalletState, string>)
    ensures r.Err? <==> !IsRotation(d.rotation)
    ensures r.Err? ==> r.error == RotationError
    ensures r.Ok? ==> ToDict(r.value) == d
  {
    if !IsRotation(d.rotation) then Err(RotationError)
    else
      Ok(PalletState(
        PalletSpec(d.id, d.kind, d.length, d.width, d.height, d.weight, d.cargoWeight,
                   d.maxStackWeight, d.stackable, d.fragile, d.color),
        d.position, d.rotation))
  }

  class Pallet {
    const spec: PalletSpec
    var position: Position
    var rotation: Rotation

    constructor (spec: PalletSpec, position: Position, rotation: Rotation)
      ensures this.spec == spec && this.position == position && this.rotation == rotation
    {
      this.spec := spec;
      this.position := position;
      this.rotation := rotation;
    }

    function State(): PalletState
      reads this
    {
      PalletState(spec, position, rotation)
    }

    function Dimensions(): Dims
      reads this
    {
      State().Dimensions()
    }

    /** `rotate`: toggles the rotation and changes nothing else. */
    method Rotate()
      modifies this
      ensures rotation == Toggle(old(rotation)) && position == old(position)
      ensures State() == old(State()).Rotated()
    {
      rotation := if rotation == 90 then 0 else 90;
    }

    /** `set_position`: stores the coordinates, without validation. */
    method SetPosition(x: int, y: int, z: int)
      modifies this
      ensures position == Position(x, y, z) && rotation == old(rotation)
      ensures State() == old(State()).WithPosition(Position(x, y, z))
    {
      position := Position(x, y, z);
    }
  }

  /** Construction from a record (`Pallet(**data)` with its `__post_init__`). */
  method Create(d: PalletDict) returns (r: Result<Pallet, string>)
    ensures r.Err? <==> !IsRotation(d.rotation)
    ensures r.Err? ==> r.error == RotationError
    ensures r.Ok? ==> fresh(r.value) && ToDict(r.value.State()) == d
  {
    match FromDict(d)
    case Err(e) => r := Err(e);
    case Ok(s) =>
      var p := new Pallet(s.spec, s.position, s.rotation);
      r := Ok(p);
  }

  // ---------------------------------------------------------------------
  // Properties of the geometry

  /** Rotating twice restores the rotation and the dimensions. */
  lemma RotationInvolution(s: PalletState)
    ensures s.Rotated().Rotated() == s
    ensures s.Rotated().Dimensions().height == s.Dimensions().height
    ensures s.Rotated().Dimensions() == Dims(s.Dimensions().width, s.Dimensions().length, s.Dimensions().height)
  {
  }

  /** Volume and total weight depend on neither rotation nor position. */
  lemma MassAndVolumeArePlacementIndependent(spec: PalletSpec, p: Position, q: Position, r: Rotation, r': Rotation)
    ensures PalletState(spec, p, r).Dimensions().length * PalletState(spec, p, r).Dimensions().width
            * PalletState(spec, p, r).Dimensions().height == spec.Volume()
    ensures PalletState(spec, p, r).spec.TotalWeight() == PalletState(spec, q, r').spec.TotalWeight()
  {
    var d := PalletState(spec, p, r).Dimensions();
    if r == 90 {
      assert d.length * d.width == spec.length * spec.width;
    }
  }

  /** Collision is symmetric. */
  lemma CollidesSymmetric(a: PalletState, b: PalletState)
    ensures Collides(a, b) <==> Collides(b, a)
  {
  }

  /** Boxes that meet on a face do not collide. */
  lemma FaceContactIsNotCollision(a: PalletState, b: PalletState)
    requires a.position.x + a.Dimensions().length == b.position.x
          || a.position.y + a.Dimensions().width == b.position.y
          || a.position.z + a.Dimensions().height == b.position.z
    ensures !Collides(a, b) && !Collides(b, a)
  {
  }

  /** A box with positive extents collides with itself; a flat one does not. */
  lemma SelfCollision(s: PalletState)
    ensures Collides(s, s) <==> s.spec.length > 0 && s.spec.width > 0 && s.spec.height > 0
  {
  }

  /** The corners: eight of them, from `position` to `position + dimensions`, all inside the box. */
  lemma CornersSpanTheBox(s: PalletState)
    requires s.spec.length >= 0 && s.spec.width >= 0 && s.spec.height >= 0
    ensures |s.Corners()| == 8
    ensures s.Corners()[0] == s.position
    ensures s.Corners()[7] == Position(s.position.x + s.Dimensions().length,
                                       s.position.y + s.Dimensions().width,
                                       s.position.z + s.Dimensions().height)
    ensures forall c :: c in s.Corners() ==>
              s.position.x <= c.x <= s.position.x + s.Dimensions().length &&
              s.position.y <= c.y <= s.position.y + s.Dimensions().width &&
              s.position.z <= c.z <= s.position.z + s.Dimensions().height
  {
  }

  /** `from_dict(to_dict(p)) == p`. */
  lemma DictRoundTrip(s: PalletState)
    ensures FromDict(ToDict(s)) == Ok(s)
  {
  }
}
