/**
 * Orientation-to-geometry mapping of the engine animation rig: the fixed
 * table from a connection side to (rotation axis, direction), the unit
 * offset vector built from that pair, and the closed formulas that derive
 * the origin and size of the base, trunk and piston boxes from it.
 * All quantities are exact reals.
 */
module EngineGeometry {

  /** The rotation axis of an engine (EngineRotation). */
  datatype Rotation = X | Y | Z

  /** The heat stages of an engine, coldest first (EngineHeat). */
  datatype HeatStage = Blue | Green | Orange | Red | Black

  /** A three-component vector, used for box origins, box sizes and offsets. */
  datatype Vec = Vec(x: real, y: real, z: real)

  /** One entry of the direction table: the axis and the signed direction along it. */
  datatype DirectionEntry = DirectionEntry(rotation: Rotation, direction: real)

  /** An atlas rectangle handed out by the engine texture. */
  datatype UV = UV(u: int, v: int)

  /**
   * The engine texture: which atlas rectangle the base (and the piston head)
   * and the trunk use. Its tables are not part of this model, so the texture
   * is any pair of total functions of the heat stage and the rotation.
   */
  datatype EngineTexture = EngineTexture(baseUV: Rotation -> UV, trunkUV: (HeatStage, Rotation) -> UV)

  /** Vertical offset of every box of the rig. */
  const YOffset: real := 31.0

  /** Number of connection sides. */
  const SideCount: int := 6

  /** The direction table, indexed by connection side. */
  const Directions: seq<DirectionEntry> := [
    DirectionEntry(Y, -1.0),
    DirectionEntry(Y, 1.0),
    DirectionEntry(Z, -1.0),
    DirectionEntry(Z, 1.0),
    DirectionEntry(X, 1.0),
    DirectionEntry(X, -1.0)
  ]

  predicate IsSide(side: int) {
    0 <= side < SideCount
  }

  /** The connection sides whose table entry lies on axis `a`. */
  function SidesOn(a: Rotation): set<int> {
    set i | 0 <= i < SideCount && Directions[i].rotation == a
  }

  /** The component of `v` along axis `a`. */
  function Component(v: Vec, a: Rotation): real {
    match a
    case X => v.x
    case Y => v.y
    case Z => v.z
  }

  function Abs(r: real): (a: real)
    ensures a >= 0.0
    ensures a == r || a == -r
  {
    if r < 0.0 then -r else r
  }

  /** The vector whose component on axis `r` is `along` and whose two other components are `across`. */
  function Along(r: Rotation, along: real, across: real): (v: Vec)
    ensures forall a :: Component(v, a) == if a == r then along else across
  {
    match r
    case X => Vec(along, across, across)
    case Y => Vec(across, along, across)
    case Z => Vec(across, across, along)
  }

  /** The offset vector built by the piston set-up: `direction` on the rotation axis, zero elsewhere. */
  function Offset(rotation: Rotation, direction: real): (v: Vec)
    ensures forall a :: Component(v, a) == if a == rotation then direction else 0.0
  {
    match rotation
    case X => Vec(direction, 0.0, 0.0)
    case Y => Vec(0.0, direction, 0.0)
    case Z => Vec(0.0, 0.0, direction)
  }

  /** The offset vector of a connection side. */
  function SideOffset(side: int): Vec
    requires IsSide(side)
  {
    Offset(Directions[side].rotation, Directions[side].direction)
  }

  // The box formulas of the rig, as functions of the offset vector.

  function BaseCoords(c: Vec): Vec {
    Vec(c.x * 6.0, YOffset + c.y * 6.0, c.z * 6.0)
  }

  function BaseSize(c: Vec): Vec {
    Vec(4.0 + 12.0 * (1.0 - Abs(c.x)), 4.0 + 12.0 * (1.0 - Abs(c.y)), 4.0 + 12.0 * (1.0 - Abs(c.z)))
  }

  function TrunkCoords(c: Vec): Vec {
    Vec(-c.x * 0.1, YOffset - c.y * 0.1, -c.z * 0.1)
  }

  function TrunkSize(c: Vec): Vec {
    Vec(8.0 + 8.0 * Abs(c.x), 8.0 + 8.0 * Abs(c.y), 8.0 + 8.0 * Abs(c.z))
  }

  function PistonCoords(c: Vec): Vec {
    Vec(c.x * 2.0, YOffset + c.y * 2.0, c.z * 2.0)
  }

  function PistonSize(c: Vec): Vec {
    Vec(4.0 + 12.0 * (1.0 - Abs(c.x)), 4.0 + 12.0 * (1.0 - Abs(c.y)), 4.0 + 12.0 * (1.0 - Abs(c.z)))
  }

  /** `k` times the offset of axis `r` and direction `d`, lifted by `lift` on y. */
  function Lifted(r: Rotation, d: real, k: real, lift: real): (v: Vec)
    ensures forall a :: Component(v, a) == (if a == r then k * d else 0.0) + (if a == Y then lift else 0.0)
  {
    Vec(if r == X then k * d else 0.0,
        (if r == Y then k * d else 0.0) + lift,
        if r == Z then k * d else 0.0)
  }

  /**
   * The direction table holds a unit direction in every entry, two entries
   * that share an axis always point opposite ways, and every axis has
   * exactly two sides.
   */
  lemma {:induction false} DirectionTableShape()
    ensures |Directions| == SideCount
    ensures forall i :: IsSide(i) ==> Directions[i].direction == 1.0 || Directions[i].direction == -1.0
    ensures forall i, j :: IsSide(i) && IsSide(j) && i != j && Directions[i].rotation == Directions[j].rotation
              ==> Directions[i].direction == -Directions[j].direction
    ensures forall a :: |SidesOn(a)| == 2
  {
    forall i, j | IsSide(i) && IsSide(j) && i != j && Directions[i].rotation == Directions[j].rotation
      ensures Directions[i].direction == -Directions[j].direction
    {
      assert i / 2 == j / 2 by {
        assert Directions[i].rotation == (if i < 2 then Y else if i < 4 then Z else X);
        assert Directions[j].rotation == (if j < 2 then Y else if j < 4 then Z else X);
      }
    }
    forall a ensures |SidesOn(a)| == 2 {
      var i := match a case Y => 0 case Z => 2 case X => 4;
      assert SidesOn(a) == {i, i + 1};
    }
  }

  /**
   * The offset of every side has exactly one nonzero component: the one on
   * the table entry's axis, equal to the entry's direction.
   */
  lemma SideOffsetIsUnit(side: int)
    requires IsSide(side)
    ensures var e := Directions[side];
      && Component(SideOffset(side), e.rotation) == e.direction
      && (e.direction == 1.0 || e.direction == -1.0)
      && forall a :: Component(SideOffset(side), a) != 0.0 <==> a == e.rotation
  {
    DirectionTableShape();
  }

  /**
   * For a unit offset along axis `r`, the base and piston boxes are 4 thick
   * along `r` and 16 wide across it; the trunk is 16 long along `r` and 8
   * wide across it.
   */
  lemma BoxSizes(r: Rotation, d: real)
    requires d == 1.0 || d == -1.0
    ensures BaseSize(Offset(r, d)) == Along(r, 4.0, 16.0)
    ensures PistonSize(Offset(r, d)) == Along(r, 4.0, 16.0)
    ensures TrunkSize(Offset(r, d)) == Along(r, 16.0, 8.0)
  {
  }

  /**
   * Box origins for the offset of axis `r` and direction `d`: the base sits
   * 6 offsets out, the piston 2 offsets out and the trunk a tenth of an
   * offset back, all raised by YOffset.
   */
  lemma BoxOrigins(r: Rotation, d: real)
    ensures BaseCoords(Offset(r, d)) == Lifted(r, d, 6.0, YOffset)
    ensures PistonCoords(Offset(r, d)) == Lifted(r, d, 2.0, YOffset)
    ensures TrunkCoords(Offset(r, d)) == Lifted(r, d, -0.1, YOffset)
  {
  }

  /** The geometry of every connection side, from the table entry of that side. */
  lemma SideBoxes(side: int)
    requires IsSide(side)
    ensures var e := Directions[side];
      && BaseSize(SideOffset(side)) == Along(e.rotation, 4.0, 16.0)
      && PistonSize(SideOffset(side)) == Along(e.rotation, 4.0, 16.0)
      && TrunkSize(SideOffset(side)) == Along(e.rotation, 16.0, 8.0)
      && BaseCoords(SideOffset(side)) == Lifted(e.rotation, e.direction, 6.0, YOffset)
      && PistonCoords(SideOffset(side)) == Lifted(e.rotation, e.direction, 2.0, YOffset)
      && TrunkCoords(SideOffset(side)) == Lifted(e.rotation, e.direction, -0.1, YOffset)
  {
    DirectionTableShape();
    BoxSizes(Directions[side].rotation, Directions[side].direction);
    BoxOrigins(Directions[side].rotation, Directions[side].direction);
  }
}
