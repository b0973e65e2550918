/**
 * The engine animation rig as the stateful object it is: it holds the
 * connection side, the heat stage and the piston travel state, and writes
 * box geometry and atlas rectangles into the base and piston render objects
 * it owns.
 *
 * The render and animation objects belong to the host. They are modelled
 * by the values their fields hold (BaseRender, PistonAnimation); each call
 * to refresh or destroy on one of them is counted in a ghost counter of
 * that object.
 */
module EngineAnimationRig {
  import opened EngineGeometry
  import opened EnginePiston

  /** Block coordinates the rig is bound to. */
  datatype BlockPos = BlockPos(x: int, y: int, z: int)

  /** The fields of the base render object that the rig writes. */
  datatype BaseRender = BaseRender(
    baseCoords: Vec, baseSize: Vec,
    trunkCoords: Vec, trunkSize: Vec,
    baseUV: UV, trunkUV: UV)

  /** The fields of the piston render object that the rig writes. */
  datatype PistonRender = PistonRender(pistonCoords: Vec, pistonSize: Vec, pistonUV: UV)

  /** The piston animation object: its render, move vector and the last position set on it. */
  datatype PistonAnimation = PistonAnimation(render: PistonRender, direction: real, rotation: Rotation, position: real)

  /** What the base render holds once the piston is set up for axis `r` and direction `d`. */
  function BaseRenderFor(r: Rotation, d: real, heat: HeatStage, texture: EngineTexture): BaseRender {
    var c := Offset(r, d);
    BaseRender(BaseCoords(c), BaseSize(c), TrunkCoords(c), TrunkSize(c), texture.baseUV(r), texture.trunkUV(heat, r))
  }

  /** What the piston render holds once the piston is set up for axis `r` and direction `d`. */
  function PistonRenderFor(r: Rotation, d: real, texture: EngineTexture): PistonRender {
    var c := Offset(r, d);
    PistonRender(PistonCoords(c), PistonSize(c), texture.baseUV(r))
  }

  class EngineAnimation {
    const coords: BlockPos
    const engineTexture: EngineTexture

    var pistonPosition: real
    var pushingMultiplier: real
    var side: int
    var heatStage: HeatStage

    var baseRender: BaseRender
    var piston: PistonAnimation

    ghost var baseRefreshes: nat
    ghost var pistonRefreshes: nat
    ghost var baseDestroys: nat
    ghost var pistonDestroys: nat

    /** The side indexes the direction table and the piston is pushed with +1 or -1. */
    ghost predicate Valid()
      reads this
    {
      IsSide(side) && (pushingMultiplier == 1.0 || pushingMultiplier == -1.0)
    }

    /** The piston travel state held in the two fields. */
    function Travel(): PistonState
      reads this
    {
      PistonState(pistonPosition, pushingMultiplier)
    }

    /**
     * A rig bound to `coords`, with the given heat stage and texture, and
     * with the render objects as the host built them. The geometry is not
     * set up until a connection side is assigned.
     */
    constructor (coords: BlockPos, heatStage: HeatStage, engineTexture: EngineTexture,
                 base: BaseRender, piston: PistonAnimation)
      ensures Valid()
      ensures this.coords == coords && this.heatStage == heatStage && this.engineTexture == engineTexture
      ensures Travel() == Initial && side == 1
      ensures baseRender == base && this.piston == piston
      ensures baseRefreshes == 0 && pistonRefreshes == 0 && baseDestroys == 0 && pistonDestroys == 0
    {
      this.coords := coords;
      this.engineTexture := engineTexture;
      this.heatStage := heatStage;
      pistonPosition := 0.0;
      pushingMultiplier := 1.0;
      side := 1;
      baseRender := base;
      this.piston := piston;
      baseRefreshes, pistonRefreshes, baseDestroys, pistonDestroys := 0, 0, 0, 0;
    }

    /** The connected side. */
    function ConnectionSide(): (s: int)
      reads this
      requires Valid()
      ensures IsSide(s) && s == side
    {
      side
    }

    /**
     * Assigns the connected side and rebuilds the whole geometry from it:
     * the result depends only on the side, the heat stage and the texture.
     */
    method SetConnectionSide(value: int)
      requires Valid() && IsSide(value)
      modifies this
      ensures Valid() && ConnectionSide() == value
      ensures baseRender == BaseRenderFor(Directions[value].rotation, Directions[value].direction, heatStage, engineTexture)
      ensures piston == old(piston).(
                render := PistonRenderFor(Directions[value].rotation, Directions[value].direction, engineTexture),
                direction := -Directions[value].direction,
                rotation := Directions[value].rotation)
      ensures Travel() == old(Travel()) && heatStage == old(heatStage)
      ensures baseRefreshes == old(baseRefreshes) + 1 && pistonRefreshes == old(pistonRefreshes) + 1
      ensures baseDestroys == old(baseDestroys) && pistonDestroys == old(pistonDestroys)
    {
      side := value;
      RotateByMeta();
    }

    /** One tick of animation: the heat stage first, then the piston. */
    method Update(power: real, heat: HeatStage)
      requires Valid()
      modifies this
      ensures Valid() && side == old(side) && heatStage == heat
      ensures baseRender == if old(heatStage) == heat then old(baseRender)
                            else old(baseRender).(trunkUV := engineTexture.trunkUV(heat, Directions[side].rotation))
      ensures baseRefreshes == old(baseRefreshes) + (if old(heatStage) == heat then 0 else 1)
      ensures Travel() == Move(old(Travel()), power)
      ensures piston == old(piston).(position := pistonPosition)
      ensures pistonRefreshes == old(pistonRefreshes) && baseDestroys == old(baseDestroys) && pistonDestroys == old(pistonDestroys)
    {
      UpdateTrunkHeat(heat);
      MovePiston(power);
    }

    /** Stores a new heat stage; the trunk is re-textured and refreshed only when the stage changes. */
    method UpdateTrunkHeat(heat: HeatStage)
      requires Valid()
      modifies this`heatStage, this`baseRender, this`baseRefreshes
      ensures heatStage == heat
      ensures old(heatStage) == heat ==> baseRender == old(baseRender) && baseRefreshes == old(baseRefreshes)
      ensures old(heatStage) != heat ==>
                && baseRender == old(baseRender).(trunkUV := engineTexture.trunkUV(heat, Directions[side].rotation))
                && baseRefreshes == old(baseRefreshes) + 1
    {
      if heatStage != heat {
        heatStage := heat;
        baseRender := baseRender.(trunkUV := engineTexture.trunkUV(heatStage, Directions[side].rotation));
        baseRefreshes := baseRefreshes + 1;
      }
    }

    /** Moves the piston by power * multiplier / 64 and shows it at the new position. */
    method MovePiston(power: real)
      requires Valid()
      modifies this`pistonPosition, this`pushingMultiplier, this`piston
      ensures Valid()
      ensures Travel() == Move(old(Travel()), power)
      ensures piston == old(piston).(position := pistonPosition)
    {
      pushingMultiplier := if pistonPosition < 0.0 then 1.0 else pushingMultiplier;
      pistonPosition := pistonPosition + power * pushingMultiplier / TravelScale;
      piston := piston.(position := pistonPosition);
    }

    /** Whether the piston has travelled past the go-back threshold. */
    method IsReadyToGoBack() returns (ready: bool)
      ensures ready <==> ReadyToGoBack(Travel())
    {
      ready := pistonPosition > 0.5;
    }

    /** Turns the piston round: it is pushed with -1 from now on. */
    method GoBack()
      requires Valid()
      modifies this`pushingMultiplier
      ensures Valid() && Travel() == EnginePiston.GoBack(old(Travel()))
    {
      pushingMultiplier := -1.0;
    }

    method RotateByMeta()
      requires Valid()
      modifies this
      ensures Valid() && side == old(side)
      ensures baseRender == BaseRenderFor(Directions[side].rotation, Directions[side].direction, heatStage, engineTexture)
      ensures piston == old(piston).(
                render := PistonRenderFor(Directions[side].rotation, Directions[side].direction, engineTexture),
                direction := -Directions[side].direction,
                rotation := Directions[side].rotation)
      ensures Travel() == old(Travel()) && heatStage == old(heatStage)
      ensures baseRefreshes == old(baseRefreshes) + 1 && pistonRefreshes == old(pistonRefreshes) + 1
      ensures baseDestroys == old(baseDestroys) && pistonDestroys == old(pistonDestroys)
    {
      var data := Directions[side];
      CreatePiston(data.rotation, data.direction);
    }

    /** Releases the base and the piston animation, once each. */
    method Destroy()
      modifies this`baseDestroys, this`pistonDestroys
      ensures baseDestroys == old(baseDestroys) + 1 && pistonDestroys == old(pistonDestroys) + 1
    {
      baseDestroys := baseDestroys + 1;
      pistonDestroys := pistonDestroys + 1;
    }

    /**
     * Builds the offset vector for `rotation` and `direction`, sets up the
     * base, trunk and piston boxes and rectangles from it, refreshes both
     * renders and sets the piston's move vector opposite to `direction`.
     */
    method CreatePiston(rotation: Rotation, direction: real)
      modifies this`baseRender, this`piston, this`baseRefreshes, this`pistonRefreshes
      ensures baseRender == BaseRenderFor(rotation, direction, heatStage, engineTexture)
      ensures piston == old(piston).(
                render := PistonRenderFor(rotation, direction, engineTexture),
                direction := -direction,
                rotation := rotation)
      ensures baseRefreshes == old(baseRefreshes) + 1 && pistonRefreshes == old(pistonRefreshes) + 1
    {
      var c := Vec(0.0, 0.0, 0.0);
      match rotation {
        case X => c := c.(x := direction);
        case Y => c := c.(y := direction);
        case Z => c := c.(z := direction);
      }
      assert c == Offset(rotation, direction);

      SetupBaseBoxes(c);
      baseRender := baseRender.(baseUV := engineTexture.baseUV(rotation));

      SetupTrunkBoxes(c);
      baseRender := baseRender.(trunkUV := engineTexture.trunkUV(heatStage, rotation));
      baseRefreshes := baseRefreshes + 1;

      SetupPistonBoxes(c);
      piston := piston.(render := piston.render.(pistonUV := engineTexture.baseUV(rotation)));
      pistonRefreshes := pistonRefreshes + 1;

      piston := piston.(direction := -direction, rotation := rotation);
    }

    method SetupBaseBoxes(c: Vec)
      modifies this`baseRender
      ensures baseRender == old(baseRender).(baseCoords := BaseCoords(c), baseSize := BaseSize(c))
    {
      baseRender := baseRender.(baseCoords := BaseCoords(c), baseSize := BaseSize(c));
    }

    method SetupTrunkBoxes(c: Vec)
      modifies this`baseRender
      ensures baseRender == old(baseRender).(trunkCoords := TrunkCoords(c), trunkSize := TrunkSize(c))
    {
      baseRender := baseRender.(trunkCoords := TrunkCoords(c), trunkSize := TrunkSize(c));
    }

    method SetupPistonBoxes(c: Vec)
      modifies this`piston
      ensures piston == old(piston).(render := old(piston).render.(pistonCoords := PistonCoords(c), pistonSize := PistonSize(c)))
    {
      piston := piston.(render := piston.render.(pistonCoords := PistonCoords(c), pistonSize := PistonSize(c)));
    }
  }

  /**
   * Assigning the same side twice leaves the geometry as the first
   * assignment made it: the mapping is deterministic and idempotent.
   */
  method SameSideTwice(rig: EngineAnimation, value: int) returns (first: BaseRender, second: BaseRender, firstPiston: PistonAnimation, secondPiston: PistonAnimation)
    requires rig.Valid() && IsSide(value)
    modifies rig
    ensures first == second && firstPiston == secondPiston
  {
    rig.SetConnectionSide(value);
    first, firstPiston := rig.baseRender, rig.piston;
    rig.SetConnectionSide(value);
    second, secondPiston := rig.baseRender, rig.piston;
  }

  /**
   * What a caller of the rig can rely on: for every side, the base box is 4
   * thick along the side's axis and 16 across, the trunk 16 along and 8
   * across, and the piston is moved against the side's direction.
   */
  method SideGeometry(rig: EngineAnimation, value: int)
    requires rig.Valid() && IsSide(value)
    modifies rig
    ensures rig.baseRender.baseSize == Along(Directions[value].rotation, 4.0, 16.0)
    ensures rig.baseRender.trunkSize == Along(Directions[value].rotation, 16.0, 8.0)
    ensures rig.piston.render.pistonSize == Along(Directions[value].rotation, 4.0, 16.0)
    ensures rig.baseRender.baseCoords == Lifted(Directions[value].rotation, Directions[value].direction, 6.0, YOffset)
    ensures rig.baseRender.trunkCoords == Lifted(Directions[value].rotation, Directions[value].direction, -0.1, YOffset)
    ensures rig.piston.render.pistonCoords == Lifted(Directions[value].rotation, Directions[value].direction, 2.0, YOffset)
    ensures rig.piston.direction == -Directions[value].direction && rig.piston.rotation == Directions[value].rotation
  {
    rig.SetConnectionSide(value);
    SideBoxes(value);
  }
}
