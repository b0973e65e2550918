# Engine animation rig

A Dafny model of the animation rig of a BuildCraft engine: the object that
turns the block's connection side into the geometry of its base, trunk and
piston boxes, keeps the trunk texture in step with the engine's heat stage,
and moves the piston back and forth with the engine's power.

- `geometry.dfy` (module `EngineGeometry`): the six-entry direction table
  that maps a connection side to a rotation axis and a direction of +1 or
  -1, the offset vector built from that pair, and the box formulas for the
  base, trunk and piston. The lemmas give the shape of the table and the
  exact box origins and sizes for every side.
- `piston.dfy` (module `EnginePiston`): piston travel as a pure two-state
  machine (`Move`, `GoBack`), plus `Run`, which applies one move per tick
  for a sequence of per-tick powers. The lemmas cover advancing, retracting,
  the reset to +1 once the position goes negative, and that a retraction
  under a constant positive power ends.
- `engine_animation.dfy` (module `EngineAnimationRig`): the class
  `EngineAnimation`. It has the source's fields (`pistonPosition`,
  `pushingMultiplier`, `side`, `heatStage`) and one method per method of the
  source. Each method's `ensures` states the new state in terms of the pure
  functions above.

All arithmetic uses exact `real`s. The host's render and animation objects
are modelled by the values their fields hold. Each host call of
`refresh` and of `destroy` is counted in a ghost counter, one per render or
animation object. The engine texture is a pair of
arbitrary total functions, one of the rotation and one of the heat stage
and rotation, because its atlas tables are not part of this model.

The rig does not compute heat or power: `Update` takes the engine's power
and heat stage as inputs. The constructor sets up no geometry; the render
objects keep whatever the host built until a connection side is assigned,
so the model's constructor takes them as parameters.

## Model

| member | source | states |
|---|---|---|
| EngineGeometry.Offset | dev/core/engine/components/EngineAnimation.ts:82-95 | the offset vector has `direction` on the rotation axis and 0 on the two other axes |
| EngineGeometry.Abs | dev/core/engine/components/EngineAnimation.ts:122-124 | `Math.abs`: the result is non-negative and equals `r` or `-r` |
| EngineGeometry.DirectionTableShape | dev/core/engine/components/EngineAnimation.ts:20-27 | the table has 6 entries; every direction is +1 or -1; any two entries on the same axis have opposite directions; each axis has exactly two sides |
| EngineGeometry.SideOffsetIsUnit | dev/core/engine/components/EngineAnimation.ts:71-95 | for each side 0..5, the offset has exactly one nonzero component: the one on the entry's axis, equal to the entry's direction (+1 or -1) |
| EngineGeometry.BoxSizes | dev/core/engine/components/EngineAnimation.ts:115-152 | for a unit offset on axis `r`: base and piston boxes are 4 along `r` and 16 across; the trunk is 16 along `r` and 8 across |
| EngineGeometry.BoxOrigins | dev/core/engine/components/EngineAnimation.ts:115-146 | base origin is 6 × offset, piston origin 2 × offset, trunk origin -0.1 × offset, each raised by 31 on y |
| EngineGeometry.SideBoxes | dev/core/engine/components/EngineAnimation.ts:71-152 | the box sizes and origins above, for every connection side, in terms of that side's table entry |
| EnginePiston.Move | dev/core/engine/components/EngineAnimation.ts:56-61 | from a negative position the multiplier becomes +1; otherwise it is kept. The position grows by power × multiplier / 64. With power ≥ 0 and multiplier +1 it does not decrease (with zero power the piston stays where it is; it advances strictly only for positive power); with power > 0 and multiplier -1 it strictly decreases |
| EnginePiston.GoBack | dev/core/engine/components/EngineAnimation.ts:67-69 | the multiplier becomes -1 and the position is kept |
| EnginePiston.RunAdvancing | dev/core/engine/components/EngineAnimation.ts:56-61 | from multiplier +1, with non-negative powers, any number of moves keeps multiplier +1. The position grows by exactly the sum of the powers / 64 and never decreases |
| EnginePiston.RunRetracting | dev/core/engine/components/EngineAnimation.ts:56-61 | from multiplier -1, if the summed travel does not exceed the position, the multiplier stays -1 and the position drops by exactly the sum of the powers / 64 |
| EnginePiston.ReturnsAfterCrossingZero | dev/core/engine/components/EngineAnimation.ts:57-58 | from a negative position, in any state, the next move and all later ones advance: multiplier +1, position increased by the summed powers / 64 |
| EnginePiston.ConstantPowerStroke | dev/core/engine/components/EngineAnimation.ts:13-14 | from the initial state (position 0, multiplier +1), n moves with power p ≥ 0 bring the piston to n·p/64 |
| EnginePiston.RetractionEnds | dev/core/engine/components/EngineAnimation.ts:56-69 | after go-back with constant positive power, the piston goes below zero after exactly the move that uses up its position. It is still retracting then, and the next move turns it outwards again: a retraction cannot run away |
| EngineAnimationRig.EngineAnimation.constructor | dev/core/engine/components/EngineAnimation.ts:13-41 | starts at position 0, multiplier +1, side 1, and stores the given coordinates, heat stage and texture and the host's render objects, with no refreshes |
| EngineAnimationRig.EngineAnimation.ConnectionSide | dev/core/engine/components/EngineAnimation.ts:34-36 | returns the stored side, which is always in 0..5 |
| EngineAnimationRig.EngineAnimation.SetConnectionSide | dev/core/engine/components/EngineAnimation.ts:29-32 | stores the side (the getter then returns it). Base and piston renders become a function of the side, heat stage and texture only. Piston direction is the negated table direction and piston rotation is the table axis. Position, multiplier and heat stage are unchanged; each render is refreshed once |
| EngineAnimationRig.EngineAnimation.Update | dev/core/engine/components/EngineAnimation.ts:43-46 | the heat-stage update and then one piston move: the new stage is stored, the trunk is re-textured and refreshed only on a change, and the travel state is `Move` of the old one |
| EngineAnimationRig.EngineAnimation.UpdateTrunkHeat | dev/core/engine/components/EngineAnimation.ts:48-54 | stores the heat stage. Only when it differs from the old one is the trunk UV set to the texture's rectangle for (new stage, side's axis) and the base refreshed once. Otherwise nothing changes, so a second call with the same stage does nothing |
| EngineAnimationRig.EngineAnimation.MovePiston | dev/core/engine/components/EngineAnimation.ts:56-61 | the travel state becomes `Move` of the old state. The position set on the piston animation is the new position. The multiplier stays +1 or -1 |
| EngineAnimationRig.EngineAnimation.IsReadyToGoBack | dev/core/engine/components/EngineAnimation.ts:63-65 | true exactly when the position exceeds 0.5; changes nothing |
| EngineAnimationRig.EngineAnimation.GoBack | dev/core/engine/components/EngineAnimation.ts:67-69 | the multiplier becomes -1. Nothing else changes (position, side, heat stage, renders) |
| EngineAnimationRig.EngineAnimation.RotateByMeta | dev/core/engine/components/EngineAnimation.ts:71-74 | sets the piston up from the table entry of the current side |
| EngineAnimationRig.EngineAnimation.Destroy | dev/core/engine/components/EngineAnimation.ts:76-79 | releases the base and the piston animation once each (one destroy counted on each); nothing else changes |
| EngineAnimationRig.EngineAnimation.CreatePiston | dev/core/engine/components/EngineAnimation.ts:82-113 | the base render holds the base and trunk boxes of `Offset(rotation, direction)`, the base rectangle for `rotation` and the trunk rectangle for (heat stage, `rotation`). The piston render holds the piston box and base rectangle. Piston direction is `-direction` and rotation is `rotation`; each render is refreshed once |
| EngineAnimationRig.EngineAnimation.SetupBaseBoxes | dev/core/engine/components/EngineAnimation.ts:115-126 | writes the base origin and size for the offset; no other render field changes |
| EngineAnimationRig.EngineAnimation.SetupTrunkBoxes | dev/core/engine/components/EngineAnimation.ts:128-139 | writes the trunk origin and size for the offset; no other render field changes |
| EngineAnimationRig.EngineAnimation.SetupPistonBoxes | dev/core/engine/components/EngineAnimation.ts:141-152 | writes the piston origin and size for the offset; no other piston field changes |
| EngineAnimationRig.SameSideTwice | dev/core/engine/components/EngineAnimation.ts:29-32 | assigning the same side twice leaves base and piston exactly as the first assignment did (deterministic and idempotent) |
| EngineAnimationRig.SideGeometry | dev/core/engine/components/EngineAnimation.ts:29-152 | after assigning a side, the rig's boxes have the sizes and origins of `SideBoxes` for that side, and the piston moves against the side's direction along its axis |

## Left out

- Connection sides outside 0..5: the source stores such a side
  (EngineAnimation.ts:30), then `directions[value]` is `undefined` and
  reading its `rotation` (EngineAnimation.ts:73) throws a `TypeError`. The
  model does not model that exception; it requires a side in 0..5.
- The engine texture's atlas tables (`getBaseUV`, `getTrunkUV`): not part of
  this model. The texture is any pair of total functions, and the model states
  which arguments they are called with.
- The initial contents of the host's render and animation objects: not part
  of this model. The constructor takes them as they are.
- Host render primitives (`refresh`, `setPosition`, `destroy`): foreign
  calls. `setPosition` is the position field of the piston record.
  `refresh` and `destroy` are ghost counters.
- The heat/power update of the engine tile entity (heat-stage derivation,
  power rate limiting, heat clamping): not in the rig source. Power and heat
  stage are inputs of `Update`.
- IEEE-754 rounding of numbers: exact reals are used. For example, 0.1 is
  exact in the model and not in the source.
- `BuildCraft/bundle.js`: block, item and tile-entity registration, world
  mutation, debug output, and an older rig with constant boxes. These are
  thin wrappers over host calls.
