# Asteroids: the sectorized wrap-around world and its per-frame state machines

This project is a Dafny model of the core of a small 3-D asteroids game built on the Babylon.js scene library. The repository holds two versions of the game, and the model covers both:

- **The first version (`src/`)**
  - The world is a stack of 5 × 5 × 5 sectors of edge `Size = 1000`.
  - Every mesh is *sectorized*: it gets one thin instance per sector, translated by the sector offset.
  - A moving node's position is wrapped back into the middle sector after each move.
  - The player ship keeps three orientation deltas, a thrust vector capped at length 5, and a pool of five shots with a 100 ms fire cooldown.
  - A shot flies 7.5 units per frame and retires itself after 750 units.
- **The second version (`app_package/`)**
  - The ship stays at the origin, and the world moves and turns around it.
  - `doSectorWrap` wraps the world's local position with inclusive comparisons, one axis per call, z first.
  - The ship's thrust is a scalar clamped to `[0, 5]`.
  - A key table turns keyboard events into nine flags.
  - The main scene turns held keys into ship calls before each frame. After each frame it moves, wraps and turns the world.

Every imperative piece stays imperative. The world, ship, shot, key table and main scene are classes with `modifies` clauses. The triple loops fill or overwrite a mesh's instance buffer, which is a `seq` field of a `Mesh` object. `fire()` searches the shot pool with a loop and an early return. Each method is proved against a specification function on values (`SectorInstances`, `UpdatedInstances`, `Wrapped`, `SectorWrapped`, `Frame`, `Thrusted`, `Increased`, `AfterKeyEvent`, `HeldDelta`, …). The lemmas state the properties of those functions: enumeration order, index stability, wrap bounds, round trips, lifetime counts, saturation, and per-event effects.

Modules, in dependency order:

| file | module | models |
|---|---|---|
| `vectors.dfy` | `Vectors` | vectors, 3 × 3 rotations, affine transforms; stand-ins for the scene library's transform node and thin-instance mesh |
| `sector_grid.dfy` | `SectorGrid` | the world constants, the sector enumeration and the instance-adding triple loop |
| `src_world.dfy` | `SrcWorld` | `World.Sectorize`, `UpdateSectorizedInstances`, `WrapNode`, `WrapNodePositionOnAxis` and the boundary box |
| `src_shot.dfy` | `Shots` | the shot's activate/deactivate/per-frame state machine |
| `src_player_ship.dfy` | `SrcPlayerShip` | the first player ship: deltas, thrust vector, coast, fire, after-render |
| `app_world.dfy` | `AppWorld` | the second world: constructor loop and `doSectorWrap` |
| `app_player_ship.dfy` | `AppPlayerShip` | the second player ship: deltas and scalar thrust |
| `keyboard_input.dfy` | `KeyboardInput` | the key table |
| `app_main_scene.dfy` | `AppMainScene` | the before-render dispatch and the after-render world update |

The second ship's `fire`, `hide` and `show`, and the first ship's `hide` and `show`, have empty bodies. They are modelled as methods without a `modifies` clause that promise `unchanged(this)`.

## Model

| member | source | states |
|---|---|---|
| SectorGrid.SectorCountIsCube | src/gameObjects/world.ts:28 | the sector count `(2·SectorIndexMax+1)^3` is 125 |
| SectorGrid.SectorInstances | src/gameObjects/world.ts:39-45 | the buffer written by one sectorize pass holds exactly `SectorCount` instances |
| SectorGrid.CoordAtInRange | src/gameObjects/world.ts:39-41 | every step of the nested loops visits a triple in `[-2,2]^3`, and that triple's flat index is the step number |
| SectorGrid.IndexOfInRange | src/gameObjects/world.ts:39-41 | every triple in `[-2,2]^3` is visited, at step `IndexOf(c)` |
| SectorGrid.CoordAtInjective | src/gameObjects/world.ts:39-41 | no triple is visited twice |
| SectorGrid.EnumerationOrder | src/gameObjects/world.ts:39-41 | the steps visit the triples in lexicographic order: x outermost, z innermost |
| SectorGrid.RefreshFlagOnlyAtFarCorner | src/gameObjects/world.ts:42 | within the grid, `x+y+z == 3·SectorIndexMax` holds iff the triple is `(2,2,2)` |
| SectorGrid.RefreshFlagOnlyOnLastInstance | src/gameObjects/world.ts:42 | in enumeration order, the flag is raised on instance 124 only |
| SectorGrid.SectorInstanceAt | src/gameObjects/world.ts:42 | instance `i` is the translation `(x·s, y·s, z·s)` of the `i`-th triple, and it is flagged iff it is the last |
| SectorGrid.AddSectorInstances | src/gameObjects/world.ts:39-45 | the triple loop appends exactly `SectorInstances(scale)` to the mesh's buffer and leaves its scaling alone |
| SrcWorld.Sectorize | src/gameObjects/world.ts:37-46 | sectorizing appends the 125 instances with sector edge `Size / mesh.scaling.x` |
| SrcWorld.BoundaryBoxScale | src/gameObjects/world.ts:38 | for a box scaled to `Size`, the sector edge in mesh units is 1 |
| SrcWorld.World.constructor | src/gameObjects/world.ts:115-121 | the boundary box is scaled to `Size` and receives the unit-offset instance buffer |
| SrcWorld.SectorXformOfRotation | src/gameObjects/world.ts:55-60 | for a rotation `R`, the replica matrix `R · T(offset) · R⁻¹` is a pure translation by `offset · R⁻¹` |
| SrcWorld.SectorXformOfIdentity | src/gameObjects/world.ts:55-60 | with no rotation, the replica matrix is exactly `Translation(offset)` |
| SrcWorld.UpdateSectorizedInstances | src/gameObjects/world.ts:48-66 | the rewrite loop overwrites slots `0..124`, keyed by the running counter, with the replicas of the triples in enumeration order; later slots are kept |
| SrcWorld.ReplicaMovesPoint | src/gameObjects/world.ts:55-60 | a replica turns a point by the node's rotation, moves it by the sector offset and turns it back; for a rotation, that moves the point by the offset taken back through the rotation |
| SrcWorld.UpdatedInstanceAt | src/gameObjects/world.ts:49-63 | slot `i` of an updated buffer is the replica of the `i`-th triple, with that triple's flag |
| SrcWorld.UpdateKeepsSectorAndFlag | src/gameObjects/world.ts:39-63 | index stability: updating a sectorized buffer keeps each slot's triple and flag, and only the matrix changes |
| SrcWorld.UpdateWithoutRotationIsSectorize | src/gameObjects/world.ts:49-63 | with identity rotation, an update pass rewrites a freshly sectorized buffer to itself |
| SrcWorld.WrapNodePositionOnAxis | src/gameObjects/world.ts:77-84 | one axis moves by `WrapAxis(p) - p`, the other axes and the rotation are untouched |
| SrcWorld.WrapAxisCases | src/gameObjects/world.ts:78-83 | one axis adds `Size` iff `p < -HalfSize`, subtracts it iff `HalfSize < p`, and is unchanged iff `p` is in `[-HalfSize, HalfSize]` |
| SrcWorld.WrapNode | src/gameObjects/world.ts:71-75 | the node's position becomes `Wrapped(position)`, with the axes corrected x, then y, then z; the rotation is untouched |
| SrcWorld.WrapInsideIsNoOp | src/gameObjects/world.ts:78-83 | a position in the closed centre box, faces included, is not moved |
| SrcWorld.WrapLandsInCentre | src/gameObjects/world.ts:68-75 | from within `±3·HalfSize` on every axis, one call puts every coordinate in `[-HalfSize, HalfSize]` |
| SrcWorld.WrapUndoesOneSectorStep | src/gameObjects/world.ts:78-83 | round trip: a position in the closed centre box moved by `±Size` along one axis is wrapped back to itself, unless it started on the face behind the step, from where it lands exactly on the opposite face, which the strict test keeps |
| SrcWorld.WrapCrossingFace | src/gameObjects/world.ts:81-83 | crossing the `+z` face by less than a sector re-enters at the `-z` face, offset by the same amount |
| Shots.Shot.constructor | src/gameObjects/shot.ts:34-46 | a new shot is inactive, has zero distance, carries an identity quaternion and a sectorized mesh |
| Shots.Shot.IsActive | src/gameObjects/shot.ts:67-69 | the shot is live exactly while its mesh is visible: the result is the state machine's `active` |
| Shots.Shot.Activate | src/gameObjects/shot.ts:53-61 | the shot becomes active at the given position with zero distance; the quaternion is copied only if given; the mesh's replicas are re-derived |
| Shots.Shot.Deactivate | src/gameObjects/shot.ts:63-65 | only the liveness flag changes, to inactive |
| Shots.Shot.OnAfterRender | src/gameObjects/shot.ts:71-82 | the shot's state becomes `Frame(old state)` |
| Shots.FrameOfInactiveShot | src/gameObjects/shot.ts:72 | a frame changes nothing on an inactive shot |
| Shots.FrameOfActiveShot | src/gameObjects/shot.ts:73-80 | on an active shot, a frame adds `Speed` to the distance; past `MaxDistance` the shot retires without moving, otherwise it advances by `forward·Speed` and is wrapped |
| Shots.ActiveForHundredFrames | src/gameObjects/shot.ts:22-23 | for 100 frames after activation the shot stays active, with distance `n·Speed` |
| Shots.AdvancesOnEachOfHundredFrames | src/gameObjects/shot.ts:78-80 | each of those frames moves the shot one step along its forward axis, then wraps it |
| Shots.RetiredFromFrameHundredOne | src/gameObjects/shot.ts:73-77 | frame 101 retires the shot where frame 100 left it, and later frames change nothing |
| Shots.StaysRetired | src/gameObjects/shot.ts:72 | once retired, the shot is never changed by later frames |
| Shots.LifetimeIsMaxDistanceOverSpeed | src/gameObjects/shot.ts:22-23 | `100·Speed <= MaxDistance < 101·Speed`, so the lifetime is `floor(750/7.5)` frames |
| SrcPlayerShip.NewShotPool | src/gameObjects/playerShip.ts:41 | the pool holds five new, distinct, inactive shots, none sharing a node or a mesh |
| SrcPlayerShip.PlayerShip.constructor | src/gameObjects/playerShip.ts:46-70 | zero deltas, thrust and fire time; a sectorized hull; shot `i` inactive at `(0, 0, 50·i)` |
| SrcPlayerShip.PlayerShip.ResetOrientationIncrements | src/gameObjects/playerShip.ts:77-81 | all three deltas become 0, and the thrust vector and fire time are kept |
| SrcPlayerShip.PlayerShip.PitchUp | src/gameObjects/playerShip.ts:83-85 | pitch is overwritten with `+AngleIncrement`, and the other deltas are kept |
| SrcPlayerShip.PlayerShip.PitchDown | src/gameObjects/playerShip.ts:87-89 | pitch is overwritten with `-AngleIncrement`, and the other deltas are kept |
| SrcPlayerShip.PlayerShip.YawRight | src/gameObjects/playerShip.ts:91-93 | yaw is overwritten with `-AngleIncrement`, and the other deltas are kept |
| SrcPlayerShip.PlayerShip.YawLeft | src/gameObjects/playerShip.ts:95-97 | yaw is overwritten with `+AngleIncrement`, and the other deltas are kept |
| SrcPlayerShip.PlayerShip.RollLeft | src/gameObjects/playerShip.ts:99-101 | roll is overwritten with `-AngleIncrement`, and the other deltas are kept |
| SrcPlayerShip.PlayerShip.RollRight | src/gameObjects/playerShip.ts:103-105 | roll is overwritten with `+AngleIncrement`, and the other deltas are kept |
| SrcPlayerShip.Thrusted | src/gameObjects/playerShip.ts:107-113 | after a thrust step, the squared length is at most `MaxThrust²`; an uncapped step is the plain sum |
| SrcPlayerShip.ThrustCapHasMaxLength | src/gameObjects/playerShip.ts:110-112 | a capped thrust vector is the sum shrunk by a factor in `(0, 1)`, with length exactly `MaxThrust` |
| SrcPlayerShip.PlayerShip.Thrust | src/gameObjects/playerShip.ts:107-113 | the thrust vector becomes `Thrusted(old, forward)` and its length is at most `MaxThrust` |
| SrcPlayerShip.Coasted | src/gameObjects/playerShip.ts:115-117 | coasting scales the squared length by `(1 - CoastFactor)²`, so the length never increases |
| SrcPlayerShip.PlayerShip.Coast | src/gameObjects/playerShip.ts:115-117 | the thrust vector becomes `Coasted(old)`, and its length does not increase |
| SrcPlayerShip.FirstInactive | src/gameObjects/playerShip.ts:122-124 | the result is the lowest index of an inactive shot, or the pool size when all are active |
| SrcPlayerShip.NoSecondShotWithinDelay | src/gameObjects/playerShip.ts:121 | two calls within `FireDelay` ms never both fire |
| SrcPlayerShip.SecondShotAfterDelay | src/gameObjects/playerShip.ts:121-124 | two calls more than `FireDelay` ms apart both fire when a slot is free each time |
| SrcPlayerShip.PlayerShip.Fire | src/gameObjects/playerShip.ts:119-133 | after the strict cooldown and with a free slot, the first inactive shot is activated at `position + forward·60` with the ship's quaternion and the time is recorded; otherwise, and for every other shot, nothing changes |
| SrcPlayerShip.TurnOnlyOnNonZeroDelta | src/gameObjects/playerShip.ts:150-158 | a zero delta never turns the ship, and `±AngleIncrement` always does |
| SrcPlayerShip.NoTurnWithoutDeltas | src/gameObjects/playerShip.ts:150-158 | with all deltas zero, a frame leaves the orientation alone |
| SrcPlayerShip.PlayerShip.Hide | src/gameObjects/playerShip.ts:135-137 | changes no state: the method has no `modifies` clause |
| SrcPlayerShip.PlayerShip.Show | src/gameObjects/playerShip.ts:139-141 | changes no state: the method has no `modifies` clause |
| SrcPlayerShip.PlayerShip.OnAfterRender | src/gameObjects/playerShip.ts:143-161 | the ship drifts by the thrust vector only above `ThrustEpsilon²`, is wrapped, is turned by each significant delta (pitch, yaw, roll about its own axes), and then has its hull replicas re-derived |
| AppWorld.World.constructor | app_package/src/gameObjects/world.ts:58-70 | the boundary box, scaled to `Size`, receives 125 unit translations `(x, y, z)` with the same flag predicate |
| AppWorld.World.DoSectorWrap | app_package/src/gameObjects/world.ts:78-110 | the local position becomes `SectorWrapped(old)`, and the rotation is kept |
| AppWorld.World.LocallyTranslate | app_package/src/gameObjects/world.ts:83 | the local position moves by the given vector, and the rotation is kept |
| AppWorld.World.TranslateWorld | app_package/src/mainScene.ts:71 | a world-space move of `distance` along an axis adds that vector, taken back through the rotation, to the local position; the rotation is kept |
| AppWorld.World.RotateAroundOrigin | app_package/src/mainScene.ts:77-83 | turning about the origin changes only the rotation; the position in local space is kept |
| AppWorld.SectorWrapFixedPoints | app_package/src/gameObjects/world.ts:80-109 | a call changes nothing iff every local coordinate is strictly inside `(-HalfSize, HalfSize)` |
| AppWorld.SectorWrapCorrectsOneAxis | app_package/src/gameObjects/world.ts:81-108 | a call changes at most one coordinate, by exactly `+Size` from on or below `-HalfSize` or `-Size` from on or above `HalfSize`; it changes exactly one when the position is not strictly inside |
| AppWorld.SectorWrapZFirst | app_package/src/gameObjects/world.ts:80-89 | while z is on or past a face, only z is corrected, even if x or y are out too |
| AppWorld.SectorWrapYBeforeX | app_package/src/gameObjects/world.ts:90-99 | with z inside and y on or past a face, only y is corrected |
| AppWorld.SectorWrapIncludesFaces | app_package/src/gameObjects/world.ts:80-88 | a z of exactly `±HalfSize` is moved to the opposite face |
| AppWorld.FaceCoordinateAlternates | app_package/src/gameObjects/world.ts:80-88 | a z of exactly `HalfSize` alternates between the two faces on successive calls, and x and y are never reached |
| AppWorld.DiffersFromStrictWrapOnlyOnFaces | app_package/src/gameObjects/world.ts:80 | the inclusive test and the first version's strict test disagree exactly at `±HalfSize` |
| AppWorld.SectorWrapSettlesOneAxis | app_package/src/gameObjects/world.ts:80-109 | near the middle sector and off the faces, each call moves one pending coordinate strictly inside and creates no new pending one |
| AppWorld.SectorWrapsSettle | app_package/src/gameObjects/world.ts:75-77 | near the middle sector and off the faces, at most three successive calls bring the world strictly inside the middle sector |
| AppWorld.SectorWrapsOfFixedPoint | app_package/src/gameObjects/world.ts:80-109 | once strictly inside, further calls leave the world where it is |
| AppWorld.FaceStarvesOtherAxes | app_package/src/gameObjects/world.ts:80-89 | while z sits exactly on a face and nothing else moves the world, z keeps flipping between the faces and x and y are never corrected |
| AppWorld.StarvedWorldNeverReturns | app_package/src/gameObjects/world.ts:75-110 | a world at rest at `(HalfSize + 1, 0, HalfSize)` keeps `x = HalfSize + 1` after any number of calls |
| AppWorld.HalfOpenWrapFixedPoints | app_package/src/gameObjects/world.ts:80-109 | the corrected wrap changes nothing exactly inside the half-open box `[-HalfSize, HalfSize)^3` |
| AppWorld.HalfOpenWrapSettlesOneAxis | app_package/src/gameObjects/world.ts:80-109 | within one sector of the middle one, faces included, each call of the corrected wrap moves one pending coordinate inside |
| AppWorld.HalfOpenWrapsSettle | app_package/src/gameObjects/world.ts:75-77 | with no exception for the faces, at most three calls of the corrected wrap bring the world into the middle sector |
| AppWorld.HalfOpenWrapsOfFixedPoint | app_package/src/gameObjects/world.ts:80-109 | once inside, further calls of the corrected wrap leave the world where it is |
| AppWorld.StarvedWorldReturnsUnderHalfOpenWrap | app_package/src/gameObjects/world.ts:75-77 | the starved example is inside the middle sector after three calls of the corrected wrap |
| AppPlayerShip.PlayerShip.constructor | app_package/src/gameObjects/playerShip.ts:37-40 | all three deltas and the thrust start at 0 |
| AppPlayerShip.PlayerShip.ResetOrientationIncrements | app_package/src/gameObjects/playerShip.ts:42-46 | all three deltas become 0, and the thrust is kept |
| AppPlayerShip.PlayerShip.PitchUp | app_package/src/gameObjects/playerShip.ts:48-50 | pitch is overwritten with `+AngleIncrement`, and the rest is kept |
| AppPlayerShip.PlayerShip.PitchDown | app_package/src/gameObjects/playerShip.ts:52-54 | pitch is overwritten with `-AngleIncrement`, and the rest is kept |
| AppPlayerShip.PlayerShip.YawRight | app_package/src/gameObjects/playerShip.ts:56-58 | yaw is overwritten with `-AngleIncrement`, and the rest is kept |
| AppPlayerShip.PlayerShip.YawLeft | app_package/src/gameObjects/playerShip.ts:60-62 | yaw is overwritten with `+AngleIncrement`, and the rest is kept |
| AppPlayerShip.PlayerShip.RollLeft | app_package/src/gameObjects/playerShip.ts:64-66 | roll is overwritten with `-AngleIncrement`, and the rest is kept |
| AppPlayerShip.PlayerShip.RollRight | app_package/src/gameObjects/playerShip.ts:68-70 | roll is overwritten with `+AngleIncrement`, and the rest is kept |
| AppPlayerShip.Increased | app_package/src/gameObjects/playerShip.ts:72-76 | below `MaxThrust` the thrust grows by at most `ThrustIncrement`, by exactly that amount when not capped, and never past `MaxThrust`; at or above `MaxThrust` it is unchanged |
| AppPlayerShip.Decreased | app_package/src/gameObjects/playerShip.ts:78-82 | above 0 the thrust shrinks by at most `ThrustIncrement`, by exactly that amount when not floored, and never below 0; at or below 0 it is unchanged |
| AppPlayerShip.PlayerShip.IncreaseThrust | app_package/src/gameObjects/playerShip.ts:72-76 | the thrust becomes `Increased(old)` and stays in `[0, MaxThrust]`; the deltas are kept |
| AppPlayerShip.PlayerShip.DecreaseThrust | app_package/src/gameObjects/playerShip.ts:78-82 | the thrust becomes `Decreased(old)` and stays in `[0, MaxThrust]`; the deltas are kept |
| AppPlayerShip.PlayerShip.Fire | app_package/src/gameObjects/playerShip.ts:84-86 | changes no state: the method has no `modifies` clause |
| AppPlayerShip.PlayerShip.Hide | app_package/src/gameObjects/playerShip.ts:88-90 | changes no state: the method has no `modifies` clause |
| AppPlayerShip.PlayerShip.Show | app_package/src/gameObjects/playerShip.ts:92-94 | changes no state: the method has no `modifies` clause |
| AppPlayerShip.ThrustUpdatesStayInRange | app_package/src/gameObjects/playerShip.ts:40 | both updates preserve `0 <= thrust <= MaxThrust` |
| AppPlayerShip.IncreasesFromRest | app_package/src/gameObjects/playerShip.ts:73-75 | from rest, `n` increases give `min(n·ThrustIncrement, MaxThrust)` |
| AppPlayerShip.IncreasesSaturate | app_package/src/gameObjects/playerShip.ts:73-75 | from rest, 500 or more increases give exactly `MaxThrust` |
| AppPlayerShip.DecreasesFrom | app_package/src/gameObjects/playerShip.ts:79-81 | from a non-negative thrust, `n` decreases give `max(0, thrust - n·ThrustIncrement)` |
| AppPlayerShip.DecreasesReachRest | app_package/src/gameObjects/playerShip.ts:79-81 | from full thrust, 500 or more decreases give exactly 0 |
| KeyboardInput.MappedKeys | app_package/src/inputs/keyboardInput.ts:11-44 | exactly the nine keys `" "`, `w`, `s`, the four arrows, `a` and `d` are mapped |
| KeyboardInput.FlagOfKeyInjective | app_package/src/inputs/keyboardInput.ts:11-44 | no two keys share a flag |
| KeyboardInput.KeyTable | app_package/src/inputs/keyboardInput.ts:12-43 | the key-to-flag table: space fires, `w` thrusts, `s` warps, the arrows yaw and pitch, `a` rolls counter-clockwise, `d` rolls clockwise |
| KeyboardInput.EveryFlagHasAKey | app_package/src/inputs/keyboardInput.ts:12-43 | every one of the nine flags is reachable from some key |
| KeyboardInput.KeyboardInput.constructor | app_package/src/inputs/keyboardInput.ts:65-73 | all nine flags start released |
| KeyboardInput.KeyboardInput.Assign | app_package/src/inputs/keyboardInput.ts:13-42 | one `case` writes exactly its own field |
| KeyboardInput.KeyboardInput.OnKeyboardEvent | app_package/src/inputs/keyboardInput.ts:8-44 | the flags become `AfterKeyEvent(old flags, key, type)` |
| KeyboardInput.AfterKeyEventEffect | app_package/src/inputs/keyboardInput.ts:10-44 | an event sets its key's flag to "key-down", and every other flag is kept |
| KeyboardInput.UnmappedKeyChangesNothing | app_package/src/inputs/keyboardInput.ts:11-44 | a key with no `case` changes no flag |
| KeyboardInput.KeyEventChangesAtMostOneFlag | app_package/src/inputs/keyboardInput.ts:11-44 | an event changes at most one flag, and only its key's |
| KeyboardInput.KeyEventIdempotent | app_package/src/inputs/keyboardInput.ts:11-44 | repeating an event (auto-repeat) changes nothing further |
| KeyboardInput.KeyEventsCommute | app_package/src/inputs/keyboardInput.ts:11-44 | events on keys with different flags can be applied in either order |
| KeyboardInput.ReleaseAfterPress | app_package/src/inputs/keyboardInput.ts:10-44 | a key-down followed by a key-up of the same key restores a released flag |
| KeyboardInput.AfterRender | app_package/src/inputs/keyboardInput.ts:59-62 | after a frame, fire and warp are released and the other seven flags are kept |
| KeyboardInput.KeyboardInput.OnAfterRender | app_package/src/inputs/keyboardInput.ts:59-62 | the flags become `AfterRender(old flags)` |
| KeyboardInput.OneShotFlagsLastOneFrame | app_package/src/inputs/keyboardInput.ts:59-62 | clearing is idempotent; a fire key-down is gone after one frame, while a thrust key-down survives it |
| AppMainScene.HeldDelta | app_package/src/mainScene.ts:30-51 | after the reset and the two `if`s, the second key wins, the first alone gives the negative increment, and neither gives 0 |
| AppMainScene.TurnsIffKeyHeld | app_package/src/mainScene.ts:76-84 | the world turns about an axis iff one of that axis's keys is held |
| AppMainScene.MainScene.constructor | app_package/src/mainScene.ts:26-27 | a new ship at rest and a new world at the origin, unturned, with its sector instances |
| AppMainScene.MainScene.OnBeforeRender | app_package/src/mainScene.ts:29-67 | the deltas are the `HeldDelta` of each key pair; exactly one of increase/decrease thrust runs, increase iff the thrust key is held; fire runs iff its key is held; warp has no effect |
| AppMainScene.NoPushAtRest | app_package/src/mainScene.ts:70-72 | at or below `ThrustEpsilon` the world does not move |
| AppMainScene.PushWithoutRotation | app_package/src/mainScene.ts:70-72 | with no rotation, the push is `-thrust` along world Z |
| AppMainScene.NoTurnWithoutKeys | app_package/src/mainScene.ts:76-84 | with no orientation key held, the world is not turned |
| AppMainScene.PitchKeyTurns | app_package/src/mainScene.ts:76-78 | a held pitch key turns the world about X by the winning key's increment |
| AppMainScene.MainScene.OnAfterRender | app_package/src/mainScene.ts:69-85 | the world's local position becomes `SectorWrapped(Pushed(old, thrust))`, so the wrap is always applied; its rotation becomes the pitch, yaw and roll turns gated by `AngleIncrementEpsilon` |

## Left out

- Rendering: meshes, materials, SVG textures, wireframes and `bakeCurrentTransformIntoVertices`. These are library calls without game logic. The first ship's hull is modelled with scaling 1, which is what baking the scale of 50 into its vertices leaves. Mesh parenting and the hull's local offset are not modelled.
- Rotation internals. `rotateAround` is a function parameter of type `Rotator`, with the new rotation left to the caller. A rotation's inverse is taken to be its transpose. `forward`, `right` and `up` are the third, first and second rows of the rotation matrix. Quaternions are kept as their rotation matrices.
- SrcPlayerShip.Thrusted: the vector length (a square root) is a parameter of type `Vec3 -> real` that is required to be the Euclidean length. The model does not compute square roots.
- Floating point: positions, distances and thrust are exact reals. IEEE rounding is not modelled.
- Wall-clock time: `Date.now()` becomes the `now` parameter of `fire`.
- The DOM and the UI: the cursor and timeout UI, the inspector, the fullscreen toggle on Enter, and the `console.log` of the sector count in the second world's constructor. These are input and output only.
- `src/mainScene.ts` is not part of this model. Its dispatch is a copy of the second version's. Its after-render path calls members that the first ship does not define, or keeps private.
- AppMainScene.MainScene.OnBeforeRender: the dispatch reads a `HeldKeys` value rather than the key table. The main scene reads `rollLeftIsPressed` and `rollRightIsPressed`, which the key table does not define (it has `rollCounterClockwiseIsPressed` and `rollClockwiseIsPressed`). So the link between the key table and the dispatch is not modelled.
- AppMainScene.MainScene.OnBeforeRender: the counters `fireCalls`, `increaseCalls` and `decreaseCalls` stand in for observing the calls. The second ship's `fire()` has an empty body.
- AppPlayerShip.PlayerShip.constructor: the call to `World.Sectorize` is not modelled, because the second version's `World` has no such member.
- The second world's scene-graph state is kept as its position in its own local space plus its rotation. That is what `getPositionExpressedInLocalSpace`, `locallyTranslate(v)` (local += v), `translate(axis, d, WORLD)` (local += d·axis·R⁻¹) and `rotateAround(origin, …)` (local unchanged) act on. The world-space position is not modelled.
- The second argument of `thinInstanceAdd` and `thinInstanceSetMatrixAt` is the scene library's buffer-refresh flag, and the field is named `refresh`. The predicate `x+y+z == 3·SectorIndexMax` is kept exactly as written. It holds only at the last instance, so the buffer is refreshed once per pass.
- `thinInstanceSetMatrixAt` with an index past the end of the buffer is modelled as doing nothing, as the scene library does.
- The empty `_onAfterRender` of the second world, and the registration of observers with the scene. Each registered callback is a method the caller invokes once per event.

## Findings

`doSectorWrap` is documented to keep the world in the middle sector "no matter how far the player ship moves". Its tests are inclusive on both sides, so a z coordinate of exactly `HalfSize` is moved to `-HalfSize`, and on the next call back again. The else-if chain never reaches y and x while z is on a face. A world at rest, or one pushed along a direction with no local z component, can therefore drift or stay outside the middle sector on x or y for good. The world class keeps the behaviour as written, because it models the code; the corrected wrap is a separate function with its property proved.

| source | as written | input that shows it | evidently intended | confidence | as-written member | corrected member |
|---|---|---|---|---|---|---|
| app_package/src/gameObjects/world.ts:80-109 | both face tests inclusive (`<=` on the lower and upper face) | local position `(HalfSize + 1, 0, HalfSize)` with the ship at rest: z alternates between `±HalfSize`, and x stays at `HalfSize + 1` | one test strict, so the middle sector is half-open and every axis is eventually reached | low, not executed | AppWorld.StarvedWorldNeverReturns | AppWorld.HalfOpenWrapsSettle |
