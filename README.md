# Brick wall, ramp, rolling cubes and cannon: a Dafny model of the simulation core

The program is a three.js + Ammo.js scene. A 6 x 6 running-bond brick wall sits under a
ramp. Two blocks of terrain sit at the ramp's ends. Four cubes roll across the ramp from the
left terrain to the right one in six seconds. A cannon 15 units in front of the wall fires
three red balls at 4 s, 6.5 s and 9 s. Every frame the physics world is stepped, and each
dynamic body's world transform is copied back onto its mesh.

This project models the deterministic logic under the rendering and the physics engine:

- **Layout** (`layout.dfy`): the scene's constants and the closed-form placement formulas for
  the wall, the ramp, the terrain, the muzzle and the cubes' starting places.
- **Physics** (`physics.dfy`): collision shapes, rigid bodies as the world holds them, the body
  the bridge registers for (shape, mass, position, rotation) and the opaque world step, which
  supplies each body's new transform and velocity. The
  class `Mesh` is a scene object whose transform is updated in place.
- **Scene** (`scene.dfy`): the concrete bodies registered for the ground, each brick, the ramp
  and each ball.
- **Sweep** (`sweep.dfy`): the `cubeAnim` record and the progress, distance, lead-x and
  rolling-angle formulas of the cube update.
- **Timeline** (`timeline.dfy`): the one-shot cannon timers, as a queue of pending shots kept
  sorted by fire time and polled against a clock.
- **Simulation** (`simulation.dfy`): the class `World`, which holds the program's globals
  (`bodies`, `rigidBodies`, `objetos`, `cubeAnim`, `cannonMuzzlePos`, the pending timers and
  the clock). Its methods are the program's operations:
  - `CreateRigidBody` and the per-frame sync `UpdatePhysics`;
  - the scene builders;
  - `Cubo` / `CreateRollingCubes` and `UpdateCubeAnimation`;
  - `ScheduleCannonShots`, `ShootFromCannon` and the timer poll `FireDueShots`;
  - a whole display frame, `AnimationFrame`;
  - `Start`.

  The invariant `Valid` holds throughout:
  - every mesh in the sync list has a dynamic body;
  - the cubes have no body and are listed once;
  - the sweep's divisions are defined;
  - the timers are in firing order.

A mesh refers to its body by index into `World.bodies`. This stands for `userData.physicsBody`.
One engine step is a parameter: `next[i]` is the world transform and linear velocity the engine
computed for body `i`. Time is explicit: a frame takes `deltaTime` in seconds. The clock
`elapsedMs` counts the milliseconds since start, and a timer fires at the first poll at or after
its fire time. A browser runs due timer callbacks before the next animation frame. So a frame
first advances the clock and fires the shots now due, and only then steps and syncs physics. The
step's `next` covers the new balls, so a ball fired before a frame is stepped and synced in that
frame.

The model follows the code on these points:

- `cubeAnim.time` keeps growing past `duration`; only the progress `tNorm` is clamped to 1.
  Progress is not clamped below 0, so `tNorm` can be negative if `time` is negative
  (`Sweep.TNorm`).
- The two terrain blocks get no physics body at all (`CreateSideTerrain`).
- The four cubes start centred on `startX`, at offsets -1.5, -0.5, 0.5 and 1.5 spacings, so two
  of them start right of it. The per-frame update uses the same centred offsets.

## Model

| member | source | states |
|---|---|---|
| Layout.InitialCubePos | src/index.js:350-366 | the builder's i-th cube rests at height y = rampHeight + rampThickness/2 + cubeSize/2 and depth wallCenterZ |
| Layout.BrickX | src/index.js:249-252 | defines a brick's x: its slot x brickLength from the row's left end, (numBricksLength - 1) half-bricks left of wallCenterX, plus the row's offset |
| Layout.BrickY | src/index.js:253 | defines the height of a row's brick centres: halfH + y brickHeight |
| Layout.BrickPos | src/index.js:249-256 | defines where brick x of row y stands: (xPos, yPos, wallCenterZ) |
| Layout.WallBrick | src/index.js:237-256 | defines the place of the k-th brick built, with rows outer and the bricks of a row inner |
| Layout.RowOffset | src/index.js:239 | the row shift is 0 exactly on even rows, and otherwise halfL |
| Layout.WallBrickIndex | src/index.js:237-253 | the brick built at step (y, x) of the nested loops is the (6y + x)-th brick of the creation order |
| Layout.BricksAdjacent | src/index.js:249-252 | neighbouring bricks of one row are exactly brickLength apart, so their faces touch |
| Layout.RunningBond | src/index.js:237-253 | row y is shifted from row 0 by its row offset; an odd row sits +halfL and an even row -halfL from the row below |
| Layout.RowsStack | src/index.js:237-253 | each row's top is the next row's bottom, the first row stands on y = 0 and the top row ends at wallHeight |
| Layout.RowSumClosed | src/index.js:241-252 | closed form of the sum of a row's first n brick x positions (an arithmetic series with step brickLength) |
| Layout.RowCentre | src/index.js:237-253 | the mean x of row y is wallCenterX plus its row offset, so even rows are centred on the wall |
| Layout.EvenRowSymmetric | src/index.js:249-252 | an even row is mirror-symmetric about wallCenterX, and its outer edge lies 6 half-bricks from the centre |
| Layout.RampClearsWall | src/index.js:24-34 | the ramp's underside is 0.5 above the wall's top; rampHeight = 4.25 |
| Layout.TerrainMeetsRamp | src/index.js:203-222 | both terrain blocks are level with the ramp's top surface, and their inner faces meet the ramp's two ends |
| Layout.CubesOnRamp | src/index.js:350-361 | the cubes rest on the ramp's top surface; the sweep runs from the left terrain centre to the right one, over rampLength + landWidth |
| Layout.InitialCubesEvenlySpaced | src/index.js:363-366 | consecutive initial cubes are one spacing apart, and the outer two are symmetric about startX |
| Layout.MuzzlePlacement | src/index.js:296-328 | the muzzle is at x = wallCenterX, 0.5 above rampHeight, 15 units in front of the wall |
| Physics.IsDynamic | src/index.js:155 | defines which bodies are synced: those with mass > 0 |
| Physics.RegisteredBody | src/index.js:131-161 | a registered body has the given shape and mass, a motion state at (pos, quat) and zero velocity; its inertia comes from the shape, and deactivation is disabled, exactly when mass > 0 |
| Physics.Stepped | src/index.js:433-440 | a world step sets every body's linear velocity to the engine's, and the world transform of each body that has a motion state to the engine's; shape, mass, inertia, activation and which bodies have a motion state stay fixed |
| Physics.Mesh.constructor | src/index.js:335-338 | a new mesh stands at the given position with the identity rotation and no physics body |
| Scene.BrickBody | src/index.js:259-267 | defines the k-th brick's body: the brick box, mass 0.8, at WallBrick(k) with the identity rotation |
| Scene.BallSpawn | src/index.js:397-401 | defines where a ball appears: the muzzle shifted by spread on x |
| Scene.BallVelocity | src/index.js:413 | defines a ball's launch velocity (3 spread, 0, 20) |
| Scene.BallBody | src/index.js:404-413 | defines a ball's body: a radius-0.5, mass-3 sphere at its spawn point with its launch velocity |
| Scene.AfterShots | src/index.js:381-413 | the bodies after shots fire in order: the old bodies unchanged, then one ball per shot, in shot order |
| Scene.WallComplete | src/index.js:237-268 | bodies that extend a prefix by the k-th brick at each position k past it are that prefix followed by the wall's 36 bodies |
| Scene.WallPlaces | src/index.js:249-267 | a transform read off the k-th wall body stands at WallBrick(k) |
| Scene.WallBodies | src/index.js:237-268 | the wall registers 36 bodies, and the k-th is the k-th brick's box at its running-bond place |
| Scene.SyncedKinds | src/index.js:155-158 | bricks, the ramp and balls have mass > 0 and are synced; the ground, with mass 0, is not |
| Scene.BallLaunch | src/index.js:389-413 | a ball is a radius-0.5, mass-3 sphere at muzzle + (spread, 0, 0) with velocity (3 spread, 0, 20); its sideways drift per unit of forward travel is 3 spread / 20 |
| Sweep.Advance | src/index.js:453 | defines one frame of the sweep: time grows by deltaTime |
| Sweep.CubePosition | src/index.js:466-469 | defines cube i's pose: the lead x plus (i - 1.5) spacings, at the record's y and z |
| Sweep.Quotient | src/index.js:455-456 | dividing by a positive duration: the quotient exceeds 1, or equals 1, exactly when time exceeds, or equals, the duration |
| Sweep.TNorm | src/index.js:455-456 | progress is at most 1 and not negative for non-negative time; it is 1 exactly when time has reached duration, and otherwise it is time / duration |
| Sweep.Distance | src/index.js:458-459 | the distance covered is the full span once time reaches duration, and 0 at time 0 |
| Sweep.CurrentX | src/index.js:460 | the lead x is endX once time reaches duration and startX at time 0; for non-negative time it stays between them |
| Sweep.Angle | src/index.js:462 | no slipping: radius times the rolling angle equals the distance covered |
| Sweep.Run | src/index.js:453 | a series of frames changes only the record's time |
| Sweep.RunAdvances | src/index.js:453 | after a series of frames, time has grown by the sum of their deltas |
| Sweep.SumNonNegative | src/index.js:453 | frames with non-negative deltas add a non-negative total |
| Sweep.TNormMonotone | src/index.js:453-456 | one frame with deltaTime >= 0 never decreases progress |
| Sweep.ProgressNonDecreasing | src/index.js:453-456 | over any series of frames with non-negative deltas, progress never decreases |
| Sweep.SamePoseWhenStopped | src/index.js:455-471 | two records that differ only in a time at or past the duration give the same lead x (endX), cube positions and angle |
| Sweep.Frozen | src/index.js:451-474 | once time has reached duration, further frames with non-negative deltas leave every cube's pose unchanged (Rolling -> Stopped is terminal) |
| Sweep.StartMatchesBuilder | src/index.js:363-471 | at time 0, the update's centred offsets reproduce where the builder put the four cubes, with angle 0 |
| Sweep.RigidGroup | src/index.js:465-469 | in every frame, cubes i and j are (j - i) spacings apart on x and share y and z |
| Sweep.Halfway | src/index.js:455-460 | with duration 6 at time 3, progress is 1/2 and the lead is halfway between startX and endX |
| Sweep.ScriptedSweep | src/index.js:357-462 | the scripted sweep ends at the right terrain's centre after 60 radians of rotation |
| Timeline.Insert | src/index.js:381-383 | defines registering a timer: the shot goes after every pending shot due no later than it |
| Timeline.Due | src/index.js:381-383 | defines the shots a poll fires: the leading shots due by now |
| Timeline.Remaining | src/index.js:381-383 | defines the shots a poll leaves: those after the leading due ones |
| Timeline.CannonScript | src/index.js:380-384 | defines the script's three registrations, 4000, 6500 and 9000 ms after now |
| Timeline.SortedTail | src/index.js:380-384 | the rest of a sorted timer queue is sorted, and no earlier than its head |
| Timeline.InsertContents | src/index.js:381-383 | registering a timer adds exactly that shot to the queue (as a multiset) |
| Timeline.InsertBounded | src/index.js:381-383 | registering keeps every lower bound shared by the queue and the new shot |
| Timeline.InsertSorted | src/index.js:381-383 | registering keeps the queue in firing order |
| Timeline.PollSplits | src/index.js:381-383 | a poll splits the queue: the shots fired, followed by the shots still pending, give back the queue |
| Timeline.PollExact | src/index.js:381-383 | on a sorted queue, a poll fires every shot due by now and only those; every shot left is due strictly later |
| Timeline.NoRefire | src/index.js:381-383 | a second poll at the same time fires nothing, so no timer fires twice |
| Timeline.PollTwice | src/index.js:381-383 | polling at t1 and then at t2 >= t1 fires, in total and in order, exactly what one poll at t2 fires, whichever frames the polls land on |
| Timeline.ScheduleScript | src/index.js:380-384 | registering the three timers at time 0 gives shots at 4000, 6500 and 9000 ms with spreads 0, 0.5 and -0.5, already in firing order |
| Timeline.ScriptFiring | src/index.js:380-384 | no ball exists before 4 s, one from 4 s, two from 6.5 s and all three from 9 s; after that nothing is pending |
| Simulation.World.constructor | src/index.js:8-51 | the globals as loaded: no physics world, no bodies, empty lists, the default cubeAnim record, muzzle at the origin, no timers |
| Simulation.World.InitPhysics | src/index.js:114-129 | creates the physics world, with gravity (0, -9.8, 0) |
| Simulation.World.CreateRigidBody | src/index.js:131-161 | the body is always added, and is the mesh's physicsBody; the mesh joins the sync list exactly when mass > 0; the invariant is kept |
| Simulation.World.SyncMesh | src/index.js:436-445 | the mesh shows its body's world transform; a body without a motion state leaves the mesh alone |
| Simulation.World.SyncTransforms | src/index.js:435-446 | after the loop, every synced mesh shows its body's world transform, and meshes whose body has no motion state are untouched; only the synced meshes' positions and rotations change |
| Simulation.World.UpdatePhysics | src/index.js:430-447 | before the world exists, nothing changes; otherwise the bodies become the stepped world and every synced mesh mirrors its body |
| Simulation.World.CreateGround | src/index.js:172-195 | one static body, the 60 x 1 x 40 slab at (0, -0.5, 0); the sync list is unchanged |
| Simulation.World.CreateSideTerrain | src/index.js:198-224 | two new meshes at the terrain centres, with no physics body |
| Simulation.World.AddBrick | src/index.js:242-267 | one new synced brick mesh at its running-bond place, with the brick's box registered |
| Simulation.World.AddWallBrick | src/index.js:241-267 | step (y, x) of the wall's loops: one new synced brick mesh at BrickPos(x, y), appended to the bricks so far; the bodies stay the prefix followed by bricks in order, and every brick mesh stands at its body's origin |
| Simulation.World.CreateBrickRow | src/index.js:241-268 | row y appends six new synced brick meshes, brick x at BrickPos(x, y), each paired with its brick body in creation order; earlier bricks are unchanged |
| Simulation.World.CreateBrickWall | src/index.js:226-270 | the wall adds exactly the 36 brick bodies in creation order; all 36 meshes are new and join the sync list, each paired with its body, and the k-th stands at WallBrick(k) |
| Simulation.World.CreateRamp | src/index.js:272-292 | one new synced ramp mesh at (wallCenterX, rampHeight, wallCenterZ), with the ramp's box registered |
| Simulation.World.CreateCubeCannon | src/index.js:295-329 | building the cannon sets the muzzle position |
| Simulation.World.CreateScene | src/index.js:164-170 | ground, wall and ramp bodies in that order; 37 new synced meshes, each paired with its body, the k-th brick's at WallBrick(k) and the ramp's at its centre; the muzzle is set |
| Simulation.World.Cubo | src/index.js:332-341 | appends one new cube mesh at the given position to the cube list |
| Simulation.World.CreateRollingCubes | src/index.js:344-377 | the cube list becomes four new cubes at startX - 1.5, -0.5, +0.5 and +1.5 spacings, and the sweep record is filled in |
| Simulation.World.StartSweep | src/index.js:368-376 | the sweep record runs from the left terrain centre to the right one in 6 s, with radius cubeSize / 2 |
| Simulation.World.PlaceCube | src/index.js:467-471 | sets one cube's position and z rotation |
| Simulation.World.PoseCubes | src/index.js:464-474 | cube i is at the lead x plus (i - 1.5) spacings, at the record's y and z, and turned by minus the rolling angle; nothing else changes |
| Simulation.World.UpdateCubeAnimation | src/index.js:450-475 | nothing changes while the record is uninitialised or the cube list is empty; otherwise time grows by deltaTime and every cube takes its pose from the new record |
| Simulation.World.ScheduleShot | src/index.js:381-383 | registers one timer at now + delay, keeping the queue sorted and adding exactly that shot |
| Simulation.World.ScheduleCannonShots | src/index.js:380-384 | the queue gains the script's three timers, 4000, 6500 and 9000 ms after now |
| Simulation.World.ShootFromCannon | src/index.js:386-414 | adds one ball body at the muzzle shifted by spread, launched at (3 spread, 0, 20); its new mesh joins the sync list |
| Simulation.World.PollTimers | src/index.js:381-383 | a poll takes exactly the due shots off the queue, in firing order |
| Simulation.World.FireShots | src/index.js:381-414 | firing shots in order appends one ball body per shot (AfterShots), and one new synced mesh per ball at its spawn point, paired with it |
| Simulation.World.FireDueShots | src/index.js:381-414 | every due shot fires, in order, and leaves the queue; the bodies become AfterShots of the due shots, with one new synced mesh per fired ball |
| Simulation.World.AnimationLoop | src/index.js:417-428 | the frame loop's body: the bodies are stepped once the world exists, every synced mesh then mirrors its body, and the sweep advances with every cube posed from the new record |
| Simulation.World.AnimationFrame | src/index.js:417-428 | the clock advances by deltaTime and the shots now due fire first; then the bodies, balls included, are stepped, every synced mesh mirrors its body, and the sweep advances with every cube posed; the world, gravity and muzzle are untouched |
| Simulation.World.Start | src/index.js:56-63 | start creates the physics world, adds the ground, wall and ramp bodies in order, puts the bricks' meshes (at WallBrick(k)) and the ramp's (at its centre) in the sync list, creates the four new cubes at their starting places and the sweep record, sets the muzzle and registers the three timers |

## Left out

- Rendering is not modelled because it is graphics plumbing with no simulation state: geometries, materials, lights, shadows, the camera, `OrbitControls`, the resize handler and `renderer.render`. So `initGraphics` and the camera `lookAt` in the frame loop are not modelled.
- The physics engine is a foreign call. The integrator, collisions, constraint solving and `calculateLocalInertia` are not modelled: a step is whatever per-body transforms and velocities the caller supplies (`next`), and a body only records that its inertia comes from its shape.
- `stepSimulation`'s sub-step limit (10) and its fixed internal time step belong to the engine and are not modelled.
- `requestAnimationFrame`, `THREE.Clock` and `setTimeout` are platform event loop and clock facilities. They are replaced by an explicit `deltaTime` per frame, the `elapsedMs` clock and the polled timer queue.
- `TWEEN.update()` has no observable effect, because the program creates no tween.
- Coordinates and times are `real`, not IEEE-754 doubles, so rounding is not modelled.
- A cube's z rotation is kept as the one number `rotationZ`. three.js would also update the cube's quaternion from its Euler angles, and that coupling is not modelled.
- Meshes that are only scenery are not kept in any list, because the scene graph is rendering state: the terrain blocks, the three cannon meshes and the global `rampMesh`.
- Shape margins (0.05), geometry segment counts and colours are visual or engine tuning.
- The guard `if (!cannonMuzzlePos) return;` in `shootFromCannon` is not modelled, because it can never trigger: `cannonMuzzlePos` is always an object.
- Simulation.World.Start: states its effect relative to the state it starts from; it does not separately restate the values that follow from the globals as loaded. From those (`Simulation.World.constructor`), the queue becomes `CannonScript([], 0.0)`, which `Timeline.ScheduleScript` shows equals the three scripted shots.
- Physics.Stepped: the engine's activation-state changes (a body falling asleep or waking) are not modelled; a step takes its transforms and velocities from `next` and keeps each body's activation state.
- Physics.RegisteredBody: for a mass-0 body it states activation state 1 (ACTIVE_TAG), the engine's default for a new body; the program itself sets an activation state only when mass > 0.
