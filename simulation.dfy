/** The program's global state and the operations that change it: the
    physics bridge (body registration and the per-frame transform sync), the
    scene builder, the cube sweep update, the cannon and its timers, and the
    frame loop that ties them together. */
module Simulation {
  import opened Geometry
  import opened Physics
  import opened Layout
  import opened Sweep
  import opened Timeline
  import opened Scene

  /** The globals of the program, gathered into one aggregate. */
  class World {
    /** Whether the physics world has been created. */
    var physicsReady: bool
    var gravity: Vec3
    /** The bodies added to the physics world, in insertion order; a mesh refers to its body by index. */
    var bodies: seq<Body>
    /** The meshes whose transforms are copied back from their bodies every frame. */
    var rigidBodies: seq<Mesh>
    /** The rolling cubes, in creation order. */
    var objetos: seq<Mesh>
    var cubeAnim: CubeAnim
    var cannonMuzzlePos: Vec3
    /** Cannon timers registered and not yet fired. */
    var pending: seq<Shot>
    /** Wall-clock milliseconds since start. */
    var elapsedMs: real

    /** m is paired with a dynamic body of the world. */
    ghost predicate Tracked(m: Mesh)
      reads this`bodies, m`physicsBody
    {
      m.physicsBody.Some? && m.physicsBody.value < |bodies| && IsDynamic(bodies[m.physicsBody.value])
    }

    /** m has no physics body. */
    ghost predicate Unpaired(m: Mesh)
      reads m`physicsBody
    {
      m.physicsBody.None?
    }

    /** Every synced mesh has a dynamic body; the cubes have no body (so none is synced) and are
        listed once; the sweep's divisions are defined; the timers are in firing order. */
    ghost predicate Valid()
      reads this, rigidBodies`physicsBody, objetos`physicsBody
    {
      (forall i :: 0 <= i < |rigidBodies| ==> Tracked(rigidBodies[i])) &&
      (forall i :: 0 <= i < |objetos| ==> Unpaired(objetos[i])) &&
      (forall i, j :: 0 <= i < j < |objetos| ==> objetos[i] != objetos[j]) &&
      WellFormed(cubeAnim) &&
      Sorted(pending)
    }

    /** m was just built at p and registered with body number b. */
    ghost predicate BuiltAt(m: Mesh, p: Vec3, b: nat)
      reads m
    {
      m.position == p && m.quaternion == Identity && m.rotationZ == 0.0 && m.physicsBody == Some(b)
    }

    /** The globals' values when the program is loaded. */
    ghost predicate Initial()
      reads this
    {
      !physicsReady && bodies == [] && rigidBodies == [] && objetos == [] &&
      cubeAnim == InitialAnim && cannonMuzzlePos == Zero && pending == [] && elapsedMs == 0.0
    }

    constructor ()
      ensures Valid() && Initial()
    {
      physicsReady := false;
      gravity := Zero;
      bodies := [];
      rigidBodies := [];
      objetos := [];
      cubeAnim := InitialAnim;
      cannonMuzzlePos := Zero;
      pending := [];
      elapsedMs := 0.0;
    }

    // ---- Physics bridge ----

    /** Creates the physics world, with gravity pointing down. */
    method InitPhysics()
      requires Valid()
      modifies this`physicsReady, this`gravity
      ensures Valid()
      ensures physicsReady && gravity == Vec3(0.0, -GravityConstant, 0.0)
    {
      physicsReady := true;
      gravity := Vec3(0.0, -GravityConstant, 0.0);
    }

    /** Adds a body for mesh to the world, always; appends mesh to the sync list only when mass > 0. */
    method CreateRigidBody(mesh: Mesh, shape: Shape, mass: real, pos: Vec3, quat: Quat) returns (body: nat)
      requires Valid()
      requires mesh !in rigidBodies && mesh !in objetos
      modifies this`bodies, this`rigidBodies, mesh`physicsBody
      ensures Valid()
      ensures body == old(|bodies|)
      ensures bodies == old(bodies) + [RegisteredBody(shape, mass, pos, quat)]
      ensures mesh.physicsBody == Some(body)
      ensures rigidBodies == old(rigidBodies) + (if mass > 0.0 then [mesh] else [])
    {
      body := |bodies|;
      mesh.physicsBody := Some(body);
      bodies := bodies + [RegisteredBody(shape, mass, pos, quat)];
      if mass > 0.0 {
        rigidBodies := rigidBodies + [mesh];
      }
    }

    /** After updatePhysics, a synced mesh whose body has a motion state shows that body's world transform. */
    ghost predicate Mirrors(m: Mesh)
      reads this`bodies, m`position, m`quaternion, m`physicsBody
      requires Tracked(m)
    {
      var b := bodies[m.physicsBody.value];
      b.motionState.Some? ==> m.position == b.motionState.value.origin && m.quaternion == b.motionState.value.rotation
    }

    /** Copies the world transform of m's body onto m, when that body has a motion state. */
    method SyncMesh(m: Mesh)
      requires Tracked(m)
      modifies m`position, m`quaternion
      ensures Mirrors(m)
      ensures bodies[m.physicsBody.value].motionState.None? ==>
                m.position == old(m.position) && m.quaternion == old(m.quaternion)
    {
      var motionState := bodies[m.physicsBody.value].motionState;
      if motionState.Some? {
        m.position := motionState.value.origin;
        m.quaternion := motionState.value.rotation;
      }
    }

    /** The sync loop: visits the synced meshes in list order and mirrors each one's body. */
    method SyncTransforms()
      requires Valid()
      modifies rigidBodies`position, rigidBodies`quaternion
      ensures Valid()
      ensures forall i :: 0 <= i < |rigidBodies| ==> Mirrors(rigidBodies[i])
      ensures forall i :: 0 <= i < |rigidBodies| ==>
                bodies[rigidBodies[i].physicsBody.value].motionState.None? ==>
                  rigidBodies[i].position == old(rigidBodies[i].position) &&
                  rigidBodies[i].quaternion == old(rigidBodies[i].quaternion)
    {
      var i := 0;
      while i < |rigidBodies|
        invariant 0 <= i <= |rigidBodies|
        invariant forall j :: 0 <= j < i ==> Mirrors(rigidBodies[j])
        invariant forall j :: 0 <= j < |rigidBodies| ==>
                    bodies[rigidBodies[j].physicsBody.value].motionState.None? ==>
                      rigidBodies[j].position == old(rigidBodies[j].position) &&
                      rigidBodies[j].quaternion == old(rigidBodies[j].quaternion)
      {
        SyncMesh(rigidBodies[i]);
        i := i + 1;
      }
    }

    /** Steps the world (next holds the engine's per-body results), then copies each synced body's
        world transform onto its mesh, in list order, skipping bodies without a motion state.
        Before the physics world exists this does nothing. */
    method UpdatePhysics(deltaTime: real, next: seq<StepResult>)
      requires Valid() && |next| == |bodies|
      modifies this`bodies, rigidBodies`position, rigidBodies`quaternion
      ensures Valid()
      ensures bodies == if old(physicsReady) then Stepped(old(bodies), next) else old(bodies)
      ensures physicsReady ==> forall i :: 0 <= i < |rigidBodies| ==> Mirrors(rigidBodies[i])
      ensures forall i :: 0 <= i < |rigidBodies| ==>
                (!physicsReady || bodies[rigidBodies[i].physicsBody.value].motionState.None?) ==>
                  rigidBodies[i].position == old(rigidBodies[i].position) &&
                  rigidBodies[i].quaternion == old(rigidBodies[i].quaternion)
    {
      if !physicsReady {
        return;
      }
      bodies := Stepped(bodies, next);
      SyncTransforms();
    }

    // ---- Scene builder ----

    method CreateGround()
      requires Valid()
      modifies this`bodies, this`rigidBodies
      ensures Valid()
      ensures bodies == old(bodies) + [GroundBody]
      ensures rigidBodies == old(rigidBodies)
    {
      var mesh := new Mesh(GroundCenter);
      var _ := CreateRigidBody(mesh, Box(GroundHalfExtents), 0.0, mesh.position, mesh.quaternion);
    }

    /** The two terrain blocks are scenery only: the builder gives them no physics body. */
    method CreateSideTerrain() returns (leftLand: Mesh, rightLand: Mesh)
      ensures fresh(leftLand) && fresh(rightLand) && leftLand != rightLand
      ensures leftLand.position == LeftLandCenter && rightLand.position == RightLandCenter
      ensures leftLand.physicsBody == None && rightLand.physicsBody == None
    {
      leftLand := new Mesh(LeftLandCenter);
      rightLand := new Mesh(RightLandCenter);
    }

    /** Brick x of row y: a new dynamic box at its place in the running bond, synced. */
    method AddBrick(x: nat, y: nat) returns (brick: Mesh)
      requires Valid()
      modifies this`bodies, this`rigidBodies
      ensures Valid()
      ensures bodies == old(bodies) + [RegisteredBody(Box(BrickHalfExtents), BrickMass, BrickPos(x, y), Identity)]
      ensures rigidBodies == old(rigidBodies) + [brick]
      ensures fresh(brick) && BuiltAt(brick, BrickPos(x, y), old(|bodies|))
    {
      brick := new Mesh(BrickPos(x, y));
      var _ := CreateRigidBody(brick, Box(BrickHalfExtents), BrickMass, brick.position, brick.quaternion);
    }

    /** The bricks built so far, on top of the world's bodies0 and sync list rigid0: the bodies after
        bodies0 are the bricks' bodies in creation order, and each of the meshes in bricks is synced,
        paired with its brick's body and standing at that body's origin. */
    ghost predicate WallPart(bodies0: seq<Body>, rigid0: seq<Mesh>, bricks: seq<Mesh>)
      reads this`bodies, this`rigidBodies, bricks`physicsBody, bricks`position
    {
      |bodies| == |bodies0| + |bricks| && bodies[..|bodies0|] == bodies0 &&
      (forall k :: |bodies0| <= k < |bodies| ==> bodies[k] == BrickBody(k - |bodies0|)) &&
      rigidBodies == rigid0 + bricks &&
      (forall k :: 0 <= k < |bricks| ==>
         bricks[k].physicsBody == Some(|bodies0| + k) &&
         bodies[|bodies0| + k].motionState == Some(Transform(bricks[k].position, Identity)))
    }

    /** Step (y, x) of the wall's nested loops: brick x of row y, the (6y + x)-th brick, joins the wall. */
    method AddWallBrick(x: nat, y: nat, ghost bodies0: seq<Body>, ghost rigid0: seq<Mesh>, bricks: seq<Mesh>)
      returns (more: seq<Mesh>)
      requires Valid() && WallPart(bodies0, rigid0, bricks)
      requires x < NumBricksLength && |bricks| == y * NumBricksLength + x
      modifies this`bodies, this`rigidBodies
      ensures Valid() && WallPart(bodies0, rigid0, more)
      ensures |more| == |bricks| + 1 && more == bricks + [more[|bricks|]] && fresh(more[|bricks|])
      ensures more[|bricks|].position == BrickPos(x, y)
    {
      ghost var prev, n := bodies, |bricks|;
      WallBrickIndex(y, x);
      var brick := AddBrick(x, y);
      more := bricks + [brick];
      assert bodies[..|bodies0|] == prev[..|bodies0|];
      forall k | |bodies0| <= k < |bodies| ensures bodies[k] == BrickBody(k - |bodies0|) {
        if k < |prev| {
          assert bodies[k] == prev[k];
        }
      }
      forall k | 0 <= k < |more|
        ensures more[k].physicsBody == Some(|bodies0| + k)
        ensures bodies[|bodies0| + k].motionState == Some(Transform(more[k].position, Identity))
      {
        if k < n {
          assert more[k] == bricks[k] && bodies[|bodies0| + k] == prev[|bodies0| + k];
        }
      }
    }

    /** The inner loop of the wall builder: row y, six new dynamic bricks left to right, offset by the
        row's running-bond shift, added to the rows below it. */
    method CreateBrickRow(y: nat, ghost bodies0: seq<Body>, ghost rigid0: seq<Mesh>, bricks: seq<Mesh>)
      returns (more: seq<Mesh>)
      requires Valid() && WallPart(bodies0, rigid0, bricks) && |bricks| == y * NumBricksLength
      modifies this`bodies, this`rigidBodies
      ensures Valid() && WallPart(bodies0, rigid0, more) && |more| == (y + 1) * NumBricksLength
      ensures more[..|bricks|] == bricks && forall k :: |bricks| <= k < |more| ==> fresh(more[k])
      ensures forall x :: 0 <= x < NumBricksLength ==> more[|bricks| + x].position == BrickPos(x, y)
    {
      more := bricks;
      var x := 0;
      while x < NumBricksLength
        invariant 0 <= x <= NumBricksLength && |more| == y * NumBricksLength + x
        invariant Valid() && WallPart(bodies0, rigid0, more)
        invariant more[..|bricks|] == bricks && forall k :: |bricks| <= k < |more| ==> fresh(more[k])
        invariant forall k :: 0 <= k < x ==> more[|bricks| + k].position == BrickPos(k, y)
      {
        more := AddWallBrick(x, y, bodies0, rigid0, more);
        x := x + 1;
      }
      assert |more| == (y + 1) * NumBricksLength;
    }

    /** Builds the 6 x 6 running-bond wall, row by row: 36 new dynamic bodies, all synced; bricks holds
        their meshes, each paired with its brick's body and standing at its place in the bond. */
    method CreateBrickWall() returns (bricks: seq<Mesh>)
      requires Valid()
      modifies this`bodies, this`rigidBodies
      ensures Valid()
      ensures bodies == old(bodies) + WallBodies()
      ensures rigidBodies == old(rigidBodies) + bricks && |bricks| == WallBricks
      ensures forall k :: 0 <= k < |bricks| ==> fresh(bricks[k]) && bricks[k].physicsBody == Some(old(|bodies|) + k)
      ensures forall k :: 0 <= k < |bricks| ==> bricks[k].position == WallBrick(k)
    {
      ghost var b0 := |bodies|;
      bricks := [];
      var y := 0;
      while y < NumBricksHeight
        invariant 0 <= y <= NumBricksHeight && |bricks| == y * NumBricksLength
        invariant Valid() && WallPart(old(bodies), old(rigidBodies), bricks)
        invariant forall k :: 0 <= k < |bricks| ==> fresh(bricks[k])
      {
        ghost var prev := bricks;
        bricks := CreateBrickRow(y, old(bodies), old(rigidBodies), bricks);
        assert forall k :: 0 <= k < |prev| ==> bricks[k] == prev[k];
        y := y + 1;
      }
      WallComplete(old(bodies), bodies);
      ghost var places := seq(|bricks|, k requires 0 <= k < |bricks| reads bricks => bricks[k].position);
      WallPlaces(old(bodies), bodies, places);
    }

    /** The ramp: one dynamic slab centred above the wall, synced like the bricks. */
    method CreateRamp() returns (rampMesh: Mesh)
      requires Valid()
      modifies this`bodies, this`rigidBodies
      ensures Valid()
      ensures bodies == old(bodies) + [RampBody]
      ensures rigidBodies == old(rigidBodies) + [rampMesh]
      ensures fresh(rampMesh) && BuiltAt(rampMesh, RampCenter, old(|bodies|))
    {
      rampMesh := new Mesh(RampCenter);
      var _ := CreateRigidBody(rampMesh, Box(RampHalfExtents), RampMass, rampMesh.position, rampMesh.quaternion);
    }

    /** The cannon is decoration; building it fixes the muzzle position. */
    method CreateCubeCannon()
      requires Valid()
      modifies this`cannonMuzzlePos
      ensures Valid()
      ensures cannonMuzzlePos == Muzzle
    {
      cannonMuzzlePos := Muzzle;
    }

    /** Ground, terrain, wall, ramp and cannon, in that order. synced are the wall's bricks, then the ramp. */
    method CreateScene() returns (synced: seq<Mesh>)
      requires Valid()
      modifies this`bodies, this`rigidBodies, this`cannonMuzzlePos
      ensures Valid()
      ensures bodies == old(bodies) + [GroundBody] + WallBodies() + [RampBody]
      ensures rigidBodies == old(rigidBodies) + synced && |synced| == WallBricks + 1
      ensures forall k :: 0 <= k < |synced| ==>
                fresh(synced[k]) && synced[k].physicsBody == Some(old(|bodies|) + 1 + k)
      ensures forall k :: 0 <= k < WallBricks ==> synced[k].position == WallBrick(k)
      ensures synced[WallBricks].position == RampCenter
      ensures cannonMuzzlePos == Muzzle
    {
      CreateGround();
      var leftLand, rightLand := CreateSideTerrain();
      var bricks := CreateBrickWall();
      var rampMesh := CreateRamp();
      synced := bricks + [rampMesh];
      CreateCubeCannon();
    }

    // ---- Rolling cubes ----

    /** Adds one cube mesh at p to the cube list. */
    method Cubo(p: Vec3) returns (mesh: Mesh)
      requires Valid()
      modifies this`objetos
      ensures Valid()
      ensures objetos == old(objetos) + [mesh]
      ensures fresh(mesh) && mesh.position == p && mesh.rotationZ == 0.0 && mesh.quaternion == Identity
    {
      mesh := new Mesh(p);
      objetos := objetos + [mesh];
    }

    /** Replaces the cube list with four new cubes at startX - 1.5, -0.5, +0.5, +1.5 spacings,
        then fills in the sweep record. */
    method CreateRollingCubes()
      requires Valid()
      modifies this`objetos, this`cubeAnim
      ensures Valid()
      ensures |objetos| == |InitialCubeOffsets|
      ensures forall i :: 0 <= i < |objetos| ==>
                fresh(objetos[i]) && objetos[i].position == InitialCubePos(i) && objetos[i].rotationZ == 0.0
      ensures cubeAnim == RollingAnim
    {
      objetos := [];
      var c0 := Cubo(InitialCubePos(0));
      var c1 := Cubo(InitialCubePos(1));
      var c2 := Cubo(InitialCubePos(2));
      var c3 := Cubo(InitialCubePos(3));
      assert objetos == [c0, c1, c2, c3];
      StartSweep();
    }

    /** Fills in the sweep record: from the left terrain centre to the right one in 6 seconds. */
    method StartSweep()
      requires Valid()
      modifies this`cubeAnim
      ensures Valid() && cubeAnim == RollingAnim
    {
      cubeAnim := RollingAnim;
    }

    /** Sets one cube's position and z rotation. */
    method PlaceCube(obj: Mesh, p: Vec3, rz: real)
      modifies obj`position, obj`rotationZ
      ensures obj.position == p && obj.rotationZ == rz
    {
      obj.position := p;
      obj.rotationZ := rz;
    }

    /** The cube loop: cube id gets the lead x plus (id - 1.5) spacings and the shared angle, negated. */
    method PoseCubes()
      requires Valid()
      modifies objetos`position, objetos`rotationZ
      ensures Valid()
      ensures forall i :: 0 <= i < |objetos| ==>
                objetos[i].position == CubePosition(cubeAnim, i) && objetos[i].rotationZ == -Angle(cubeAnim)
    {
      var currentX := CurrentX(cubeAnim);
      var angle := Angle(cubeAnim);
      var id := 0;
      while id < |objetos|
        invariant 0 <= id <= |objetos|
        invariant forall i :: 0 <= i < id ==>
                    objetos[i].position == CubePosition(cubeAnim, i) && objetos[i].rotationZ == -angle
      {
        var offset := (id as real - 1.5) * cubeAnim.spacing;
        PlaceCube(objetos[id], Vec3(currentX + offset, cubeAnim.y, cubeAnim.z), -angle);
        id := id + 1;
      }
    }

    /** One frame of the sweep: a no-op before the cubes exist; otherwise time accumulates deltaTime and
        every cube gets the centred offset from the lead x and the shared rolling angle. */
    method UpdateCubeAnimation(deltaTime: real)
      requires Valid()
      modifies this`cubeAnim, objetos`position, objetos`rotationZ
      ensures Valid()
      ensures !old(cubeAnim).initialized || |objetos| == 0 ==>
                cubeAnim == old(cubeAnim) &&
                forall i :: 0 <= i < |objetos| ==>
                  objetos[i].position == old(objetos[i].position) && objetos[i].rotationZ == old(objetos[i].rotationZ)
      ensures old(cubeAnim).initialized && |objetos| > 0 ==>
                cubeAnim == Advance(old(cubeAnim), deltaTime) &&
                forall i :: 0 <= i < |objetos| ==>
                  objetos[i].position == CubePosition(cubeAnim, i) && objetos[i].rotationZ == -Angle(cubeAnim)
    {
      if !cubeAnim.initialized || |objetos| == 0 {
        return;
      }
      cubeAnim := Advance(cubeAnim, deltaTime);
      PoseCubes();
    }

    // ---- Cannon and its timers ----

    /** setTimeout: registers a one-shot shot delayMs after now. */
    method ScheduleShot(delayMs: real, spread: real)
      requires Valid()
      modifies this`pending
      ensures Valid()
      ensures pending == Insert(old(pending), Shot(elapsedMs + delayMs, spread))
      ensures multiset(pending) == multiset(old(pending)) + multiset{Shot(elapsedMs + delayMs, spread)}
    {
      InsertSorted(pending, Shot(elapsedMs + delayMs, spread));
      InsertContents(pending, Shot(elapsedMs + delayMs, spread));
      pending := Insert(pending, Shot(elapsedMs + delayMs, spread));
    }

    /** The script's three timers: 4000 ms (spread 0), 6500 ms (0.5), 9000 ms (-0.5). */
    method ScheduleCannonShots()
      requires Valid()
      modifies this`pending
      ensures Valid()
      ensures pending == CannonScript(old(pending), elapsedMs)
    {
      ghost var q0, now := pending, elapsedMs;
      ScheduleShot(4000.0, 0.0);
      ghost var q1 := pending;
      assert q1 == Insert(q0, Shot(now + 4000.0, 0.0));
      ScheduleShot(6500.0, 0.5);
      ghost var q2 := pending;
      assert q2 == Insert(q1, Shot(now + 6500.0, 0.5));
      ScheduleShot(9000.0, -0.5);
      assert pending == Insert(q2, Shot(now + 9000.0, -0.5));
    }

    /** Fires one ball: a new dynamic sphere at the muzzle shifted by spreadX, launched at (3 * spreadX, 0, 20). */
    method ShootFromCannon(spreadX: real) returns (ballMesh: Mesh)
      requires Valid()
      modifies this`bodies, this`rigidBodies
      ensures Valid()
      ensures bodies == old(bodies) + [BallBody(cannonMuzzlePos, spreadX)]
      ensures rigidBodies == old(rigidBodies) + [ballMesh]
      ensures fresh(ballMesh) && BuiltAt(ballMesh, BallSpawn(cannonMuzzlePos, spreadX), old(|bodies|))
    {
      ballMesh := new Mesh(BallSpawn(cannonMuzzlePos, spreadX));
      var body := CreateRigidBody(ballMesh, Sphere(BallRadius), BallMass, ballMesh.position, Identity);
      bodies := bodies[body := bodies[body].(linearVelocity := BallVelocity(spreadX))];
    }

    /** The timers' side of a poll at time nowMs: takes every shot now due off the queue, in firing order. */
    method PollTimers(nowMs: real) returns (due: seq<Shot>)
      requires Valid()
      modifies this`pending
      ensures Valid()
      ensures due == Due(old(pending), nowMs) && pending == Remaining(old(pending), nowMs)
    {
      PollExact(pending, nowMs);
      due := Due(pending, nowMs);
      pending := Remaining(pending, nowMs);
    }

    /** Fires the given shots in order; balls are their new meshes, each built at its spawn point and
        paired with its ball's body. */
    method FireShots(shots: seq<Shot>) returns (balls: seq<Mesh>)
      requires Valid()
      modifies this`bodies, this`rigidBodies
      ensures Valid()
      ensures bodies == AfterShots(old(bodies), cannonMuzzlePos, shots)
      ensures rigidBodies == old(rigidBodies) + balls && |balls| == |shots|
      ensures forall k :: 0 <= k < |balls| ==>
                fresh(balls[k]) && BuiltAt(balls[k], BallSpawn(cannonMuzzlePos, shots[k].spread), old(|bodies|) + k)
    {
      ghost var b0 := |bodies|;
      balls := [];
      var i := 0;
      while i < |shots|
        invariant 0 <= i <= |shots|
        invariant Valid()
        invariant |bodies| == b0 + i && bodies[..b0] == old(bodies)
        invariant forall k :: b0 <= k < |bodies| ==> bodies[k] == BallBody(cannonMuzzlePos, shots[k - b0].spread)
        invariant rigidBodies == old(rigidBodies) + balls && |balls| == i
        invariant forall k :: 0 <= k < i ==>
                    fresh(balls[k]) && BuiltAt(balls[k], BallSpawn(cannonMuzzlePos, shots[k].spread), b0 + k)
      {
        var ballMesh := ShootFromCannon(shots[i].spread);
        balls := balls + [ballMesh];
        i := i + 1;
      }
      assert bodies == AfterShots(old(bodies), cannonMuzzlePos, shots);
    }

    /** A poll of the cannon timers at time nowMs: every pending shot that is due fires, in order, and
        leaves the queue. balls are the new meshes, one per fired shot. */
    method FireDueShots(nowMs: real) returns (balls: seq<Mesh>)
      requires Valid()
      modifies this`pending, this`bodies, this`rigidBodies
      ensures Valid()
      ensures pending == Remaining(old(pending), nowMs)
      ensures bodies == AfterShots(old(bodies), cannonMuzzlePos, Due(old(pending), nowMs))
      ensures rigidBodies == old(rigidBodies) + balls && |balls| == |Due(old(pending), nowMs)|
      ensures forall k :: 0 <= k < |balls| ==>
                fresh(balls[k]) &&
                BuiltAt(balls[k], BallSpawn(cannonMuzzlePos, Due(old(pending), nowMs)[k].spread), old(|bodies|) + k)
    {
      var due := PollTimers(nowMs);
      balls := FireShots(due);
    }

    // ---- Frame loop ----

    /** The body of animationLoop for one frame of deltaTime seconds: step and sync physics, then
        advance the sweep. next is the engine's per-body result of the step. */
    method AnimationLoop(deltaTime: real, next: seq<StepResult>)
      requires Valid() && |next| == |bodies|
      modifies this`bodies, this`cubeAnim, rigidBodies`position, rigidBodies`quaternion, objetos`position, objetos`rotationZ
      ensures Valid()
      ensures bodies == if physicsReady then Stepped(old(bodies), next) else old(bodies)
      ensures physicsReady ==> forall i :: 0 <= i < |rigidBodies| ==> Mirrors(rigidBodies[i])
      ensures cubeAnim == if old(cubeAnim).initialized && |objetos| > 0 then Advance(old(cubeAnim), deltaTime) else old(cubeAnim)
      ensures cubeAnim.initialized && |objetos| > 0 ==>
                forall i :: 0 <= i < |objetos| ==>
                  objetos[i].position == CubePosition(cubeAnim, i) && objetos[i].rotationZ == -Angle(cubeAnim)
    {
      UpdatePhysics(deltaTime, next);
      // No cube is synced: a synced mesh has a body and a cube has none.
      assert forall i, j :: 0 <= i < |rigidBodies| && 0 <= j < |objetos| ==> rigidBodies[i] != objetos[j] by {
        forall i, j | 0 <= i < |rigidBodies| && 0 <= j < |objetos| ensures rigidBodies[i] != objetos[j] {
          assert Tracked(rigidBodies[i]) && Unpaired(objetos[j]);
        }
      }
      UpdateCubeAnimation(deltaTime);
    }

    /** One display frame of deltaTime seconds. The clock advances and the cannon timers now due fire
        first, as the browser runs due timer callbacks before the next animation frame; then the
        frame loop steps and syncs physics and advances the sweep. next is the engine's per-body
        result of the step, balls included; balls are the meshes of the shots fired. */
    method AnimationFrame(deltaTime: real, next: seq<StepResult>) returns (balls: seq<Mesh>)
      requires Valid() && deltaTime >= 0.0
      requires |next| == |bodies| + |Due(pending, elapsedMs + deltaTime * 1000.0)|
      modifies this`bodies, this`rigidBodies, this`cubeAnim, this`pending, this`elapsedMs
      modifies rigidBodies`position, rigidBodies`quaternion, objetos`position, objetos`rotationZ
      ensures Valid()
      ensures elapsedMs == old(elapsedMs) + deltaTime * 1000.0
      ensures pending == Remaining(old(pending), elapsedMs)
      ensures bodies == if physicsReady
                        then Stepped(AfterShots(old(bodies), cannonMuzzlePos, Due(old(pending), elapsedMs)), next)
                        else AfterShots(old(bodies), cannonMuzzlePos, Due(old(pending), elapsedMs))
      ensures rigidBodies == old(rigidBodies) + balls && |balls| == |Due(old(pending), elapsedMs)|
      ensures forall k :: 0 <= k < |balls| ==> fresh(balls[k]) && balls[k].physicsBody == Some(old(|bodies|) + k)
      ensures physicsReady ==> forall i :: 0 <= i < |rigidBodies| ==> Mirrors(rigidBodies[i])
      ensures cubeAnim == if old(cubeAnim).initialized && |objetos| > 0 then Advance(old(cubeAnim), deltaTime) else old(cubeAnim)
      ensures cubeAnim.initialized && |objetos| > 0 ==>
                forall i :: 0 <= i < |objetos| ==>
                  objetos[i].position == CubePosition(cubeAnim, i) && objetos[i].rotationZ == -Angle(cubeAnim)
    {
      elapsedMs := elapsedMs + deltaTime * 1000.0;
      balls := FireDueShots(elapsedMs);
      ghost var fired := bodies;
      assert fired == AfterShots(old(bodies), cannonMuzzlePos, Due(old(pending), elapsedMs));
      assert forall k :: 0 <= k < |balls| ==> balls[k].physicsBody == Some(old(|bodies|) + k);
      AnimationLoop(deltaTime, next);
    }

    /** Program start: physics, scene, cubes and timers. On the globals as loaded (Initial), the bodies are
        the ground, the 36 bricks and the ramp, synced holds the bricks' and the ramp's meshes, and the
        queue is CannonScript([], 0.0), which is CannonShots (Timeline.ScheduleScript). */
    method Start() returns (synced: seq<Mesh>)
      requires Valid()
      modifies this
      ensures Valid()
      ensures physicsReady && gravity == Vec3(0.0, -GravityConstant, 0.0)
      ensures bodies == old(bodies) + [GroundBody] + WallBodies() + [RampBody]
      ensures rigidBodies == old(rigidBodies) + synced && |synced| == WallBricks + 1
      ensures forall k :: 0 <= k < |synced| ==>
                fresh(synced[k]) && synced[k].physicsBody == Some(old(|bodies|) + 1 + k)
      ensures forall k :: 0 <= k < WallBricks ==> synced[k].position == WallBrick(k)
      ensures synced[WallBricks].position == RampCenter
      ensures |objetos| == |InitialCubeOffsets| && cubeAnim == RollingAnim
      ensures forall i :: 0 <= i < |objetos| ==>
                fresh(objetos[i]) && objetos[i].position == InitialCubePos(i) && objetos[i].rotationZ == 0.0
      ensures cannonMuzzlePos == Muzzle
      ensures pending == CannonScript(old(pending), elapsedMs) && elapsedMs == old(elapsedMs)
    {
      InitPhysics();
      synced := CreateScene();
      CreateRollingCubes();
      ScheduleCannonShots();
    }
  }
}
