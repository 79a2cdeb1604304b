/** The physics bridge's data: collision shapes, rigid bodies as the physics
    world holds them, the opaque world step, and the scene meshes whose
    transforms mirror the bodies. The engine itself (integration, collision,
    constraint solving, inertia computation) is not modelled: a step is
    whatever per-body transforms and velocities the engine hands back. */
module Physics {
  import opened Geometry

  /** Magnitude of the world's gravity, pointing down the y axis. */
  const GravityConstant: real := 9.8

  /** Collision shapes the scene uses (Ammo btBoxShape with half extents, btSphereShape). */
  datatype Shape = Box(halfExtents: Vec3) | Sphere(radius: real)

  /** Where a body's local inertia comes from: left at (0, 0, 0), or computed by the engine from mass and shape. */
  datatype Inertia = ZeroInertia | FromShape

  /** Bullet's activation states: the default a new body has, and the one that disables deactivation (sleeping). */
  const ActiveTag: int := 1
  const DisableDeactivation: int := 4

  /** A rigid body in the physics world. motionState holds the world transform read back each frame. */
  datatype Body = Body(
    shape: Shape,
    mass: real,
    localInertia: Inertia,
    motionState: Option<Transform>,
    activationState: int,
    linearVelocity: Vec3)

  /** A dynamic body is simulated and mirrored onto its mesh every frame; a mass-0 body is static. */
  predicate IsDynamic(b: Body)
  {
    b.mass > 0.0
  }

  /** The body the bridge registers for (shape, mass, pos, quat): a motion state at the given
      transform; inertia from the shape and no deactivation exactly when the mass is positive. */
  function RegisteredBody(shape: Shape, mass: real, pos: Vec3, quat: Quat): (b: Body)
    ensures b.shape == shape && b.mass == mass && b.linearVelocity == Zero
    ensures b.motionState == Some(Transform(pos, quat))
    ensures b.localInertia == FromShape <==> mass > 0.0
    ensures b.activationState == DisableDeactivation <==> mass > 0.0
    ensures b.activationState == ActiveTag <==> mass <= 0.0
  {
    Body(shape, mass,
         if mass > 0.0 then FromShape else ZeroInertia,
         Some(Transform(pos, quat)),
         if mass > 0.0 then DisableDeactivation else ActiveTag,
         Zero)
  }

  /** What the engine reports for one body after a step: its world transform and its linear velocity. */
  datatype StepResult = StepResult(transform: Transform, linearVelocity: Vec3)

  /** The world after one engine step: next[i] is what the engine computed for body i.
      Every body takes the engine's velocity; a body with a motion state also takes the engine's
      world transform. Shape, mass, inertia and activation state stay as registered. */
  function Stepped(bodies: seq<Body>, next: seq<StepResult>): (r: seq<Body>)
    requires |next| == |bodies|
    ensures |r| == |bodies|
    ensures forall i :: 0 <= i < |r| ==>
              r[i].(motionState := bodies[i].motionState, linearVelocity := bodies[i].linearVelocity) == bodies[i] &&
              r[i].linearVelocity == next[i].linearVelocity &&
              r[i].motionState.Some? == bodies[i].motionState.Some? &&
              (r[i].motionState.Some? ==> r[i].motionState.value == next[i].transform)
  {
    seq(|bodies|, i requires 0 <= i < |bodies| =>
      var b := bodies[i].(linearVelocity := next[i].linearVelocity);
      if bodies[i].motionState.Some? then b.(motionState := Some(next[i].transform)) else b)
  }

  /** A scene mesh: its render transform, the z rotation the cube sweep sets, and the index of its
      physics body in the world, when it has one (userData.physicsBody). */
  class Mesh {
    var position: Vec3
    var quaternion: Quat
    var rotationZ: real
    var physicsBody: Option<nat>

    constructor (p: Vec3)
      ensures position == p && quaternion == Identity && rotationZ == 0.0 && physicsBody == None
    {
      position := p;
      quaternion := Identity;
      rotationZ := 0.0;
      physicsBody := None;
    }
  }
}
