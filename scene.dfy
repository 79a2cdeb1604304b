/** The bodies the scene builder and the cannon register, as values: what
    createRigidBody is asked to add for the ground, each brick, the ramp and
    each cannon ball, and where and how fast a ball is launched. */
module Scene {
  import opened Geometry
  import opened Physics
  import opened Layout
  import opened Timeline

  /** The static ground slab: mass 0, so it collides but is never synced. */
  const GroundBody: Body := RegisteredBody(Box(GroundHalfExtents), 0.0, GroundCenter, Identity)

  /** The k-th brick of the wall. */
  function BrickBody(k: nat): Body
  {
    RegisteredBody(Box(BrickHalfExtents), BrickMass, WallBrick(k), Identity)
  }

  /** The 36 bricks in creation order. */
  function WallBodies(): (w: seq<Body>)
    ensures |w| == WallBricks
    ensures forall k :: 0 <= k < |w| ==> w[k] == BrickBody(k)
  {
    seq(WallBricks, k requires 0 <= k < WallBricks => BrickBody(k))
  }

  /** Bodies that extend bodies0 by the 36 bricks, index by index, are bodies0 + WallBodies(). */
  lemma WallComplete(bodies0: seq<Body>, bodies: seq<Body>)
    requires |bodies| == |bodies0| + WallBricks && bodies[..|bodies0|] == bodies0
    requires forall k :: |bodies0| <= k < |bodies| ==> bodies[k] == BrickBody(k - |bodies0|)
    ensures bodies == bodies0 + WallBodies()
  {
    assert forall k :: 0 <= k < |bodies0| ==> bodies[k] == bodies[..|bodies0|][k];
  }

  /** Where the wall's bodies stand: a body built for the k-th brick has its origin at WallBrick(k). */
  lemma WallPlaces(bodies0: seq<Body>, bodies: seq<Body>, places: seq<Vec3>)
    requires bodies == bodies0 + WallBodies() && |places| == WallBricks
    requires forall k :: 0 <= k < |places| ==>
               bodies[|bodies0| + k].motionState == Some(Transform(places[k], Identity))
    ensures forall k :: 0 <= k < |places| ==> places[k] == WallBrick(k)
  {
    forall k | 0 <= k < |places| ensures places[k] == WallBrick(k) {
      assert bodies[|bodies0| + k] == BrickBody(k);
    }
  }

  /** The ramp slab, a dynamic body centred on the wall above it. */
  const RampBody: Body := RegisteredBody(Box(RampHalfExtents), RampMass, RampCenter, Identity)

  /** Where a ball shot with the given spread appears: the muzzle shifted by spread on x. */
  function BallSpawn(muzzle: Vec3, spread: real): Vec3
  {
    Vec3(muzzle.x + spread, muzzle.y, muzzle.z)
  }

  /** A ball's launch velocity: sideways 3 * spread, forward 20, nothing vertical. */
  function BallVelocity(spread: real): Vec3
  {
    Vec3(spread * 3.0, 0.0, 20.0)
  }

  /** The body a shot registers: a dynamic sphere launched from the spawn point. */
  function BallBody(muzzle: Vec3, spread: real): Body
  {
    RegisteredBody(Sphere(BallRadius), BallMass, BallSpawn(muzzle, spread), Identity).(linearVelocity := BallVelocity(spread))
  }

  /** The world's bodies after the given shots fire in order: one ball per shot, appended. */
  function AfterShots(bodies: seq<Body>, muzzle: Vec3, shots: seq<Shot>): (r: seq<Body>)
    ensures |r| == |bodies| + |shots| && r[..|bodies|] == bodies
    ensures forall k :: |bodies| <= k < |r| ==> r[k] == BallBody(muzzle, shots[k - |bodies|].spread)
  {
    bodies + seq(|shots|, k requires 0 <= k < |shots| => BallBody(muzzle, shots[k].spread))
  }

  /** Which registered bodies the bridge syncs: every brick, the ramp and every ball, never the ground. */
  lemma SyncedKinds(k: nat, muzzle: Vec3, spread: real)
    ensures IsDynamic(BrickBody(k)) && IsDynamic(RampBody) && IsDynamic(BallBody(muzzle, spread))
    ensures !IsDynamic(GroundBody)
  {
  }

  /** A ball is a radius-0.5, mass-3 sphere at muzzle + (spread, 0, 0) moving at (3 * spread, 0, 20):
      its sideways drift per unit of forward travel is 3 * spread / 20. */
  lemma BallLaunch(muzzle: Vec3, spread: real)
    ensures BallBody(muzzle, spread).shape == Sphere(0.5) && BallBody(muzzle, spread).mass == 3.0
    ensures BallBody(muzzle, spread).motionState == Some(Transform(Vec3(muzzle.x + spread, muzzle.y, muzzle.z), Identity))
    ensures BallBody(muzzle, spread).linearVelocity.x / BallBody(muzzle, spread).linearVelocity.z == 3.0 * spread / 20.0
    ensures BallBody(muzzle, spread).linearVelocity.y == 0.0
  {
  }
}
