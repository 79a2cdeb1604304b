/** Value types shared by every part of the diorama: three-component vectors,
    quaternions and rigid transforms, all over exact reals. */
module Geometry {

  datatype Option<T> = None | Some(value: T)

  /** A point or a direction in world space (three.js Vector3, Ammo btVector3). */
  datatype Vec3 = Vec3(x: real, y: real, z: real)

  /** An orientation quaternion (three.js Quaternion, Ammo btQuaternion). */
  datatype Quat = Quat(x: real, y: real, z: real, w: real)

  /** The quaternion a freshly built mesh carries, and the one given to every cannon ball. */
  const Identity: Quat := Quat(0.0, 0.0, 0.0, 1.0)

  const Zero: Vec3 := Vec3(0.0, 0.0, 0.0)

  /** A world transform: an origin and a rotation (Ammo btTransform). */
  datatype Transform = Transform(origin: Vec3, rotation: Quat)
}
