/**
 * Three-component vectors over the reals, standing in for three.js `Vector3`,
 * and the raw landmark points the hand detector reports.
 * IEEE rounding is not modelled: every coordinate is an exact `real`.
 */
module Geometry {

  datatype Vec3 = Vec3(x: real, y: real, z: real)

  /** A raw detector landmark: x and y normalised to the video frame, z a small signed depth. */
  datatype Landmark = Landmark(x: real, y: real, z: real)

  const Origin: Vec3 := Vec3(0.0, 0.0, 0.0)

  function Add(a: Vec3, b: Vec3): Vec3 {
    Vec3(a.x + b.x, a.y + b.y, a.z + b.z)
  }

  function Sub(a: Vec3, b: Vec3): Vec3 {
    Vec3(a.x - b.x, a.y - b.y, a.z - b.z)
  }

  function Scale(k: real, a: Vec3): Vec3 {
    Vec3(k * a.x, k * a.y, k * a.z)
  }

  function Cross(a: Vec3, b: Vec3): Vec3 {
    Vec3(a.y * b.z - a.z * b.y, a.z * b.x - a.x * b.z, a.x * b.y - a.y * b.x)
  }

  /** The squared Euclidean length; lengths themselves need a square root, which the model avoids. */
  function NormSq(a: Vec3): real {
    a.x * a.x + a.y * a.y + a.z * a.z
  }

  /** three.js `Vector3.lerp(v, alpha)`: each coordinate moves the fraction `alpha` of the way to `v`. */
  function Lerp(a: Vec3, v: Vec3, alpha: real): Vec3 {
    Vec3(a.x + (v.x - a.x) * alpha, a.y + (v.y - a.y) * alpha, a.z + (v.z - a.z) * alpha)
  }
}
