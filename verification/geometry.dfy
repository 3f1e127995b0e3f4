/**
  Unity's small value types, with coordinates as real numbers (the rounding of
  single-precision floats is not modelled).
*/
module Geometry {

  datatype Vec2 = Vec2(x: real, y: real)

  datatype Vec3 = Vec3(x: real, y: real, z: real)

  datatype Color = Color(r: real, g: real, b: real, a: real)

  /** `Vector2.zero` */
  const Zero2 := Vec2(0.0, 0.0)

  /** `Vector3.zero` */
  const Zero3 := Vec3(0.0, 0.0, 0.0)

  /** `Vector3.up` */
  const Up := Vec3(0.0, 1.0, 0.0)

  /** `Vector3.forward` */
  const Forward := Vec3(0.0, 0.0, 1.0)

  /** `Color.white` */
  const White := Color(1.0, 1.0, 1.0, 1.0)

  /** `v * k` */
  function Scale(v: Vec3, k: real): Vec3 {
    Vec3(v.x * k, v.y * k, v.z * k)
  }

  /** The mirror image through the XY plane, used to turn a right-handed OBJ
      coordinate into Unity's left-handed one. */
  function MirrorZ(v: Vec3): Vec3 {
    Vec3(v.x, v.y, -v.z)
  }
}
