/**
 * The cgmath vector types the engine uses, over the reals (the engine
 * computes in `f32`; rounding is not modelled).
 */
module Math {

  function Min(a: real, b: real): real { if a <= b then a else b }

  function Max(a: real, b: real): real { if a >= b then a else b }

  datatype Vec2 = Vec2(x: real, y: real) {
    function Plus(v: Vec2): Vec2 { Vec2(x + v.x, y + v.y) }
    function Minus(v: Vec2): Vec2 { Vec2(x - v.x, y - v.y) }
    function Half(): Vec2 { Vec2(x / 2.0, y / 2.0) }
    /** cgmath's `mul_element_wise`. */
    function Times(v: Vec2): Vec2 { Vec2(x * v.x, y * v.y) }
  }

  datatype Vec3 = Vec3(x: real, y: real, z: real)

  datatype Vec4 = Vec4(x: real, y: real, z: real, w: real) {
    /** `self + Vector4::from_value(k)`. */
    function PlusScalar(k: real): Vec4 { Vec4(x + k, y + k, z + k, w + k) }
  }

  /**
   * A 4x4 transform, kept symbolic: the renderers only store it and hand it
   * to the shader, so the model records which matrix was installed rather
   * than its sixteen entries.
   */
  datatype Matrix4 =
    | Identity
    | ScreenProjection(windowSize: Vec2)   // the pixel-to-clip matrix built from the window size
    | ViewProjection(tag: nat)           // any other matrix supplied by a caller
}
