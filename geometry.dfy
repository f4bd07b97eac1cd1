/**
 * Vector arithmetic and the GLSL built-ins (abs, min, max, clamp, mix, cross)
 * that the tessellation shaders and the camera code use. Single-precision
 * floats are modelled as exact reals.
 */
module Geometry {

  datatype Vec2 = Vec2(x: real, y: real)

  datatype Vec3 = Vec3(x: real, y: real, z: real)

  const Zero3 := Vec3(0.0, 0.0, 0.0)

  /**
   * The pitch bound, in degrees, that both the camera record and the window
   * callbacks enforce so that the view never flips over the vertical.
   */
  const PitchLimit: real := 89.0

  function Add2(a: Vec2, b: Vec2): Vec2 { Vec2(a.x + b.x, a.y + b.y) }

  function Sub2(a: Vec2, b: Vec2): Vec2 { Vec2(a.x - b.x, a.y - b.y) }

  function Scale2(a: Vec2, s: real): Vec2 { Vec2(a.x * s, a.y * s) }

  function Add3(a: Vec3, b: Vec3): Vec3 { Vec3(a.x + b.x, a.y + b.y, a.z + b.z) }

  function Sub3(a: Vec3, b: Vec3): Vec3 { Vec3(a.x - b.x, a.y - b.y, a.z - b.z) }

  function Scale3(a: Vec3, s: real): Vec3 { Vec3(a.x * s, a.y * s, a.z * s) }

  function Dot3(a: Vec3, b: Vec3): real { a.x * b.x + a.y * b.y + a.z * b.z }

  /** GLSL cross(a, b). */
  function Cross(a: Vec3, b: Vec3): Vec3 {
    Vec3(a.y * b.z - a.z * b.y, a.z * b.x - a.x * b.z, a.x * b.y - a.y * b.x)
  }

  /** GLSL abs. */
  function Abs(x: real): (r: real)
    ensures r >= 0.0
    ensures r == x || r == -x
  {
    if x < 0.0 then -x else x
  }

  /** GLSL min. */
  function Min(a: real, b: real): (r: real)
    ensures r <= a && r <= b
    ensures r == a || r == b
  {
    if b < a then b else a
  }

  /** GLSL max. */
  function Max(a: real, b: real): (r: real)
    ensures r >= a && r >= b
    ensures r == a || r == b
  {
    if b > a then b else a
  }

  /** GLSL clamp(x, lo, hi) = min(max(x, lo), hi); GLSL leaves lo > hi undefined. */
  function Clamp(x: real, lo: real, hi: real): (r: real)
    requires lo <= hi
    ensures lo <= r <= hi
    ensures lo <= x <= hi ==> r == x
    ensures x <= lo ==> r == lo
    ensures x >= hi ==> r == hi
  {
    Min(Max(x, lo), hi)
  }

  /** GLSL mix(a, b, t) = a * (1 - t) + b * t: linear interpolation from a (t = 0) to b (t = 1). */
  function Mix(a: real, b: real, t: real): (r: real)
    ensures t == 0.0 ==> r == a
    ensures t == 1.0 ==> r == b
    ensures b <= a && 0.0 <= t <= 1.0 ==> b <= r <= a
  {
    var r := a * (1.0 - t) + b * t;
    assert b <= a && 0.0 <= t <= 1.0 ==> b <= r <= a by {
      if b <= a && 0.0 <= t <= 1.0 {
        assert r - b == (a - b) * (1.0 - t) && a - r == (a - b) * t;
        NonnegativeProduct(a - b, 1.0 - t);
        NonnegativeProduct(a - b, t);
      }
    }
    r
  }

  lemma NonnegativeProduct(x: real, y: real)
    requires x >= 0.0 && y >= 0.0
    ensures x * y >= 0.0
  {
  }

  /** Mixing towards a smaller value never increases as the weight grows. */
  lemma MixAntitone(a: real, b: real, s: real, t: real)
    requires b <= a && s <= t
    ensures Mix(a, b, t) <= Mix(a, b, s)
  {
    assert Mix(a, b, s) - Mix(a, b, t) == (a - b) * (t - s);
    NonnegativeProduct(a - b, t - s);
  }
}
