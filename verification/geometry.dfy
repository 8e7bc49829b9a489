/**
 Plain value types shared by the particle simulation: planar points,
 3-vectors, colours and tile identifiers. JavaScript numbers are modelled
 as exact reals; IEEE-754 rounding is not modelled.
 */
module Geometry {

  /** A planar point, used both for screen locations and mercator coordinates. */
  datatype Point = Point(x: real, y: real)

  /** A 3-component vector, the `{x, y, z}` object literals of the simulation. */
  datatype Vec3 = Vec3(x: real, y: real, z: real) {

    /** Component-wise sum. */
    function Plus(v: Vec3): Vec3 {
      Vec3(x + v.x, y + v.y, z + v.z)
    }

    /** Every component multiplied by `k`. */
    function Times(k: real): Vec3 {
      Vec3(x * k, y * k, z * k)
    }
  }

  /** A colour as produced by the style's colour properties. */
  datatype Rgba = Rgba(r: real, g: real, b: real, a: real)

  /** A particle's colour: the alpha channel is never carried over. */
  datatype Rgb = Rgb(r: real, g: real, b: real)

  /** A canonical tile identifier (zoom, column, row). */
  datatype TileId = TileId(z: nat, x: nat, y: nat)

  function Min(a: real, b: real): real {
    if a <= b then a else b
  }

  function Max(a: real, b: real): real {
    if a <= b then b else a
  }

  /** `v` lies in the closed interval spanned by `a` and `b`, in either order. */
  predicate Between(v: real, a: real, b: real) {
    Min(a, b) <= v <= Max(a, b)
  }

  /** Linear interpolation from `a` (at `t == 0`) to `b` (at `t == 1`). */
  function Lerp(a: real, b: real, t: real): (v: real)
    ensures t == 0.0 ==> v == a
    ensures t == 1.0 ==> v == b
    ensures 0.0 <= t <= 1.0 ==> Between(v, a, b)
    // short of t == 1 the end point is reached only when it equals the start
    ensures 0.0 <= t < 1.0 ==> (v == b <==> a == b)
  {
    LerpOffset(a, b, t);
    StepBetween(a, b, t);
    a * (1.0 - t) + b * t
  }

  /** Stepping a fraction `t` of the way from `a` towards `b` stays between them. */
  lemma StepBetween(a: real, b: real, t: real)
    ensures 0.0 <= t <= 1.0 ==> Between(a + t * (b - a), a, b)
  {
    if 0.0 <= t <= 1.0 {
      Rest(t, b - a);
      MulSign(t, b - a);
      MulSign(1.0 - t, b - a);
    }
  }

  /** A fraction `t` of `d` lies between 0 and `d`. */
  lemma FractionOf(t: real, d: real)
    ensures 0.0 <= t <= 1.0 && d >= 0.0 ==> 0.0 <= t * d <= d
  {
    if 0.0 <= t <= 1.0 && d >= 0.0 {
      Rest(t, d);
      MulSign(t, d);
      MulSign(1.0 - t, d);
    }
  }

  /** A non-negative factor keeps the sign of the other. */
  lemma MulSign(x: real, y: real)
    requires 0.0 <= x
    ensures 0.0 <= y ==> 0.0 <= x * y
    ensures y <= 0.0 ==> x * y <= 0.0
  {
  }

  /** What remains of `d` after taking the fraction `t` of it. */
  lemma Rest(t: real, d: real)
    ensures (1.0 - t) * d == d - t * d
  {
  }

  lemma LerpOffset(a: real, b: real, t: real)
    ensures a * (1.0 - t) + b * t == a + t * (b - a)
    ensures a * (1.0 - t) + b * t - b == (1.0 - t) * (a - b)
  {
  }
}
