/**
 * The value types the simulation computes with: 2-D vectors and points over
 * `real`, window sizes over `int`, and the numeric helpers of util.Vector,
 * util.Location, util.Sprite and java.lang.Math that this model does not
 * define (they are handed in as a `Numerics` value).
 */
module Vectors {

  /** A vector in Cartesian form; util.Vector's in-place `sum`, `negate`
      and `scale` become the value operations below. */
  datatype Vec = Vec(dx: real, dy: real) {

    function Plus(other: Vec): Vec {
      Vec(dx + other.dx, dy + other.dy)
    }

    function Negate(): Vec {
      Vec(-dx, -dy)
    }

    /** `scale(k)` multiplies the magnitude by k, so both components. */
    function Scale(k: real): Vec {
      Vec(k * dx, k * dy)
    }
  }

  const Zero: Vec := Vec(0.0, 0.0)

  /** A location (java.awt.geom.Point2D as used by util.Location). */
  datatype Point = Point(x: real, y: real)

  /** A java.awt.Dimension: integer width and height. */
  datatype Dim = Dim(width: int, height: int)

  /**
   * The floating-point helpers the core calls but whose code is not part of
   * this model. Nothing is assumed about them beyond their types.
   */
  datatype Numerics = Numerics(
    polar: (real, real) -> Vec,             // new Vector(angleInDegrees, magnitude)
    angleBetween: (real, real) -> real,     // Vector.angleBetween(dx, dy)
    distanceBetween: (real, real) -> real,  // Vector.distanceBetween(dx, dy)
    heading: (Point, Point) -> real,        // new Vector(from, to).getDirection()
    distance: (Point, Point) -> real,       // Location.distance
    relativeMagnitude: (Vec, Vec) -> real,  // v.getRelativeMagnitude(w)
    fuzzyEquals: (real, real) -> bool,      // Vector.fuzzyEquals
    sin: real -> real,                      // Math.sin
    pow: (real, real) -> real,              // Math.pow
    overZero: real -> real,                 // IEEE a / 0 (an infinity or NaN)
    advance: (Point, Vec, real) -> Point    // Sprite.update: one position step
  )

  /** Floating-point division `a / b`; a zero divisor gives the unspecified
      IEEE result instead of an error. */
  function Quotient(num: Numerics, a: real, b: real): (q: real)
    ensures b != 0.0 ==> q * b == a
    ensures b == 0.0 ==> q == num.overZero(a)
  {
    if b == 0.0 then num.overZero(a) else a / b
  }

  const IntMax: int := 0x7fff_ffff
  const IntMin: int := -0x8000_0000

  /** Java's `(int)` cast of a double: rounds toward zero and saturates at
      the 32-bit limits. */
  function Truncate(r: real): (n: int)
    ensures IntMin <= n <= IntMax
    ensures 0.0 <= r < IntMax as real ==> n as real <= r < n as real + 1.0
    ensures IntMin as real < r <= 0.0 ==> n as real - 1.0 < r <= n as real
    ensures r >= IntMax as real ==> n == IntMax
    ensures r <= IntMin as real ==> n == IntMin
  {
    if r >= IntMax as real then IntMax
    else if r <= IntMin as real then IntMin
    else if r >= 0.0 then r.Floor
    else -((-r).Floor)
  }
}
