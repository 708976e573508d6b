/**
 * Point masses (src/simulation/Mass.java and FixedMass.java): a force
 * accumulator that forces add into and that each update empties into the
 * velocity, a boundary clamp and a bounce impulse. A FixedMass is a Mass
 * whose `fixed` flag is set; it ignores every applied force.
 */
module Masses {
  import opened Vectors
  import opened Wrappers

  /** Half of the 16x16 DEFAULT_SIZE every mass is drawn with. */
  const HalfSize: real := 8.0
  const ImpulseMagnitude: real := 2.0

  /**
   * util.Sprite's direction constants, in degrees with y growing downwards.
   * util/Sprite.java is not part of this model; the values are the ones
   * WallRepulsionForce.java declares under the same names.
   */
  const RightDirection: real := 0.0
  const DownDirection: real := 90.0
  const LeftDirection: real := 180.0
  const UpDirection: real := 270.0

  /** The edges of the 16x16 box centred on a mass. */
  function Left(p: Point): real { p.x - HalfSize }
  function Right(p: Point): real { p.x + HalfSize }
  function Top(p: Point): real { p.y - HalfSize }
  function Bottom(p: Point): real { p.y + HalfSize }

  /** No edge of the box touches or crosses the matching wall of `b`. */
  predicate StrictlyInside(p: Point, b: Dim) {
    Left(p) > 0.0 && Right(p) < b.width as real && Top(p) > 0.0 && Bottom(p) < b.height as real
  }

  /** The box lies within [0, width] x [0, height]. */
  predicate Contained(p: Point, b: Dim) {
    0.0 <= Left(p) && Right(p) <= b.width as real && 0.0 <= Top(p) && Bottom(p) <= b.height as real
  }

  /** What one applied force does to an accumulator: a fixed mass keeps it. */
  function AfterForce(acc: Vec, fixed: bool, f: Vec): (r: Vec)
    ensures fixed ==> r == acc
    ensures !fixed ==> r.dx - acc.dx == f.dx && r.dy - acc.dy == f.dy
  {
    if fixed then acc else acc.Plus(f)
  }

  /** What `n` applications of the same force do to an accumulator. */
  function AfterForces(acc: Vec, fixed: bool, n: nat, f: Vec): (r: Vec)
    ensures fixed || n == 0 ==> r == acc
  {
    if fixed then acc else acc.Plus(f.Scale(n as real))
  }

  lemma AfterForcesStep(acc: Vec, fixed: bool, n: nat, f: Vec)
    ensures AfterForce(AfterForces(acc, fixed, n, f), fixed, f) == AfterForces(acc, fixed, n + 1, f)
  {
  }

  /**
   * checkBoundaries exactly as written: each correction recentres the mass
   * using the coordinates captured before the first correction.
   */
  function ClampAsWritten(p: Point, b: Dim): Point {
    var w, h := b.width as real, b.height as real;
    var p1 := if Top(p) <= 0.0 then Point(p.x, HalfSize) else p;
    var p2 := if Right(p1) >= w then Point(w - HalfSize, p.y) else p1;
    var p3 := if Bottom(p2) >= h then Point(p.x, h - HalfSize) else p2;
    if Left(p3) <= 0.0 then Point(HalfSize, p.y) else p3
  }

  /**
   * checkBoundaries as evidently intended: the same four corrections in the
   * same order, each keeping the current value of the other coordinate.
   */
  function Clamp(p: Point, b: Dim): (r: Point)
    ensures b.width as real >= 2.0 * HalfSize && b.height as real >= 2.0 * HalfSize ==> Contained(r, b)
    ensures StrictlyInside(p, b) ==> r == p
  {
    var w, h := b.width as real, b.height as real;
    var p1 := if Top(p) <= 0.0 then Point(p.x, HalfSize) else p;
    var p2 := if Right(p1) >= w then Point(w - HalfSize, p1.y) else p1;
    var p3 := if Bottom(p2) >= h then Point(p2.x, h - HalfSize) else p2;
    if Left(p3) <= 0.0 then Point(HalfSize, p3.y) else p3
  }

  predicate HorizontallyOut(p: Point, b: Dim) {
    Left(p) <= 0.0 || Right(p) >= b.width as real
  }

  predicate VerticallyOut(p: Point, b: Dim) {
    Top(p) <= 0.0 || Bottom(p) >= b.height as real
  }

  /** When at most one axis is out of bounds, the code as written does what
      was intended: that axis is moved 8 inside its wall, the other is kept. */
  lemma ClampAsWrittenOnOneAxis(p: Point, b: Dim)
    requires !(HorizontallyOut(p, b) && VerticallyOut(p, b))
    ensures ClampAsWritten(p, b) == Clamp(p, b)
    ensures !HorizontallyOut(p, b) ==> Clamp(p, b).x == p.x
    ensures !VerticallyOut(p, b) ==> Clamp(p, b).y == p.y
    ensures Top(p) <= 0.0 && b.height as real > 2.0 * HalfSize ==> Clamp(p, b).y == HalfSize
    ensures Left(p) <= 0.0 ==> Clamp(p, b).x == HalfSize
    ensures Right(p) >= b.width as real && b.width as real > 2.0 * HalfSize ==> Clamp(p, b).x == b.width as real - HalfSize
    ensures Bottom(p) >= b.height as real ==> Clamp(p, b).y == b.height as real - HalfSize
  {
  }

  /** Past a corner, the code as written leaves the mass sticking out: the
      second correction on one axis restores the coordinate captured before
      the correction on the other axis. */
  lemma ClampAsWrittenMissesCorner(p: Point, b: Dim)
    requires b.width as real > 4.0 * HalfSize && b.height as real > 4.0 * HalfSize
    requires !(0.0 <= Left(p) && Right(p) <= b.width as real)
    requires !(0.0 <= Top(p) && Bottom(p) <= b.height as real)
    ensures !Contained(ClampAsWritten(p, b), b)
    ensures Contained(Clamp(p, b), b)
  {
  }

  /** The concrete witness: a mass at the top-left corner of a 100x100 view
      still sticks out of the top after the clamp as written. */
  lemma ClampAsWrittenCornerWitness()
    ensures ClampAsWritten(Point(0.0, 0.0), Dim(100, 100)) == Point(HalfSize, 0.0)
    ensures Top(ClampAsWritten(Point(0.0, 0.0), Dim(100, 100))) < 0.0
    ensures Clamp(Point(0.0, 0.0), Dim(100, 100)) == Point(HalfSize, HalfSize)
  {
  }

  /** The direction of getBounce's impulse: a horizontal wall is chosen
      first, and a vertical wall, when touched, overrides it. */
  function BounceHeading(p: Point, b: Dim): (r: Option<real>)
    ensures r.None? <==> StrictlyInside(p, b)
    ensures VerticallyOut(p, b) ==> r == Some(if Top(p) <= 0.0 then DownDirection else UpDirection)
    ensures !VerticallyOut(p, b) && HorizontallyOut(p, b) ==>
              r == Some(if Left(p) <= 0.0 then RightDirection else LeftDirection)
  {
    var horizontal :=
      if Left(p) <= 0.0 then Some(RightDirection)
      else if Right(p) >= b.width as real then Some(LeftDirection)
      else None;
    if Top(p) <= 0.0 then Some(DownDirection)
    else if Bottom(p) >= b.height as real then Some(UpDirection)
    else horizontal
  }

  /** getBounce: an impulse of magnitude 2 along the heading, scaled by the
      velocity's relative magnitude along it; none when nothing is touched. */
  function Bounce(num: Numerics, p: Point, v: Vec, b: Dim): (r: Vec)
    ensures StrictlyInside(p, b) ==> r == Zero
    ensures !StrictlyInside(p, b) ==>
              var unit := num.polar(BounceHeading(p, b).value, ImpulseMagnitude);
              r == unit.Scale(num.relativeMagnitude(v, unit))
  {
    match BounceHeading(p, b)
    case None => Zero.Scale(num.relativeMagnitude(v, Zero))
    case Some(angle) =>
      var impulse := num.polar(angle, ImpulseMagnitude);
      impulse.Scale(num.relativeMagnitude(v, impulse))
  }

  class Mass {
    var pos: Point
    var vel: Vec
    /** myAcceleration: the vectors applied since the last update. */
    var acc: Vec
    const weight: real
    /** Whether this is a FixedMass. */
    const fixed: bool

    /** A fixed mass never accumulates anything. */
    ghost predicate Valid()
      reads this
    {
      fixed ==> acc == Zero
    }

    constructor (x: real, y: real, weight: real)
      ensures pos == Point(x, y) && vel == Zero && acc == Zero
      ensures this.weight == weight && !fixed
      ensures Valid()
    {
      pos := Point(x, y);
      vel := Zero;
      acc := Zero;
      this.weight := weight;
      fixed := false;
    }

    /** FixedMass's constructor keeps the weight as given, negative or not. */
    constructor Fixed(x: real, y: real, weight: real)
      ensures pos == Point(x, y) && vel == Zero && acc == Zero
      ensures this.weight == weight && fixed
      ensures Valid()
    {
      pos := Point(x, y);
      vel := Zero;
      acc := Zero;
      this.weight := weight;
      fixed := true;
    }

    /** Adds `f` into the accumulator; a FixedMass ignores it. */
    method ApplyForce(f: Vec)
      requires Valid()
      modifies this`acc
      ensures Valid()
      ensures acc == AfterForce(old(acc), fixed, f)
    {
      if !fixed {
        acc := acc.Plus(f);
      }
    }

    /**
     * Keeps the mass within `b`, one edge at a time, as written: the centre
     * is saved first and each correction puts back the saved value of the
     * other coordinate. A mass out on at most one axis ends up inside; a
     * mass past a corner need not (see ClampAsWrittenMissesCorner).
     */
    method CheckBoundaries(b: Dim)
      modifies this`pos
      ensures pos == ClampAsWritten(old(pos), b)
      ensures b.width as real >= 2.0 * HalfSize && b.height as real >= 2.0 * HalfSize ==>
                !(HorizontallyOut(old(pos), b) && VerticallyOut(old(pos), b)) ==> Contained(pos, b)
      ensures StrictlyInside(old(pos), b) ==> pos == old(pos)
    {
      var w, h := b.width as real, b.height as real;
      var centerY := pos.y;
      var centerX := pos.x;
      if Top(pos) <= 0.0 {
        pos := Point(centerX, HalfSize);
      }
      if Right(pos) >= w {
        pos := Point(w - HalfSize, centerY);
      }
      if Bottom(pos) >= h {
        pos := Point(centerX, h - HalfSize);
      }
      if Left(pos) <= 0.0 {
        pos := Point(HalfSize, centerY);
      }
      if !(HorizontallyOut(old(pos), b) && VerticallyOut(old(pos), b)) {
        ClampAsWrittenOnOneAxis(old(pos), b);
      }
    }

    /**
     * One tick: clamp (as written), add the bounce impulse, move the accumulator into the
     * velocity, empty it, then take the position step.
     */
    method Update(num: Numerics, elapsedTime: real, b: Dim)
      requires Valid()
      modifies this`pos, this`vel, this`acc
      ensures Valid() && acc == Zero
      ensures vel == old(vel).Plus(AfterForce(old(acc), fixed, Bounce(num, ClampAsWritten(old(pos), b), old(vel), b)))
      ensures fixed ==> vel == old(vel)
      ensures pos == num.advance(ClampAsWritten(old(pos), b), vel, elapsedTime)
    {
      CheckBoundaries(b);
      ApplyForce(Bounce(num, pos, vel, b));
      vel := vel.Plus(acc);
      acc := Zero;
      pos := num.advance(pos, vel, elapsedTime);
    }
  }
}
