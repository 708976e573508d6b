/**
 * Springs and muscles (src/simulation/Spring.java and Muscle.java). A spring
 * pushes its two end masses with equal and opposite Hooke forces; a muscle is
 * a spring whose rest length follows a sine of a phase that advances by
 * pi/100 on every update. A Muscle is a Spring whose `muscle` flag is set.
 */
module Springs {
  import opened Vectors
  import opened Masses

  const ImageHeight: int := 20
  const FrameRateDenom: int := 100
  /** Math.PI as written in its Java declaration. */
  const Pi: real := 3.141592653589793
  const RadiansPerFrame: real := Pi / FrameRateDenom as real

  /** k * (restLength - length): negative when stretched, positive when
      compressed, zero at rest, for any positive stiffness. */
  function HookeMagnitude(k: real, restLength: real, length: real): (r: real)
    ensures k > 0.0 ==> (r < 0.0 <==> length > restLength)
    ensures k > 0.0 ==> (r > 0.0 <==> length < restLength)
    ensures r == 0.0 <==> k == 0.0 || length == restLength
  {
    k * (restLength - length)
  }

  /** The force on the start mass: along the start-minus-end direction, with
      the Hooke magnitude of the current endpoint distance. */
  function HookeForce(num: Numerics, start: Point, end: Point, restLength: real, k: real): Vec {
    var dx, dy := start.x - end.x, start.y - end.y;
    num.polar(num.angleBetween(dx, dy), HookeMagnitude(k, restLength, num.distanceBetween(dx, dy)))
  }

  /** getCenter: the point halfway between the two ends. */
  function Midpoint(p: Point, q: Point): (r: Point)
    ensures r.x - p.x == q.x - r.x && r.y - p.y == q.y - r.y
  {
    Point((p.x + q.x) / 2.0, (p.y + q.y) / 2.0)
  }

  /** getSize: the truncated distance between the ends by the image height. */
  function SpringSize(num: Numerics, p: Point, q: Point): (r: Dim)
    ensures r.height == ImageHeight
    ensures 0.0 <= num.distance(p, q) < IntMax as real ==>
              r.width as real <= num.distance(p, q) < r.width as real + 1.0
  {
    Dim(Truncate(num.distance(p, q)), ImageHeight)
  }

  datatype Color = Black | Blue | Red

  /** getColor: black at (fuzzily) zero difference between length and rest
      length, blue when compressed, red when stretched. */
  function SpringColor(num: Numerics, diff: real): (c: Color)
    ensures c == Black <==> num.fuzzyEquals(diff, 0.0)
    ensures c == Blue <==> !num.fuzzyEquals(diff, 0.0) && diff < 0.0
    ensures c == Red <==> !num.fuzzyEquals(diff, 0.0) && diff >= 0.0
  {
    if num.fuzzyEquals(diff, 0.0) then Black
    else if diff < 0.0 then Blue
    else Red
  }

  /** A muscle's rest length at a given phase. */
  function MuscleLength(num: Numerics, initLength: real, amplitude: real, phase: real): real {
    initLength * (1.0 + amplitude * num.sin(phase))
  }

  /** The phase after `n` updates, one step of pi/100 at a time. */
  function PhaseAfter(n: nat): real {
    if n == 0 then 0.0 else PhaseAfter(n - 1) + RadiansPerFrame
  }

  /** The accumulated phase is n * pi/100: it does not depend on the
      elapsed time of any update. */
  lemma {:induction false} PhaseAfterIsLinear(n: nat)
    ensures PhaseAfter(n) == n as real * RadiansPerFrame
  {
    if n > 0 {
      PhaseAfterIsLinear(n - 1);
    }
  }

  /** After 50 updates a muscle is at the crest of its sine (pi/2). */
  lemma QuarterPeriod()
    ensures PhaseAfter(50) == Pi / 2.0
  {
    PhaseAfterIsLinear(50);
  }

  class Spring {
    const start: Mass
    const end: Mass
    const k: real
    var restLength: real
    /** The sprite's centre and size, kept in step with the ends. */
    var center: Point
    var size: Dim

    /** Whether this is a Muscle, and the muscle's own state. */
    const muscle: bool
    const amplitude: real
    const initLength: real
    var phase: real
    /** How many times the muscle has been updated. */
    ghost var ticks: nat

    ghost predicate Valid()
      reads this
    {
      phase == PhaseAfter(ticks) && (!muscle ==> ticks == 0)
    }

    constructor (num: Numerics, start: Mass, end: Mass, length: real, k: real)
      ensures this.start == start && this.end == end && this.k == k && restLength == length
      ensures center == Midpoint(start.pos, end.pos) && size == SpringSize(num, start.pos, end.pos)
      ensures !muscle && Valid()
    {
      this.start := start;
      this.end := end;
      this.k := k;
      restLength := length;
      center := Midpoint(start.pos, end.pos);
      size := SpringSize(num, start.pos, end.pos);
      muscle := false;
      amplitude := 0.0;
      initLength := length;
      phase := 0.0;
      ticks := 0;
    }

    /** A new muscle starts at phase 0 with its initial length as rest length. */
    constructor Muscle(num: Numerics, start: Mass, end: Mass, initLength: real, k: real, amplitude: real)
      ensures this.start == start && this.end == end && this.k == k
      ensures restLength == initLength && this.initLength == initLength && this.amplitude == amplitude
      ensures center == Midpoint(start.pos, end.pos) && size == SpringSize(num, start.pos, end.pos)
      ensures muscle && phase == 0.0 && ticks == 0 && Valid()
    {
      this.start := start;
      this.end := end;
      this.k := k;
      restLength := initLength;
      center := Midpoint(start.pos, end.pos);
      size := SpringSize(num, start.pos, end.pos);
      muscle := true;
      this.amplitude := amplitude;
      this.initLength := initLength;
      phase := 0.0;
      ticks := 0;
    }

    function GetLength(): (r: real)
      reads this
    {
      restLength
    }

    method SetLength(length: real)
      modifies this`restLength
      ensures GetLength() == length
    {
      restLength := length;
    }

    /** Muscle.updateRestLength: the rest length from the current phase,
        then one phase step. */
    method UpdateRestLength(num: Numerics)
      requires Valid() && muscle
      modifies this`restLength, this`phase, this`ticks
      ensures Valid() && ticks == old(ticks) + 1
      ensures restLength == MuscleLength(num, initLength, amplitude, old(phase))
      ensures phase == old(phase) + RadiansPerFrame
    {
      SetLength(MuscleLength(num, initLength, amplitude, phase));
      phase := phase + RadiansPerFrame;
      ticks := ticks + 1;
    }

    /** A force on the start mass and its reaction on the end mass; with
        both ends free, their accumulators' sum does not change. */
    method Push(force: Vec)
      requires start.Valid() && end.Valid()
      modifies start`acc, end`acc
      ensures start.Valid() && end.Valid()
      ensures start == end ==> start.acc == old(start.acc)
      ensures start != end ==> start.acc == AfterForce(old(start.acc), start.fixed, force)
      ensures start != end ==> end.acc == AfterForce(old(end.acc), end.fixed, force.Negate())
      ensures !start.fixed && !end.fixed ==> start.acc.Plus(end.acc) == old(start.acc).Plus(old(end.acc))
    {
      start.ApplyForce(force);
      end.ApplyForce(force.Negate());
    }

    /**
     * One tick: a muscle first resets its rest length; then the Hooke force
     * goes to the start mass and its negation to the end mass, and the
     * sprite is recentred on the ends.
     */
    method Update(num: Numerics, elapsedTime: real, b: Dim)
      requires Valid() && start.Valid() && end.Valid()
      modifies this`restLength, this`phase, this`ticks, this`center, this`size, start`acc, end`acc
      ensures Valid() && start.Valid() && end.Valid()
      ensures muscle ==> restLength == MuscleLength(num, initLength, amplitude, old(phase))
      ensures muscle ==> ticks == old(ticks) + 1
      ensures !muscle ==> restLength == old(restLength) && ticks == old(ticks)
      ensures muscle && old(ticks) == 0 && num.sin(0.0) == 0.0 ==> restLength == initLength
      ensures start == end ==> start.acc == old(start.acc)
      ensures start != end ==>
                start.acc == AfterForce(old(start.acc), start.fixed, HookeForce(num, start.pos, end.pos, restLength, k))
      ensures start != end ==>
                end.acc == AfterForce(old(end.acc), end.fixed, HookeForce(num, start.pos, end.pos, restLength, k).Negate())
      ensures !start.fixed && !end.fixed ==> start.acc.Plus(end.acc) == old(start.acc).Plus(old(end.acc))
      ensures center == Midpoint(start.pos, end.pos) && size == SpringSize(num, start.pos, end.pos)
    {
      if muscle {
        UpdateRestLength(num);
      }
      Push(HookeForce(num, start.pos, end.pos, restLength, k));
      center := Midpoint(start.pos, end.pos);
      size := SpringSize(num, start.pos, end.pos);
    }
  }
}
