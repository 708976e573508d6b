/**
 * The environment forces (src/simulation/Environment.java and its four
 * subclasses GravityForce, ViscosityForce, CenterMassForce and
 * WallRepulsionForce). Every force is an on/off switch that starts on; when
 * on, applying it adds one vector per mass into that mass's accumulator.
 * The subclasses become the variants of `ForceParams`, and the static
 * `myBounds` every subclass reads becomes one shared `SharedBounds` object.
 */
module Forces {
  import opened Vectors
  import opened Wrappers
  import opened KeyCodes
  import opened Masses

  const UpperWallId: int := 1
  const RightWallId: int := 2
  const BottomWallId: int := 3
  const LeftWallId: int := 4

  /** What distinguishes the four kinds of force, and their parameters. */
  datatype ForceParams =
    | Gravity(gravity: Vec)
    | Viscosity(viscosity: real)
    | CenterMass(magnitude: real, exponent: real)
    | WallRepulsion(id: int, direction: real, magnitude: real, exponent: real)

  /** assignKeyConstant: walls 1 to 4 answer to the keys 1 to 4; any other
      wall keeps the field's default, 0. */
  function WallKey(id: int): (key: int)
    ensures 1 <= id <= 4 ==> key == Key1 + (id - 1)
    ensures !(1 <= id <= 4) ==> key == 0
  {
    if id == UpperWallId then Key1
    else if id == RightWallId then Key2
    else if id == BottomWallId then Key3
    else if id == LeftWallId then Key4
    else 0
  }

  /** The key that `toggleForce(int)` of each kind answers to. */
  function TriggerKey(p: ForceParams): int {
    match p
    case Gravity(_) => KeyG
    case Viscosity(_) => KeyV
    case CenterMass(_, _) => KeyM
    case WallRepulsion(id, _, _, _) => WallKey(id)
  }

  /** Two forces answer to the same key only if they are of the same kind,
      and two walls with identifiers in 1..4 only if they are the same wall. */
  lemma TriggerKeysIdentifyForce(p: ForceParams, q: ForceParams)
    requires p.WallRepulsion? ==> 1 <= p.id <= 4
    requires q.WallRepulsion? ==> 1 <= q.id <= 4
    requires TriggerKey(p) == TriggerKey(q)
    ensures p.Gravity? == q.Gravity? && p.Viscosity? == q.Viscosity? && p.CenterMass? == q.CenterMass?
    ensures p.WallRepulsion? ==> q.WallRepulsion? && p.id == q.id
  {
  }

  /** calculateWallRepulsion's distance from a mass at `p` to wall `id`:
      the top for 1, the right side for 2, the bottom for 3, and the left
      side for every other identifier. */
  function WallDistance(id: int, p: Point, b: Dim): (d: real)
    ensures id == UpperWallId ==> d == p.y
    ensures id == RightWallId ==> d == b.width as real - p.x
    ensures id == BottomWallId ==> d == b.height as real - p.y
    ensures !(1 <= id <= 3) ==> d == p.x
  {
    if id == UpperWallId then p.y
    else if id == RightWallId then b.width as real - p.x
    else if id == BottomWallId then b.height as real - p.y
    else p.x
  }

  /** Opposite walls' distances add up to the view's size, and inside the
      view every wall distance lies between 0 and that size. */
  lemma WallDistancesSpanView(p: Point, b: Dim)
    ensures WallDistance(UpperWallId, p, b) + WallDistance(BottomWallId, p, b) == b.height as real
    ensures WallDistance(LeftWallId, p, b) + WallDistance(RightWallId, p, b) == b.width as real
    ensures 0.0 <= p.y <= b.height as real ==>
              0.0 <= WallDistance(UpperWallId, p, b) <= b.height as real
              && 0.0 <= WallDistance(BottomWallId, p, b) <= b.height as real
    ensures 0.0 <= p.x <= b.width as real ==>
              0.0 <= WallDistance(LeftWallId, p, b) <= b.width as real
              && 0.0 <= WallDistance(RightWallId, p, b) <= b.width as real
  {
  }

  /** `magnitude / pow(distance, exponent)`, the inverse-power law of the
      centre-of-mass and wall forces. */
  function InverseLaw(num: Numerics, magnitude: real, distance: real, exponent: real): (r: real)
    ensures num.pow(distance, exponent) != 0.0 ==> r * num.pow(distance, exponent) == magnitude
  {
    Quotient(num, magnitude, num.pow(distance, exponent))
  }

  /** A mass as the centre-of-mass computation sees it. */
  datatype Body = Body(pos: Point, weight: real)

  /** Total weight and weighted coordinate sums. */
  datatype Moments = Moments(total: real, sumX: real, sumY: real)

  /** The sums calculateCenterOfMass accumulates, in list order, using each
      mass's signed weight. */
  function MomentsOf(bs: seq<Body>): Moments {
    if bs == [] then Moments(0.0, 0.0, 0.0)
    else
      var m, b := MomentsOf(bs[..|bs| - 1]), bs[|bs| - 1];
      Moments(m.total + b.weight, m.sumX + b.weight * b.pos.x, m.sumY + b.weight * b.pos.y)
  }

  /** The weighted centroid; a zero total weight is not guarded against. */
  function Centroid(num: Numerics, bs: seq<Body>): (c: Point)
    ensures MomentsOf(bs).total != 0.0 ==>
              c.x * MomentsOf(bs).total == MomentsOf(bs).sumX && c.y * MomentsOf(bs).total == MomentsOf(bs).sumY
    ensures MomentsOf(bs).total == 0.0 ==>
              c == Point(num.overZero(MomentsOf(bs).sumX), num.overZero(MomentsOf(bs).sumY))
  {
    var m := MomentsOf(bs);
    Point(Quotient(num, m.sumX, m.total), Quotient(num, m.sumY, m.total))
  }

  lemma AddWeightAtPoint(total: real, sum: real, w: real, x: real)
    requires sum == total * x
    ensures sum + w * x == (total + w) * x
  {
  }

  /** Cancelling a non-zero factor. */
  lemma CancelFactor(a: real, b: real, t: real)
    requires t != 0.0 && a * t == b * t
    ensures a == b
  {
    assert (a - b) * t == 0.0;
  }

  lemma {:induction false} MomentsAtOnePoint(bs: seq<Body>, p: Point)
    requires forall i | 0 <= i < |bs| :: bs[i].pos == p
    ensures MomentsOf(bs).sumX == MomentsOf(bs).total * p.x
    ensures MomentsOf(bs).sumY == MomentsOf(bs).total * p.y
  {
    if bs != [] {
      MomentsAtOnePoint(bs[..|bs| - 1], p);
      var m, w := MomentsOf(bs[..|bs| - 1]), bs[|bs| - 1].weight;
      AddWeightAtPoint(m.total, m.sumX, w, p.x);
      AddWeightAtPoint(m.total, m.sumY, w, p.y);
    }
  }

  /** When all masses sit at one point (and the weights do not cancel out),
      that point is their centroid. */
  lemma CentroidOfCoincidentMasses(num: Numerics, bs: seq<Body>, p: Point)
    requires forall i | 0 <= i < |bs| :: bs[i].pos == p
    requires MomentsOf(bs).total != 0.0
    ensures Centroid(num, bs) == p
  {
    MomentsAtOnePoint(bs, p);
    var m, c := MomentsOf(bs), Centroid(num, bs);
    CancelFactor(c.x, p.x, m.total);
    CancelFactor(c.y, p.y, m.total);
  }

  /** A fixed mass of weight -5 at (0, 0) and a free one of weight 5 at
      (10, 0): the signed weights cancel and the centroid is the unguarded
      quotient by zero. */
  lemma CancellingWeightsAreDegenerate(num: Numerics)
    ensures var bs := [Body(Point(0.0, 0.0), -5.0), Body(Point(10.0, 0.0), 5.0)];
            MomentsOf(bs).total == 0.0 && Centroid(num, bs) == Point(num.overZero(50.0), num.overZero(0.0))
  {
    var bs := [Body(Point(0.0, 0.0), -5.0), Body(Point(10.0, 0.0), 5.0)];
    assert bs[..1] == [bs[0]];
    assert bs[..1][..0] == [];
  }

  /** The vector a force adds to one mass at `pos` with velocity `vel`, given
      the view `b` and the centroid `c` computed for this application. */
  function Contribution(num: Numerics, p: ForceParams, b: Dim, c: Point, pos: Point, vel: Vec, weight: real): (r: Vec)
    ensures p.Gravity? ==> r == p.gravity.Scale(weight)
    ensures p.Viscosity? ==> r.Plus(vel.Scale(p.viscosity)) == Zero
    ensures p.CenterMass? ==>
              r == num.polar(num.heading(pos, c), InverseLaw(num, p.magnitude, num.distance(c, pos), p.exponent))
    ensures p.WallRepulsion? ==>
              r == num.polar(p.direction, InverseLaw(num, p.magnitude, WallDistance(p.id, pos, b), p.exponent))
  {
    match p
    case Gravity(g) => g.Scale(weight)
    case Viscosity(v) => vel.Negate().Scale(v)
    case CenterMass(magnitude, exponent) =>
      num.polar(num.heading(pos, c), InverseLaw(num, magnitude, num.distance(c, pos), exponent))
    case WallRepulsion(id, direction, magnitude, exponent) =>
      num.polar(direction, InverseLaw(num, magnitude, WallDistance(id, pos, b), exponent))
  }

  /** How often `x` occurs in a prefix grows by one exactly at its occurrences. */
  lemma CountStep<T>(s: seq<T>, i: nat, x: T)
    requires i < |s|
    ensures multiset(s[..i + 1])[x] == multiset(s[..i])[x] + if x == s[i] then 1 else 0
  {
    assert s[..i + 1] == s[..i] + [s[i]];
  }

  /** The positions and weights of a list of masses. */
  function Bodies(ms: seq<Mass>): (bs: seq<Body>)
    reads ms
    ensures |bs| == |ms|
    ensures forall i | 0 <= i < |ms| :: bs[i] == Body(ms[i].pos, ms[i].weight)
  {
    if ms == [] then [] else Bodies(ms[..|ms| - 1]) + [Body(ms[|ms| - 1].pos, ms[|ms| - 1].weight)]
  }

  /** The decimal digits of `n`, as Java prints an int. */
  function Digits(n: nat): (s: string)
    ensures |s| >= 1
    ensures forall i | 0 <= i < |s| :: '0' <= s[i] <= '9'
  {
    if n < 10 then [(48 + n) as char] else Digits(n / 10) + [(48 + n % 10) as char]
  }

  function DecimalString(n: int): string {
    if n < 0 then "-" + Digits(-n) else Digits(n)
  }

  /** Reads a string of decimal digits back. */
  function DigitsValue(s: string): nat
    requires forall i | 0 <= i < |s| :: '0' <= s[i] <= '9'
  {
    if s == [] then 0 else DigitsValue(s[..|s| - 1]) * 10 + (s[|s| - 1] as int - 48)
  }

  /** The digits in a wall's name read back to its identifier. */
  lemma {:induction false} DigitsRoundTrip(n: nat)
    ensures DigitsValue(Digits(n)) == n
  {
    if n >= 10 {
      var s := Digits(n);
      assert s[..|s| - 1] == Digits(n / 10);
      DigitsRoundTrip(n / 10);
    }
  }

  /** Environment.myBounds: the single view size every force reads. */
  class SharedBounds {
    var current: Dim

    constructor (b: Dim)
      ensures current == b
    {
      current := b;
    }

    /** Environment.updateBounds. */
    method Update(b: Dim)
      modifies this
      ensures current == b
    {
      current := b;
    }
  }

  class Environment {
    var isForceOn: bool
    const name: string
    var params: ForceParams
    /** CenterMassForce.myCenterMass: the last centroid, as a weightless body. */
    var centerMass: Option<Body>
    const bounds: SharedBounds

    constructor GravityForce(num: Numerics, angle: real, magnitude: real, bounds: SharedBounds)
      ensures isForceOn && name == "Gravity" && params == Gravity(num.polar(angle, magnitude))
      ensures centerMass == None && this.bounds == bounds
    {
      isForceOn := true;
      name := "Gravity";
      params := Gravity(num.polar(angle, magnitude));
      centerMass := None;
      this.bounds := bounds;
    }

    constructor ViscosityForce(viscosity: real, bounds: SharedBounds)
      ensures isForceOn && name == "Viscosity" && params == Viscosity(viscosity)
      ensures centerMass == None && this.bounds == bounds
    {
      isForceOn := true;
      name := "Viscosity";
      params := Viscosity(viscosity);
      centerMass := None;
      this.bounds := bounds;
    }

    constructor CenterMassForce(magnitude: real, exponent: real, bounds: SharedBounds)
      ensures isForceOn && name == "Center Mass" && params == CenterMass(magnitude, exponent)
      ensures centerMass == None && this.bounds == bounds
    {
      isForceOn := true;
      name := "Center Mass";
      params := CenterMass(magnitude, exponent);
      centerMass := None;
      this.bounds := bounds;
    }

    constructor WallRepulsionForce(id: int, direction: real, magnitude: real, exponent: real, bounds: SharedBounds)
      ensures isForceOn && name == "Wall " + DecimalString(id)
      ensures params == WallRepulsion(id, direction, magnitude, exponent)
      ensures TriggerKey(params) == WallKey(id)
      ensures centerMass == None && this.bounds == bounds
    {
      isForceOn := true;
      name := "Wall " + DecimalString(id);
      params := WallRepulsion(id, direction, magnitude, exponent);
      centerMass := None;
      this.bounds := bounds;
    }

    /** "On" exactly when the force is on, otherwise "Off". */
    function IsOnOff(): (s: string)
      reads this
      ensures s == "On" <==> isForceOn
      ensures s == "Off" <==> !isForceOn
    {
      if isForceOn then "On" else "Off"
    }

    function GetName(): (s: string) {
      name
    }

    /** Environment.toggleForce(): flips the switch and returns this force. */
    method Toggle() returns (r: Environment)
      modifies this`isForceOn
      ensures r == this && isForceOn == !old(isForceOn)
    {
      isForceOn := !isForceOn;
      r := this;
    }

    /** The subclasses' toggleForce(key): flips the switch and returns this
        force exactly when `key` is the force's own key, else returns null. */
    method ToggleForce(key: int) returns (r: Environment?)
      modifies this`isForceOn
      ensures r != null <==> key == TriggerKey(params)
      ensures r != null ==> r == this && isForceOn == !old(isForceOn)
      ensures r == null ==> isForceOn == old(isForceOn)
    {
      if key == TriggerKey(params) {
        isForceOn := !isForceOn;
        r := this;
      } else {
        r := null;
      }
    }

    method SetGravity(gravity: Vec)
      requires params.Gravity?
      modifies this`params
      ensures params == Gravity(gravity)
      ensures GetGravity() == gravity
    {
      params := Gravity(gravity);
    }

    function GetGravity(): (g: Vec)
      reads this
      requires params.Gravity?
    {
      params.gravity
    }

    method SetViscosity(viscosity: real)
      requires params.Viscosity?
      modifies this`params
      ensures params == Viscosity(viscosity)
      ensures GetViscosity() == viscosity
    {
      params := Viscosity(viscosity);
    }

    function GetViscosity(): (v: real)
      reads this
      requires params.Viscosity?
    {
      params.viscosity
    }

    function GetCenterMass(): (c: Option<Body>)
      reads this
    {
      centerMass
    }

    function GetID(): (id: int)
      reads this
      requires params.WallRepulsion?
    {
      params.id
    }

    /** calculateCenterOfMass: one pass summing the signed weights and the
        weighted coordinates; the result is a body of weight 0 at the centroid. */
    static method CalculateCenterOfMass(num: Numerics, ms: seq<Mass>) returns (c: Body)
      ensures c == Body(Centroid(num, Bodies(ms)), 0.0)
    {
      var totalMass, sumX, sumY := 0.0, 0.0, 0.0;
      var i := 0;
      while i < |ms|
        invariant 0 <= i <= |ms|
        invariant Moments(totalMass, sumX, sumY) == MomentsOf(Bodies(ms)[..i])
      {
        ghost var bs := Bodies(ms)[..i + 1];
        assert bs[..i] == Bodies(ms)[..i];
        assert bs[i] == Body(ms[i].pos, ms[i].weight);
        totalMass := totalMass + ms[i].weight;
        sumX := sumX + ms[i].weight * ms[i].pos.x;
        sumY := sumY + ms[i].weight * ms[i].pos.y;
        assert Moments(totalMass, sumX, sumY) == MomentsOf(bs);
        i := i + 1;
      }
      assert Bodies(ms)[..i] == Bodies(ms);
      c := Body(Point(Quotient(num, sumX, totalMass), Quotient(num, sumY, totalMass)), 0.0);
    }

    /** The loop of applyForce: each mass gets its contribution, once per
        occurrence in the list. */
    method AddToEach(num: Numerics, ms: seq<Mass>, c: Point)
      requires forall m | m in ms :: m.Valid()
      modifies (set m | m in ms)`acc
      ensures forall m | m in ms :: m.Valid()
      ensures forall m | m in ms ::
                m.acc == AfterForces(old(m.acc), m.fixed, multiset(ms)[m],
                           Contribution(num, params, bounds.current, c, m.pos, m.vel, m.weight))
    {
      var i := 0;
      while i < |ms|
        invariant 0 <= i <= |ms|
        invariant forall m | m in ms :: m.Valid()
        invariant forall m | m in ms ::
                    m.acc == AfterForces(old(m.acc), m.fixed, multiset(ms[..i])[m],
                               Contribution(num, params, bounds.current, c, m.pos, m.vel, m.weight))
      {
        var m := ms[i];
        var f := Contribution(num, params, bounds.current, c, m.pos, m.vel, m.weight);
        AfterForcesStep(old(m.acc), m.fixed, multiset(ms[..i])[m], f);
        label Before:
        m.ApplyForce(f);
        forall x | x in ms
          ensures x.acc == AfterForces(old(x.acc), x.fixed, multiset(ms[..i + 1])[x],
                             Contribution(num, params, bounds.current, c, x.pos, x.vel, x.weight))
        {
          CountStep(ms, i, x);
          if x != m {
            assert x.acc == old@Before(x.acc);
          }
        }
        i := i + 1;
      }
      assert ms[..i] == ms;
    }

    /**
     * applyForce: nothing when off. When on, a centre-of-mass force first
     * recomputes and stores the centroid; then every mass in the list gets
     * this force's contribution added once per occurrence in the list. The
     * other kinds never compute a centroid; their contribution does not
     * depend on it.
     */
    method ApplyForce(num: Numerics, ms: seq<Mass>)
      requires forall m | m in ms :: m.Valid()
      modifies (set m | m in ms)`acc, this`centerMass
      ensures forall m | m in ms :: m.Valid()
      ensures !isForceOn ==> centerMass == old(centerMass) && forall m | m in ms :: m.acc == old(m.acc)
      ensures isForceOn && params.CenterMass? ==> centerMass == Some(Body(Centroid(num, old(Bodies(ms))), 0.0))
      ensures isForceOn && !params.CenterMass? ==> centerMass == old(centerMass)
      ensures isForceOn ==>
                forall m | m in ms ::
                  m.acc == AfterForces(old(m.acc), m.fixed, multiset(ms)[m],
                             Contribution(num, params, bounds.current, Centroid(num, old(Bodies(ms))), m.pos, m.vel, m.weight))
    {
      if !isForceOn {
        return;
      }
      if params.CenterMass? {
        var center := CalculateCenterOfMass(num, ms);
        centerMass := Some(center);
        AddToEach(num, ms, center.pos);
      } else {
        // Only the centre-of-mass force looks at the centroid.
        AddToEach(num, ms, Point(0.0, 0.0));
      }
    }
  }
}
