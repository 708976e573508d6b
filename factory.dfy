/**
 * The data-file loader (src/simulation/Factory.java). A file is a sequence
 * of lines and a line a sequence of tokens as java.util.Scanner splits them;
 * the first token is the keyword, and the command for that keyword reads
 * the numbers after it. Scanner's exceptions become `LoadError`s: the first
 * one ends the load, and what earlier lines added stays added.
 */
module Loading {
  import opened Vectors
  import opened Wrappers
  import opened Masses
  import opened Springs
  import opened Forces
  import opened Controls
  import opened Simulation

  const MassKeyword: string := "mass"
  const SpringKeyword: string := "spring"
  const GravityKeyword: string := "gravity"
  const ViscosityKeyword: string := "viscosity"
  const WallKeyword: string := "wall"
  const CenterMassKeyword: string := "centermass"
  const MuscleKeyword: string := "muscle"

  const DefaultGravityDirection: real := 90.0
  const DefaultGravityMagnitude: real := 10.0
  const DefaultViscosityScale: real := 0.02
  const DefaultWallMagnitude: real := 10.0
  const DefaultWallExponent: real := 0.0
  const DefaultCenterMassMagnitude: real := 10.0
  const DefaultCenterMassExponent: real := 0.0

  /** A token as Scanner sees it: one that reads as an int (and so also as
      a double), one that reads only as a double, or any other word. */
  datatype Token = Word(text: string) | Integer(n: int) | Decimal(d: real)

  datatype LoadError =
    | MissingToken        // NoSuchElementException
    | NotAnInteger        // InputMismatchException from nextInt
    | NotANumber          // InputMismatchException from nextDouble
    | NoWallSlot(id: int) // ArrayIndexOutOfBoundsException on the wall directions
    | UnknownMass(id: int) // NullPointerException on an unregistered mass

  /** Scanner.nextInt on token `i`: an integer token within the int range. */
  function NextInt(ts: seq<Token>, i: nat): (r: Result<int, LoadError>)
    ensures r.Ok? <==> i < |ts| && ts[i].Integer? && IntMin <= ts[i].n <= IntMax
    ensures r.Ok? ==> r.value == ts[i].n
    ensures i >= |ts| ==> r == Err(MissingToken)
  {
    if i >= |ts| then Err(MissingToken)
    else if ts[i].Integer? && IntMin <= ts[i].n <= IntMax then Ok(ts[i].n)
    else Err(NotAnInteger)
  }

  /** Scanner.hasNextDouble on token `i`. */
  predicate HasNextDouble(ts: seq<Token>, i: nat) {
    i < |ts| && !ts[i].Word?
  }

  /** Scanner.nextDouble on token `i`: integer tokens read as doubles too. */
  function NextDouble(ts: seq<Token>, i: nat): (r: Result<real, LoadError>)
    ensures r.Ok? <==> HasNextDouble(ts, i)
    ensures r.Ok? && ts[i].Integer? ==> r.value == ts[i].n as real
    ensures r.Ok? && ts[i].Decimal? ==> r.value == ts[i].d
    ensures i >= |ts| ==> r == Err(MissingToken)
  {
    if i >= |ts| then Err(MissingToken)
    else match ts[i]
      case Integer(v) => Ok(v as real)
      case Decimal(v) => Ok(v)
      case Word(_) => Err(NotANumber)
  }

  /** The keyword of a line; blank lines and lines starting with a number
      have none of the keywords. */
  function Keyword(line: seq<Token>): string {
    if line != [] && line[0].Word? then line[0].text else ""
  }

  /** The tokens after the keyword. */
  function Arguments(line: seq<Token>): seq<Token> {
    if line == [] then [] else line[1..]
  }

  /** The lines among the first `n` of `lines` with keyword `kw`. */
  function Count(lines: seq<seq<Token>>, n: nat, kw: string): nat
    requires n <= |lines|
  {
    if n == 0 then 0 else Count(lines, n - 1, kw) + if Keyword(lines[n - 1]) == kw then 1 else 0
  }

  datatype MassSpec = MassSpec(id: int, x: real, y: real, weight: real)

  /** massCommand's reads: an int identifier, then x, y and the weight. */
  function ParseMass(ts: seq<Token>): (r: Result<MassSpec, LoadError>)
    ensures r.Ok? <==> NextInt(ts, 0).Ok? && HasNextDouble(ts, 1) && HasNextDouble(ts, 2) && HasNextDouble(ts, 3)
    ensures r.Ok? ==> r.value.id == ts[0].n && r.value.x == NextDouble(ts, 1).value
                      && r.value.y == NextDouble(ts, 2).value && r.value.weight == NextDouble(ts, 3).value
    ensures NextInt(ts, 0).Err? ==> r == Err(NextInt(ts, 0).error)
    ensures NextInt(ts, 0).Ok? && !HasNextDouble(ts, 1) ==> r == Err(NextDouble(ts, 1).error)
  {
    var id :- NextInt(ts, 0);
    var x :- NextDouble(ts, 1);
    var y :- NextDouble(ts, 2);
    var weight :- NextDouble(ts, 3);
    Ok(MassSpec(id, x, y, weight))
  }

  /** A mass line as a data file would write it. */
  function MassTokens(s: MassSpec): seq<Token> {
    [Integer(s.id), Decimal(s.x), Decimal(s.y), Decimal(s.weight)]
  }

  /** Reading a written mass line gives the mass back, whatever follows it. */
  lemma ParseMassRoundTrip(s: MassSpec, rest: seq<Token>)
    requires IntMin <= s.id <= IntMax
    ensures ParseMass(MassTokens(s) + rest) == Ok(s)
  {
    var ts := MassTokens(s) + rest;
    assert ts[0] == Integer(s.id) && ts[1] == Decimal(s.x) && ts[2] == Decimal(s.y) && ts[3] == Decimal(s.weight);
  }

  /** Both spring kinds: two mass identifiers, a rest length and a
      stiffness, and for a muscle an amplitude. */
  datatype SpringSpec = SpringSpec(startId: int, endId: int, restLength: real, k: real)

  function ParseSpring(ts: seq<Token>): (r: Result<SpringSpec, LoadError>)
    ensures r.Ok? <==> NextInt(ts, 0).Ok? && NextInt(ts, 1).Ok? && HasNextDouble(ts, 2) && HasNextDouble(ts, 3)
    ensures r.Ok? ==> r.value.startId == ts[0].n && r.value.endId == ts[1].n
                      && r.value.restLength == NextDouble(ts, 2).value && r.value.k == NextDouble(ts, 3).value
    ensures NextInt(ts, 0).Err? ==> r == Err(NextInt(ts, 0).error)
  {
    var startId :- NextInt(ts, 0);
    var endId :- NextInt(ts, 1);
    var restLength :- NextDouble(ts, 2);
    var k :- NextDouble(ts, 3);
    Ok(SpringSpec(startId, endId, restLength, k))
  }

  /** muscleCommand reads what springCommand reads, then the amplitude. */
  function ParseMuscle(ts: seq<Token>): (r: Result<(SpringSpec, real), LoadError>)
    ensures r.Ok? <==> ParseSpring(ts).Ok? && HasNextDouble(ts, 4)
    ensures r.Ok? ==> r.value.0 == ParseSpring(ts).value && r.value.1 == NextDouble(ts, 4).value
    ensures ParseSpring(ts).Err? ==> r == Err(ParseSpring(ts).error)
  {
    var spec :- ParseSpring(ts);
    var amplitude :- NextDouble(ts, 4);
    Ok((spec, amplitude))
  }

  function SpringTokens(s: SpringSpec): seq<Token> {
    [Integer(s.startId), Integer(s.endId), Decimal(s.restLength), Decimal(s.k)]
  }

  lemma ParseSpringRoundTrip(s: SpringSpec, rest: seq<Token>)
    requires IntMin <= s.startId <= IntMax && IntMin <= s.endId <= IntMax
    ensures ParseSpring(SpringTokens(s) + rest) == Ok(s)
  {
    var ts := SpringTokens(s) + rest;
    assert ts[0] == Integer(s.startId) && ts[1] == Integer(s.endId);
    assert ts[2] == Decimal(s.restLength) && ts[3] == Decimal(s.k);
  }

  lemma ParseMuscleRoundTrip(s: SpringSpec, amplitude: real, rest: seq<Token>)
    requires IntMin <= s.startId <= IntMax && IntMin <= s.endId <= IntMax
    ensures ParseMuscle(SpringTokens(s) + [Decimal(amplitude)] + rest) == Ok((s, amplitude))
  {
    var ts := SpringTokens(s) + [Decimal(amplitude)] + rest;
    assert ts == SpringTokens(s) + ([Decimal(amplitude)] + rest);
    ParseSpringRoundTrip(s, [Decimal(amplitude)] + rest);
    assert ts[4] == Decimal(amplitude);
  }

  /** What an environment line asks for. */
  datatype ForceSpec =
    | GravitySpec(angle: real, magnitude: real)
    | ViscositySpec(viscosity: real)
    | CenterMassSpec(magnitude: real, exponent: real)
    | WallSpec(id: int, direction: real, magnitude: real, exponent: real)

  /** WALL_FORCE_DIRECTIONS: each wall pushes away from itself. */
  function WallDirection(id: int): (d: real)
    requires 1 <= id <= 4
    ensures id == UpperWallId ==> d == DownDirection
    ensures id == RightWallId ==> d == LeftDirection
    ensures id == BottomWallId ==> d == UpDirection
    ensures id == LeftWallId ==> d == RightDirection
  {
    [DownDirection, LeftDirection, UpDirection, RightDirection][id - 1]
  }

  /** gravityCommand: no number after the keyword means the defaults,
      otherwise an angle and a magnitude. */
  function GravityCommand(ts: seq<Token>): (r: Result<ForceSpec, LoadError>)
    ensures !HasNextDouble(ts, 0) ==> r == Ok(GravitySpec(90.0, 10.0))
    ensures HasNextDouble(ts, 0) ==>
              (r.Ok? <==> HasNextDouble(ts, 1))
              && (r.Ok? ==> r.value == GravitySpec(NextDouble(ts, 0).value, NextDouble(ts, 1).value))
  {
    if !HasNextDouble(ts, 0) then Ok(GravitySpec(DefaultGravityDirection, DefaultGravityMagnitude))
    else
      var angle := NextDouble(ts, 0).value;
      var magnitude :- NextDouble(ts, 1);
      Ok(GravitySpec(angle, magnitude))
  }

  function ViscosityCommand(ts: seq<Token>): (r: Result<ForceSpec, LoadError>)
    ensures r.Ok? && r.value.ViscositySpec?
    ensures !HasNextDouble(ts, 0) ==> r.value.viscosity == 0.02
    ensures HasNextDouble(ts, 0) ==> r.value.viscosity == NextDouble(ts, 0).value
  {
    if !HasNextDouble(ts, 0) then Ok(ViscositySpec(DefaultViscosityScale))
    else
      Ok(ViscositySpec(NextDouble(ts, 0).value))
  }

  function CenterMassCommand(ts: seq<Token>): (r: Result<ForceSpec, LoadError>)
    ensures !HasNextDouble(ts, 0) ==> r == Ok(CenterMassSpec(10.0, 0.0))
    ensures HasNextDouble(ts, 0) ==>
              (r.Ok? <==> HasNextDouble(ts, 1))
              && (r.Ok? ==> r.value == CenterMassSpec(NextDouble(ts, 0).value, NextDouble(ts, 1).value))
  {
    if !HasNextDouble(ts, 0) then Ok(CenterMassSpec(DefaultCenterMassMagnitude, DefaultCenterMassExponent))
    else
      var magnitude := NextDouble(ts, 0).value;
      var exponent :- NextDouble(ts, 1);
      Ok(CenterMassSpec(magnitude, exponent))
  }

  /** wallCommand: the identifier first; the numbers, if any, are read
      before the direction table is indexed with it. */
  function WallCommand(ts: seq<Token>): (r: Result<ForceSpec, LoadError>)
    ensures r.Ok? ==> r.value.WallSpec? && 1 <= r.value.id <= 4 && r.value.direction == WallDirection(r.value.id)
    ensures r.Ok? <==> NextInt(ts, 0).Ok? && 1 <= ts[0].n <= 4 && (HasNextDouble(ts, 1) ==> HasNextDouble(ts, 2))
    ensures r.Ok? && !HasNextDouble(ts, 1) ==> r.value.magnitude == 10.0 && r.value.exponent == 0.0
    ensures r.Ok? && HasNextDouble(ts, 1) ==>
              r.value.magnitude == NextDouble(ts, 1).value && r.value.exponent == NextDouble(ts, 2).value
    ensures NextInt(ts, 0).Ok? && HasNextDouble(ts, 1) && !HasNextDouble(ts, 2) ==> r == Err(NextDouble(ts, 2).error)
    ensures NextInt(ts, 0).Ok? && !(1 <= ts[0].n <= 4) && (HasNextDouble(ts, 1) ==> HasNextDouble(ts, 2)) ==>
              r == Err(NoWallSlot(ts[0].n))
  {
    var id :- NextInt(ts, 0);
    if !HasNextDouble(ts, 1) then
      if 1 <= id <= 4 then Ok(WallSpec(id, WallDirection(id), DefaultWallMagnitude, DefaultWallExponent))
      else Err(NoWallSlot(id))
    else
      var magnitude := NextDouble(ts, 1).value;
      var exponent :- NextDouble(ts, 2);
      if 1 <= id <= 4 then Ok(WallSpec(id, WallDirection(id), magnitude, exponent))
      else Err(NoWallSlot(id))
  }

  /** A wall line with only its identifier gets magnitude 10, exponent 0
      and the direction away from that wall. */
  lemma WallDefaults(id: int, rest: seq<Token>)
    requires 1 <= id <= 4 && !HasNextDouble(rest, 0)
    ensures WallCommand([Integer(id)] + rest) == Ok(WallSpec(id, WallDirection(id), 10.0, 0.0))
  {
    var ts := [Integer(id)] + rest;
    assert ts[0] == Integer(id);
    assert HasNextDouble(ts, 1) == HasNextDouble(rest, 0);
  }

  /** A wall line whose identifier has no slot fails, whatever follows. */
  lemma WallWithoutSlotFails(id: int, rest: seq<Token>)
    requires IntMin <= id <= IntMax && !(1 <= id <= 4)
    ensures WallCommand([Integer(id)] + rest).Err?
  {
    var ts := [Integer(id)] + rest;
    assert ts[0] == Integer(id);
  }

  lemma GravityRoundTrip(angle: real, magnitude: real, rest: seq<Token>)
    ensures GravityCommand([Decimal(angle), Decimal(magnitude)] + rest) == Ok(GravitySpec(angle, magnitude))
  {
    var ts := [Decimal(angle), Decimal(magnitude)] + rest;
    assert ts[0] == Decimal(angle) && ts[1] == Decimal(magnitude);
  }

  /** The parameters of the force an environment line builds. */
  function SpecParams(num: Numerics, s: ForceSpec): ForceParams {
    match s
    case GravitySpec(angle, magnitude) => Gravity(num.polar(angle, magnitude))
    case ViscositySpec(v) => Viscosity(v)
    case CenterMassSpec(magnitude, exponent) => CenterMass(magnitude, exponent)
    case WallSpec(id, direction, magnitude, exponent) => WallRepulsion(id, direction, magnitude, exponent)
  }

  /** The force for a spec, reading the shared bounds. */
  method Build(num: Numerics, s: ForceSpec, bounds: SharedBounds) returns (f: Environment)
    ensures fresh(f) && f.isForceOn && f.params == SpecParams(num, s) && f.bounds == bounds && f.centerMass == None
  {
    if s.GravitySpec? {
      f := new Environment.GravityForce(num, s.angle, s.magnitude, bounds);
    } else if s.ViscositySpec? {
      f := new Environment.ViscosityForce(s.viscosity, bounds);
    } else if s.CenterMassSpec? {
      f := new Environment.CenterMassForce(s.magnitude, s.exponent, bounds);
    } else {
      f := new Environment.WallRepulsionForce(s.id, s.direction, s.magnitude, s.exponent, bounds);
    }
  }

  /** The environment command for a keyword, if it is one. */
  function EnvironmentCommand(kw: string, ts: seq<Token>): Option<Result<ForceSpec, LoadError>> {
    if kw == GravityKeyword then Some(GravityCommand(ts))
    else if kw == ViscosityKeyword then Some(ViscosityCommand(ts))
    else if kw == CenterMassKeyword then Some(CenterMassCommand(ts))
    else if kw == WallKeyword then Some(WallCommand(ts))
    else None
  }

  /** The environment lines among `lines`. */
  function EnvironmentLines(lines: seq<seq<Token>>, n: nat): nat
    requires n <= |lines|
  {
    Count(lines, n, GravityKeyword) + Count(lines, n, ViscosityKeyword) + Count(lines, n, CenterMassKeyword)
      + Count(lines, n, WallKeyword)
  }

  /** A line counts as an environment line exactly when it has a command. */
  lemma EnvironmentLinesStep(lines: seq<seq<Token>>, i: nat)
    requires i < |lines|
    ensures EnvironmentLines(lines, i + 1) ==
              EnvironmentLines(lines, i) + if EnvironmentCommand(Keyword(lines[i]), Arguments(lines[i])).Some? then 1 else 0
  {
  }

  class Factory {
    /** myMasses: the masses by the identifiers their lines gave them. */
    var ids: map<int, Mass>

    ghost predicate Valid()
      reads this, ids.Values
    {
      forall m | m in ids.Values :: m.Valid()
    }

    constructor ()
      ensures ids == map[] && Valid()
    {
      ids := map[];
    }

    /** massCommand: a positive weight makes a Mass, any other a FixedMass;
        the identifier then names it, replacing any earlier mass. */
    method MassCommand(ts: seq<Token>) returns (r: Result<Mass, LoadError>)
      requires Valid()
      modifies this`ids
      ensures Valid()
      ensures ParseMass(ts).Err? ==> r == Err(ParseMass(ts).error) && ids == old(ids)
      ensures ParseMass(ts).Ok? ==>
                var s := ParseMass(ts).value;
                r.Ok? && fresh(r.value) && r.value.pos == Point(s.x, s.y) && r.value.vel == Zero
                && r.value.acc == Zero && r.value.weight == s.weight && (r.value.fixed <==> !(s.weight > 0.0))
                && ids == old(ids)[s.id := r.value]
    {
      var s :- ParseMass(ts);
      var m: Mass;
      if s.weight > 0.0 {
        m := new Mass(s.x, s.y, s.weight);
      } else {
        m := new Mass.Fixed(s.x, s.y, s.weight);
      }
      ids := ids[s.id := m];
      r := Ok(m);
    }

    /** The ends of a spring line, looked up after all its numbers are read;
        an identifier no mass line gave is a null dereference. */
    function EndsOf(s: SpringSpec): (r: Result<(Mass, Mass), LoadError>)
      reads this
      ensures r.Ok? <==> s.startId in ids && s.endId in ids
      ensures r.Ok? ==> r.value == (ids[s.startId], ids[s.endId])
      ensures s.startId !in ids ==> r == Err(UnknownMass(s.startId))
      ensures s.startId in ids && s.endId !in ids ==> r == Err(UnknownMass(s.endId))
    {
      if s.startId !in ids then Err(UnknownMass(s.startId))
      else if s.endId !in ids then Err(UnknownMass(s.endId))
      else Ok((ids[s.startId], ids[s.endId]))
    }

    method SpringCommand(num: Numerics, ts: seq<Token>) returns (r: Result<Spring, LoadError>)
      requires Valid()
      ensures ParseSpring(ts).Err? ==> r == Err(ParseSpring(ts).error)
      ensures ParseSpring(ts).Ok? && EndsOf(ParseSpring(ts).value).Err? ==> r == Err(EndsOf(ParseSpring(ts).value).error)
      ensures r.Ok? ==>
                var s := ParseSpring(ts).value;
                fresh(r.value) && r.value.start == ids[s.startId] && r.value.end == ids[s.endId]
                && r.value.restLength == s.restLength && r.value.k == s.k && !r.value.muscle
                && r.value.Valid() && r.value.start.Valid() && r.value.end.Valid()
      ensures r.Ok? <==> ParseSpring(ts).Ok? && EndsOf(ParseSpring(ts).value).Ok?
    {
      var s :- ParseSpring(ts);
      var ends :- EndsOf(s);
      var spring := new Spring(num, ends.0, ends.1, s.restLength, s.k);
      r := Ok(spring);
    }

    method MuscleCommand(num: Numerics, ts: seq<Token>) returns (r: Result<Spring, LoadError>)
      requires Valid()
      ensures ParseMuscle(ts).Err? ==> r == Err(ParseMuscle(ts).error)
      ensures ParseMuscle(ts).Ok? && EndsOf(ParseMuscle(ts).value.0).Err? ==>
                r == Err(EndsOf(ParseMuscle(ts).value.0).error)
      ensures r.Ok? ==>
                var (s, amplitude) := ParseMuscle(ts).value;
                fresh(r.value) && r.value.start == ids[s.startId] && r.value.end == ids[s.endId]
                && r.value.restLength == s.restLength && r.value.initLength == s.restLength
                && r.value.k == s.k && r.value.amplitude == amplitude && r.value.muscle && r.value.phase == 0.0
                && r.value.Valid() && r.value.start.Valid() && r.value.end.Valid()
      ensures r.Ok? <==> ParseMuscle(ts).Ok? && EndsOf(ParseMuscle(ts).value.0).Ok?
    {
      var spec :- ParseMuscle(ts);
      var ends :- EndsOf(spec.0);
      var muscle := new Spring.Muscle(num, ends.0, ends.1, spec.0.restLength, spec.0.k, spec.1);
      r := Ok(muscle);
    }

    /** One line of a model file: a mass, spring or muscle line adds to
        the model or fails; any other line changes nothing. */
    method ModelLine(num: Numerics, model: Model, line: seq<Token>) returns (r: Outcome<LoadError>)
      requires Valid() && model.Valid()
      modifies this`ids, model`masses, model`springs
      ensures Valid() && model.Valid()
      ensures r.Fail? ==> model.masses == old(model.masses) && model.springs == old(model.springs)
      ensures Keyword(line) == MassKeyword ==> (r.Pass? <==> ParseMass(Arguments(line)).Ok?)
      ensures Keyword(line) == MassKeyword && r.Pass? ==>
                var s := ParseMass(Arguments(line)).value;
                |model.masses| == |old(model.masses)| + 1 && old(model.masses) <= model.masses
                && model.springs == old(model.springs)
                && var m := model.masses[|old(model.masses)|];
                   fresh(m) && m.pos == Point(s.x, s.y) && m.vel == Zero && m.acc == Zero
                   && m.weight == s.weight && (m.fixed <==> !(s.weight > 0.0))
                   && ids == old(ids)[s.id := m]
      ensures Keyword(line) == SpringKeyword ==>
                (r.Pass? <==> ParseSpring(Arguments(line)).Ok? && old(EndsOf(ParseSpring(Arguments(line)).value)).Ok?)
      ensures Keyword(line) == MuscleKeyword ==>
                (r.Pass? <==> ParseMuscle(Arguments(line)).Ok? && old(EndsOf(ParseMuscle(Arguments(line)).value.0)).Ok?)
      ensures (Keyword(line) == SpringKeyword || Keyword(line) == MuscleKeyword) && r.Pass? ==>
                model.masses == old(model.masses) && old(model.springs) <= model.springs
                && |model.springs| == |old(model.springs)| + 1 && ids == old(ids)
      ensures Keyword(line) == SpringKeyword && r.Pass? ==>
                var s := ParseSpring(Arguments(line)).value;
                var sp := model.springs[|old(model.springs)|];
                fresh(sp) && sp.start == ids[s.startId] && sp.end == ids[s.endId]
                && sp.restLength == s.restLength && sp.k == s.k && !sp.muscle
      ensures Keyword(line) == MuscleKeyword && r.Pass? ==>
                var (s, amplitude) := ParseMuscle(Arguments(line)).value;
                var sp := model.springs[|old(model.springs)|];
                fresh(sp) && sp.start == ids[s.startId] && sp.end == ids[s.endId]
                && sp.restLength == s.restLength && sp.initLength == s.restLength && sp.k == s.k
                && sp.muscle && sp.amplitude == amplitude && sp.phase == 0.0
      ensures Keyword(line) != MassKeyword && Keyword(line) != SpringKeyword && Keyword(line) != MuscleKeyword ==>
                r.Pass? && model.masses == old(model.masses) && model.springs == old(model.springs)
    {
      var kw := Keyword(line);
      r := Pass;
      if kw == MassKeyword {
        var m := MassCommand(Arguments(line));
        if m.Err? {
          return Fail(m.error);
        }
        model.AddMass(m.value);
      } else if kw == SpringKeyword {
        var s := SpringCommand(num, Arguments(line));
        if s.Err? {
          return Fail(s.error);
        }
        model.AddSpring(s.value);
      } else if kw == MuscleKeyword {
        var s := MuscleCommand(num, Arguments(line));
        if s.Err? {
          return Fail(s.error);
        }
        model.AddSpring(s.value);
      }
    }

    /**
     * loadModel: mass, spring and muscle lines add to the model in file
     * order; every other line is skipped. The first failing line stops the
     * load, keeping what the lines before it added.
     */
    method LoadModel(num: Numerics, model: Model, lines: seq<seq<Token>>) returns (r: Outcome<LoadError>)
      requires Valid() && model.Valid()
      modifies this`ids, model`masses, model`springs
      ensures Valid() && model.Valid()
      ensures old(model.masses) <= model.masses && old(model.springs) <= model.springs
      ensures r.Pass? ==>
                |model.masses| == |old(model.masses)| + Count(lines, |lines|, MassKeyword)
                && |model.springs| == |old(model.springs)| + Count(lines, |lines|, SpringKeyword) + Count(lines, |lines|, MuscleKeyword)
      ensures r.Fail? ==>
                exists k | 0 <= k < |lines| ::
                  |model.masses| == |old(model.masses)| + Count(lines, k, MassKeyword)
                  && |model.springs| == |old(model.springs)| + Count(lines, k, SpringKeyword) + Count(lines, k, MuscleKeyword)
    {
      var i := 0;
      while i < |lines|
        invariant 0 <= i <= |lines|
        invariant Valid() && model.Valid()
        invariant old(model.masses) <= model.masses && old(model.springs) <= model.springs
        invariant |model.masses| == |old(model.masses)| + Count(lines, i, MassKeyword)
        invariant |model.springs| == |old(model.springs)| + Count(lines, i, SpringKeyword) + Count(lines, i, MuscleKeyword)
      {
        r := ModelLine(num, model, lines[i]);
        if r.Fail? {
          return;
        }
        i := i + 1;
      }
      r := Pass;
    }

    /** One line of an environment file: a force line adds its force or
        fails; any other line changes nothing. */
    method EnvironmentLine(num: Numerics, model: Model, line: seq<Token>) returns (r: Outcome<LoadError>)
      requires model.Valid()
      modifies model`forces, model.control`gravity, model.control`viscosity, model.control`centerMass,
               model.control.walls
      ensures model.Valid()
      ensures var command := EnvironmentCommand(Keyword(line), Arguments(line));
              match command
              case None => r.Pass? && model.forces == old(model.forces)
              case Some(Err(e)) => r == Fail(e) && model.forces == old(model.forces)
              case Some(Ok(spec)) =>
                r.Pass? && |model.forces| == |old(model.forces)| + 1 && old(model.forces) <= model.forces
                && var f := model.forces[|model.forces| - 1];
                   fresh(f) && f.isForceOn && f.params == SpecParams(num, spec) && f in model.control.Registered()
      ensures EnvironmentCommand(Keyword(line), Arguments(line)).None? || r.Fail? ==>
                unchanged(model.control, model.control.walls)
    {
      var command := EnvironmentCommand(Keyword(line), Arguments(line));
      r := Pass;
      if command.Some? {
        if command.value.Err? {
          return Fail(command.value.error);
        }
        var f := Build(num, command.value.value, model.shared);
        var ok := model.AddForce(f);
      }
    }

    /** One step of loadEnvironment: what EnvironmentLine adds, as the loop counts it. */
    method AddEnvironmentLine(num: Numerics, model: Model, line: seq<Token>) returns (r: Outcome<LoadError>)
      requires model.Valid()
      modifies model`forces, model.control`gravity, model.control`viscosity, model.control`centerMass,
               model.control.walls
      ensures model.Valid()
      ensures old(model.forces) <= model.forces
      ensures forall j | |old(model.forces)| <= j < |model.forces| :: model.forces[j].isForceOn
      ensures r.Pass? ==>
                |model.forces| == |old(model.forces)| +
                  if EnvironmentCommand(Keyword(line), Arguments(line)).Some? then 1 else 0
    {
      r := EnvironmentLine(num, model, line);
    }

    /**
     * loadEnvironment: gravity, viscosity, centermass and wall lines add a
     * force each; every other line is skipped. Only when every line has
     * been read are the shared bounds set from the view.
     */
    method LoadEnvironment(num: Numerics, model: Model, lines: seq<seq<Token>>) returns (r: Outcome<LoadError>)
      requires model.Valid()
      modifies model`forces, model.control`gravity, model.control`viscosity, model.control`centerMass,
               model.control.walls, model.shared
      ensures model.Valid()
      ensures old(model.forces) <= model.forces
      ensures forall j | |old(model.forces)| <= j < |model.forces| :: model.forces[j].isForceOn
      ensures r.Pass? ==> |model.forces| == |old(model.forces)| + EnvironmentLines(lines, |lines|)
      ensures r.Pass? ==> model.shared.current == Dim(model.view.width, model.view.height)
      ensures r.Fail? ==> model.shared.current == old(model.shared.current)
    {
      var i := 0;
      while i < |lines|
        invariant 0 <= i <= |lines|
        invariant model.Valid()
        invariant old(model.forces) <= model.forces
        invariant forall j | |old(model.forces)| <= j < |model.forces| :: model.forces[j].isForceOn
        invariant |model.forces| == |old(model.forces)| + EnvironmentLines(lines, i)
        invariant model.shared.current == old(model.shared.current)
      {
        r := AddEnvironmentLine(num, model, lines[i]);
        if r.Fail? {
          return;
        }
        EnvironmentLinesStep(lines, i);
        i := i + 1;
      }
      model.UpdateBounds();
      r := Pass;
    }
  }
}
