/**
 * The simulation (src/simulation/Model.java): three append-only lists and
 * the tick that updates every spring, then applies every force, then
 * updates every mass, and finally lets the controller act on the keyboard.
 * Springs and masses use the view size read once at the start of the tick;
 * the forces use the bounds last set by updateBounds, which the
 * controller's resizing does not change.
 */
module Simulation {
  import opened Vectors
  import opened Masses
  import opened Springs
  import opened Forces
  import opened Controls

  /** A value met at two indices occurs at least twice. */
  lemma RepeatCountsTwice<T>(s: seq<T>, i: nat, j: nat)
    requires i < j < |s|
    ensures s[j] == s[i] ==> multiset(s)[s[i]] >= 2
  {
    if s[j] == s[i] {
      assert s == s[..j] + s[j..];
      assert s[..j][i] == s[i] && s[j..][0] == s[i];
      assert multiset(s)[s[i]] == multiset(s[..j])[s[i]] + multiset(s[j..])[s[i]];
    }
  }

  /** Every mass the springs pull on. */
  function Ends(ss: seq<Spring>): set<Mass> {
    (set s | s in ss :: s.start) + (set s | s in ss :: s.end)
  }

  ghost predicate MassesValid(ms: seq<Mass>)
    reads (set m | m in ms)
  {
    forall m | m in ms :: m.Valid()
  }

  ghost predicate SpringsValid(ss: seq<Spring>)
    reads (set s | s in ss), Ends(ss)
  {
    (forall s | s in ss :: s.Valid()) && (forall m | m in Ends(ss) :: m.Valid())
  }

  /** Spring `j` has two distinct ends and shares neither with any other
      listed spring (so it is also listed only once). */
  predicate Lone(ss: seq<Spring>, j: int)
    requires 0 <= j < |ss|
  {
    ss[j].start != ss[j].end
    && forall i | 0 <= i < |ss| && i != j ::
         ss[i].start != ss[j].start && ss[i].start != ss[j].end
         && ss[i].end != ss[j].start && ss[i].end != ss[j].end
  }

  /** A lone spring and any other listed spring touch different masses. */
  lemma LoneApart(ss: seq<Spring>, j: int, i: int)
    requires 0 <= i < |ss| && 0 <= j < |ss| && i != j && Lone(ss, j)
    ensures ss[i] != ss[j]
    ensures ss[j].start != ss[i].start && ss[j].start != ss[i].end
    ensures ss[j].end != ss[i].start && ss[j].end != ss[i].end
  {
  }

  /** The ends of `s` hold the given accumulators plus the Hooke force of
      its current rest length: the start gets the force, the end its
      negation. */
  ghost predicate Pushed(num: Numerics, s: Spring, startAcc: Vec, endAcc: Vec)
    reads s, s.start, s.end
  {
    var f := HookeForce(num, s.start.pos, s.end.pos, s.restLength, s.k);
    s.start.acc == AfterForce(startAcc, s.start.fixed, f)
    && s.end.acc == AfterForce(endAcc, s.end.fixed, f.Negate())
  }

  /** A muscle's rest length was reset from the given phase, and the phase
      has taken one step. */
  ghost predicate Flexed(num: Numerics, s: Spring, phase: real)
    reads s
  {
    s.muscle ==> s.restLength == MuscleLength(num, s.initLength, s.amplitude, phase) && s.phase == phase + RadiansPerFrame
  }

  /** The update of spring `i` as the spring phase needs it: the spring
      is recentred and pushes its ends, and a lone spring other than `i`
      and its ends are untouched. */
  method UpdateSpringAt(num: Numerics, ss: seq<Spring>, i: int, elapsedTime: real, b: Dim)
    requires 0 <= i < |ss| && SpringsValid(ss)
    modifies {ss[i]}`restLength, {ss[i]}`phase, {ss[i]}`ticks, {ss[i]}`center, {ss[i]}`size, {ss[i].start, ss[i].end}`acc
    ensures SpringsValid(ss)
    ensures ss[i].center == Midpoint(ss[i].start.pos, ss[i].end.pos)
    ensures !ss[i].muscle ==> ss[i].restLength == old(ss[i].restLength)
    ensures ss[i].start != ss[i].end ==> Pushed(num, ss[i], old(ss[i].start.acc), old(ss[i].end.acc))
    ensures Flexed(num, ss[i], old(ss[i].phase))
    ensures forall j | 0 <= j < |ss| && ss[j] != ss[i] :: ss[j].center == old(ss[j].center)
    ensures forall j | 0 <= j < |ss| && j != i && Lone(ss, j) :: unchanged(ss[j], ss[j].start, ss[j].end)
    ensures forall j | 0 <= j < |ss| && j != i && multiset(ss)[ss[j]] == 1 :: ss[j] != ss[i]
  {
    var s := ss[i];
    assert s.start in Ends(ss) && s.end in Ends(ss);
    s.Update(num, elapsedTime, b);
    forall j | 0 <= j < |ss| && j != i && Lone(ss, j)
      ensures unchanged(ss[j], ss[j].start, ss[j].end)
    {
      LoneApart(ss, j, i);
    }
    forall j | 0 <= j < |ss| && j != i && multiset(ss)[ss[j]] == 1
      ensures ss[j] != ss[i]
    {
      if j < i {
        RepeatCountsTwice(ss, j, i);
      } else {
        RepeatCountsTwice(ss, i, j);
      }
    }
  }

  /**
   * The spring phase of a tick: every spring in list order. A muscle
   * listed once has reset its rest length from its old phase, which took
   * one step. A spring that shares no mass with another has pushed its
   * ends once with the Hooke force of its (for a muscle, freshly reset)
   * rest length.
   */
  method UpdateSprings(num: Numerics, ss: seq<Spring>, elapsedTime: real, b: Dim)
    requires SpringsValid(ss)
    modifies (set s | s in ss)`restLength, (set s | s in ss)`phase, (set s | s in ss)`ticks,
             (set s | s in ss)`center, (set s | s in ss)`size, Ends(ss)`acc
    ensures SpringsValid(ss)
    ensures forall j | 0 <= j < |ss| :: ss[j].center == Midpoint(ss[j].start.pos, ss[j].end.pos)
    ensures forall s | s in ss && !s.muscle :: s.restLength == old(s.restLength)
    ensures forall j | 0 <= j < |ss| && multiset(ss)[ss[j]] == 1 :: Flexed(num, ss[j], old(ss[j].phase))
    ensures forall j | 0 <= j < |ss| && Lone(ss, j) :: Pushed(num, ss[j], old(ss[j].start.acc), old(ss[j].end.acc))
  {
    var i := 0;
    while i < |ss|
      invariant 0 <= i <= |ss|
      invariant SpringsValid(ss)
      invariant forall j | 0 <= j < i :: ss[j].center == Midpoint(ss[j].start.pos, ss[j].end.pos)
      invariant forall s | s in ss && !s.muscle :: s.restLength == old(s.restLength)
      invariant forall j | 0 <= j < i && multiset(ss)[ss[j]] == 1 :: Flexed(num, ss[j], old(ss[j].phase))
      invariant forall j | i <= j < |ss| && multiset(ss)[ss[j]] == 1 ::
                  ss[j].restLength == old(ss[j].restLength) && ss[j].phase == old(ss[j].phase)
      invariant forall j | 0 <= j < i && Lone(ss, j) :: Pushed(num, ss[j], old(ss[j].start.acc), old(ss[j].end.acc))
      invariant forall j | i <= j < |ss| && Lone(ss, j) ::
                  ss[j].start.acc == old(ss[j].start.acc) && ss[j].end.acc == old(ss[j].end.acc)
    {
      UpdateSpringAt(num, ss, i, elapsedTime, b);
      i := i + 1;
    }
  }

  /** The force phase of a tick: every force in list order on all masses. */
  method ApplyForces(num: Numerics, fs: seq<Environment>, ms: seq<Mass>)
    requires MassesValid(ms)
    modifies (set m | m in ms)`acc, (set f | f in fs)`centerMass
    ensures MassesValid(ms)
    ensures forall f | f in fs && !f.isForceOn :: f.centerMass == old(f.centerMass)
  {
    var i := 0;
    while i < |fs|
      invariant 0 <= i <= |fs|
      invariant MassesValid(ms)
      invariant forall f | f in fs && !f.isForceOn :: f.centerMass == old(f.centerMass)
    {
      fs[i].ApplyForce(num, ms);
      i := i + 1;
    }
  }

  /** A mass at `pos` with velocity `vel` and accumulator `acc` has the
      velocity `next` after one update against `b`: the bounce off its
      clamped position and the accumulator were added to it. */
  predicate Kicked(num: Numerics, pos: Point, vel: Vec, acc: Vec, fixed: bool, b: Dim, next: Vec) {
    next == vel.Plus(AfterForce(acc, fixed, Bounce(num, ClampAsWritten(pos, b), vel, b)))
  }

  /** The update of mass `i` as the mass phase needs it; a mass listed
      only once other than it is a different object. */
  method UpdateMassAt(num: Numerics, ms: seq<Mass>, i: int, elapsedTime: real, b: Dim)
    requires 0 <= i < |ms| && ms[i].Valid()
    modifies {ms[i]}`pos, {ms[i]}`vel, {ms[i]}`acc
    ensures ms[i].Valid() && ms[i].acc == Zero && (ms[i].fixed ==> ms[i].vel == old(ms[i].vel))
    ensures Kicked(num, old(ms[i].pos), old(ms[i].vel), old(ms[i].acc), ms[i].fixed, b, ms[i].vel)
    ensures ms[i].pos == num.advance(ClampAsWritten(old(ms[i].pos), b), ms[i].vel, elapsedTime)
    ensures forall j | 0 <= j < |ms| && j != i && multiset(ms)[ms[j]] == 1 :: ms[j] != ms[i]
  {
    ms[i].Update(num, elapsedTime, b);
    forall j | 0 <= j < |ms| && j != i && multiset(ms)[ms[j]] == 1
      ensures ms[j] != ms[i]
    {
      if j < i {
        RepeatCountsTwice(ms, j, i);
      } else {
        RepeatCountsTwice(ms, i, j);
      }
    }
  }

  /** The mass phase of a tick: every mass in list order. */
  method UpdateMasses(num: Numerics, ms: seq<Mass>, elapsedTime: real, b: Dim)
    requires MassesValid(ms)
    modifies (set m | m in ms)`pos, (set m | m in ms)`vel, (set m | m in ms)`acc
    ensures MassesValid(ms)
    ensures forall m | m in ms :: m.acc == Zero
    ensures forall m | m in ms && m.fixed :: m.vel == old(m.vel)
    ensures forall j | 0 <= j < |ms| && multiset(ms)[ms[j]] == 1 ::
              Kicked(num, old(ms[j].pos), old(ms[j].vel), old(ms[j].acc), ms[j].fixed, b, ms[j].vel)
    ensures forall j | 0 <= j < |ms| && multiset(ms)[ms[j]] == 1 ::
              ms[j].pos == num.advance(ClampAsWritten(old(ms[j].pos), b), ms[j].vel, elapsedTime)
  {
    var i := 0;
    while i < |ms|
      invariant 0 <= i <= |ms|
      invariant MassesValid(ms)
      invariant forall j | 0 <= j < i :: ms[j].acc == Zero
      invariant forall m | m in ms && m.fixed :: m.vel == old(m.vel)
      invariant forall j | 0 <= j < |ms| && multiset(ms)[ms[j]] == 1 ::
                  if j < i then
                    Kicked(num, old(ms[j].pos), old(ms[j].vel), old(ms[j].acc), ms[j].fixed, b, ms[j].vel)
                    && ms[j].pos == num.advance(ClampAsWritten(old(ms[j].pos), b), ms[j].vel, elapsedTime)
                  else
                    ms[j].pos == old(ms[j].pos) && ms[j].vel == old(ms[j].vel) && ms[j].acc == old(ms[j].acc)
    {
      UpdateMassAt(num, ms, i, elapsedTime, b);
      i := i + 1;
    }
    forall m | m in ms
      ensures m.acc == Zero
    {
      var j :| 0 <= j < |ms| && ms[j] == m;
    }
  }

  /** Masses outside `ms` are untouched by the force and mass phases, and
      those inside stay valid; so the springs' ends stay valid. */
  lemma EndsStayValid(ss: seq<Spring>, ms: seq<Mass>)
    requires forall s | s in ss :: s.Valid()
    requires MassesValid(ms)
    requires forall m | m in Ends(ss) && m !in ms :: m.Valid()
    ensures SpringsValid(ss)
  {
    forall s | s in ss
      ensures s.start.Valid() && s.end.Valid()
    {
      assert s.start in Ends(ss) && s.end in Ends(ss);
    }
  }

  /** The force and mass phases of a tick. */
  method MoveMasses(num: Numerics, fs: seq<Environment>, ms: seq<Mass>, elapsedTime: real, b: Dim)
    requires MassesValid(ms)
    modifies (set m | m in ms)`pos, (set m | m in ms)`vel, (set m | m in ms)`acc, (set f | f in fs)`centerMass
    ensures MassesValid(ms)
    ensures forall m | m in ms :: m.acc == Zero
    ensures forall m | m in ms && m.fixed :: m.vel == old(m.vel)
    ensures forall j | 0 <= j < |ms| && multiset(ms)[ms[j]] == 1 ::
              ms[j].pos == num.advance(ClampAsWritten(old(ms[j].pos), b), ms[j].vel, elapsedTime)
  {
    ApplyForces(num, fs, ms);
    UpdateMasses(num, ms, elapsedTime, b);
  }

  /**
   * The three phases of a tick: springs, then forces, then masses, each in
   * list order. Springs and masses use the view size `b`; each force uses
   * its own shared bounds.
   */
  method Tick(num: Numerics, ss: seq<Spring>, fs: seq<Environment>, ms: seq<Mass>, elapsedTime: real, b: Dim)
    requires SpringsValid(ss) && MassesValid(ms)
    modifies (set s | s in ss)`restLength, (set s | s in ss)`phase, (set s | s in ss)`ticks,
             (set s | s in ss)`center, (set s | s in ss)`size, Ends(ss)`acc,
             (set m | m in ms)`pos, (set m | m in ms)`vel, (set m | m in ms)`acc,
             (set f | f in fs)`centerMass
    ensures SpringsValid(ss) && MassesValid(ms)
    ensures forall m | m in ms :: m.acc == Zero
    ensures forall m | m in ms && m.fixed :: m.vel == old(m.vel)
    ensures forall j | 0 <= j < |ms| && multiset(ms)[ms[j]] == 1 ::
              ms[j].pos == num.advance(ClampAsWritten(old(ms[j].pos), b), ms[j].vel, elapsedTime)
    ensures forall j | 0 <= j < |ss| :: ss[j].center == Midpoint(old(ss[j].start.pos), old(ss[j].end.pos))
    ensures forall s | s in ss && !s.muscle :: s.restLength == old(s.restLength)
    ensures forall j | 0 <= j < |ss| && multiset(ss)[ss[j]] == 1 :: Flexed(num, ss[j], old(ss[j].phase))
  {
    UpdateSprings(num, ss, elapsedTime, b);
    assert forall j | 0 <= j < |ss| :: ss[j].center == Midpoint(old(ss[j].start.pos), old(ss[j].end.pos));
    assert forall m | m in Ends(ss) :: m.Valid();
    MoveMasses(num, fs, ms, elapsedTime, b);
    EndsStayValid(ss, ms);
  }

  class Model {
    const view: View
    const control: Control
    /** Environment.myBounds. */
    const shared: SharedBounds
    var masses: seq<Mass>
    var springs: seq<Spring>
    var forces: seq<Environment>

    ghost predicate Valid()
      reads this, control, (set m | m in masses), (set s | s in springs), Ends(springs), (set f | f in forces)
    {
      control.view == view && control.Valid()
      && (forall f | f in forces :: f.bounds == shared)
      && MassesValid(masses)
      && SpringsValid(springs)
    }

    /** A new model has no masses, springs or forces and a fresh controller. */
    constructor (view: View, shared: SharedBounds)
      ensures Valid() && this.view == view && this.shared == shared && fresh(control)
      ensures masses == [] && springs == [] && forces == []
    {
      this.view := view;
      this.shared := shared;
      masses := [];
      springs := [];
      forces := [];
      control := new Control(view);
    }

    /** updateBounds: the view's current size becomes every force's bounds. */
    method UpdateBounds()
      modifies shared
      ensures shared.current == Dim(view.width, view.height)
    {
      shared.Update(Dim(view.width, view.height));
    }

    method AddMass(m: Mass)
      requires Valid() && m.Valid()
      modifies this`masses
      ensures Valid() && masses == old(masses) + [m]
    {
      masses := masses + [m];
    }

    method AddSpring(s: Spring)
      requires Valid() && s.Valid() && s.start.Valid() && s.end.Valid()
      modifies this`springs
      ensures Valid() && springs == old(springs) + [s]
    {
      springs := springs + [s];
    }

    /** The force joins the list first; a wall the controller has no slot
        for then makes `ok` false, with the force already in the list. */
    method AddForce(f: Environment) returns (ok: bool)
      requires Valid() && f.bounds == shared
      modifies this`forces, control`gravity, control`viscosity, control`centerMass, control.walls
      ensures Valid() && forces == old(forces) + [f]
      ensures ok <==> !f.params.WallRepulsion? || 1 <= f.params.id <= 4
      ensures ok ==> f in control.Registered()
    {
      forces := forces + [f];
      ok := control.Add(f);
    }

    /** The simulation part of update: one tick against the view's size. */
    method Step(num: Numerics, elapsedTime: real)
      requires Valid()
      modifies (set s | s in springs)`restLength, (set s | s in springs)`phase, (set s | s in springs)`ticks,
               (set s | s in springs)`center, (set s | s in springs)`size, Ends(springs)`acc,
               (set m | m in masses)`pos, (set m | m in masses)`vel, (set m | m in masses)`acc,
               (set f | f in forces)`centerMass
      ensures Valid()
      ensures forall m | m in masses :: m.acc == Zero
      ensures forall m | m in masses && m.fixed :: m.vel == old(m.vel)
      ensures forall j | 0 <= j < |masses| && multiset(masses)[masses[j]] == 1 ::
                masses[j].pos == num.advance(ClampAsWritten(old(masses[j].pos), old(Dim(view.width, view.height))),
                                             masses[j].vel, elapsedTime)
      ensures forall j | 0 <= j < |springs| ::
                springs[j].center == Midpoint(old(springs[j].start.pos), old(springs[j].end.pos))
      ensures forall s | s in springs && !s.muscle :: s.restLength == old(s.restLength)
      ensures forall j | 0 <= j < |springs| && multiset(springs)[springs[j]] == 1 ::
                Flexed(num, springs[j], old(springs[j].phase))
    {
      Tick(num, springs, forces, masses, elapsedTime, Dim(view.width, view.height));
    }

    /**
     * The controller's part of update: the key counter, the toggled force
     * and the resize move as Control.Update says; no other force is
     * switched, and no mass or spring moves.
     */
    method React() returns (ok: bool)
      requires Valid()
      modifies control`keyCounter, control`pixelsToResize, control`colorCounter, control`toggledName,
               control`clearLabel, control`lastToggleStatus, view, control.Registered()`isForceOn
      ensures Valid()
      ensures Increment(old(control.keyCounter)) < DebounceTicks ==>
                ok && control.keyCounter == Increment(old(control.keyCounter))
                && forall f | f in old(control.Registered()) :: f.isForceOn == old(f.isForceOn)
      ensures Increment(old(control.keyCounter)) >= DebounceTicks ==>
                var c := Decode(old(view.lastKey));
                var t := old(control.Target(c));
                (ok <==> !c.Toggles() || t != null)
                && (t != null ==> t.isForceOn == !old(t.isForceOn) && control.keyCounter == 0)
                && (t == null ==> control.keyCounter == Increment(old(control.keyCounter)))
                && forall f | f in old(control.Registered()) && f != t :: f.isForceOn == old(f.isForceOn)
      ensures var p := if Increment(old(control.keyCounter)) < DebounceTicks then old(control.pixelsToResize)
                       else PendingAfterKey(Decode(old(view.lastKey)), old(control.pixelsToResize));
              var d := SizeChange(p, old(view.height));
              if ok then control.pixelsToResize == PendingAfter(p, old(view.height))
                         && view.width == old(view.width) + d && view.height == old(view.height) + d
              else control.pixelsToResize == old(control.pixelsToResize)
                   && view.width == old(view.width) && view.height == old(view.height)
      ensures forall m | m in masses :: m.pos == old(m.pos) && m.vel == old(m.vel) && m.acc == old(m.acc)
      ensures forall s | s in springs ::
                s.center == old(s.center) && s.restLength == old(s.restLength) && s.phase == old(s.phase)
    {
      ok := control.Update();
    }

    /**
     * update: the view's size is read once and handed to every spring and
     * mass (the forces keep the bounds last set by updateBounds); springs,
     * then forces, then masses; then the controller. After
     * the tick every listed mass has an empty accumulator, fixed masses
     * have not moved their velocity, a mass listed once has taken one
     * clamped position step, and a muscle listed once has reset its rest
     * length from its old phase.
     */
    method Update(num: Numerics, elapsedTime: real) returns (ok: bool)
      requires Valid()
      modifies (set s | s in springs)`restLength, (set s | s in springs)`phase, (set s | s in springs)`ticks,
               (set s | s in springs)`center, (set s | s in springs)`size, Ends(springs)`acc,
               (set m | m in masses)`pos, (set m | m in masses)`vel, (set m | m in masses)`acc,
               (set f | f in forces)`centerMass,
               control`keyCounter, control`pixelsToResize, control`colorCounter, control`toggledName,
               control`clearLabel, control`lastToggleStatus, view, control.Registered()`isForceOn
      ensures Valid()
      ensures forall m | m in masses :: m.acc == Zero
      ensures forall m | m in masses && m.fixed :: m.vel == old(m.vel)
      ensures forall j | 0 <= j < |masses| && multiset(masses)[masses[j]] == 1 ::
                masses[j].pos == num.advance(ClampAsWritten(old(masses[j].pos), old(Dim(view.width, view.height))),
                                             masses[j].vel, elapsedTime)
      ensures forall j | 0 <= j < |springs| ::
                springs[j].center == Midpoint(old(springs[j].start.pos), old(springs[j].end.pos))
      ensures forall s | s in springs && !s.muscle :: s.restLength == old(s.restLength)
      ensures forall j | 0 <= j < |springs| && multiset(springs)[springs[j]] == 1 ::
                Flexed(num, springs[j], old(springs[j].phase))
    {
      Step(num, elapsedTime);
      ok := React();
    }
  }
}
