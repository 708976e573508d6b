# Springies simulation core in Dafny

This project models the simulation engine of Springies, a Java mass–spring
toy (package `simulation`). A model is a set of point masses joined by
springs. A muscle is a spring whose rest length breathes with a sine.
Environment forces act on every mass: gravity, viscosity, attraction to the
centre of mass, and repulsion from each of the four walls.

Every tick, the model does four things in this order:
1. updates every spring (Hooke's law on both ends);
2. applies every force that is switched on;
3. updates every mass (it is pushed back inside the view by the boundary
   check exactly as `Mass.java` writes it, so a mass past a corner can stay
   out on one axis; it is bounced off the edge it touched; and its
   accumulated force is turned into velocity and then position);
4. lets the controller read the keyboard. The controller toggles forces,
   grows or shrinks the view a pixel per tick, and debounces key presses
   over six ticks.

A loader reads whitespace-separated data files into masses, springs,
muscles and forces.

Layout, one module per file:

- `wrappers.dfy` (`Wrappers`): `Option`, `Result` and `Outcome`.
- `vectors.dfy` (`Vectors`): vectors, points, view sizes and the numeric
  helpers.
  - The trigonometry, `pow`, `Location.distance` and the sprite's own
    motion step are fields of a `Numerics` value. They are uninterpreted
    functions, passed to every operation that uses them.
  - `Quotient` is Java's double division.
  - `Truncate` is Java's `(int)` cast.
- `keys.dfy` (`KeyCodes`): the `KeyEvent` codes the controller reads.
- `mass.dfy` (`Masses`): `Mass.java` and `FixedMass.java`, as one class
  `Mass` with a `fixed` flag.
- `spring.dfy` (`Springs`): `Spring.java` and `Muscle.java`, as one class
  `Spring` with a `muscle` flag.
- `environment.dfy` (`Forces`): `Environment.java` and its four
  subclasses, as one class `Environment` whose `params` say which force it
  is. The static `Environment.myBounds` is a shared `SharedBounds` object
  that every force points to.
- `control.dfy` (`Controls`): `Control.java`, with the canvas reduced to a
  `View`. The view has a size and the last key pressed.
- `model.dfy` (`Simulation`): `Model.java`.
- `factory.dfy` (`Loading`): `Factory.java`. A data file is a sequence of
  lines, and a line is a sequence of `Token`s as `java.util.Scanner`
  classifies them. Scanner's exceptions and the null dereferences become
  `LoadError`s.

Java's exceptions are modelled as results:
- Where Java dereferences a null slot or indexes past an array, the model
  returns `ok == false` or an `Err`.
- Where Java loops over a list, the model has a `while` loop with its
  invariants.
- Where Java mutates an object, the model has a class with field-level
  `modifies` clauses.

## Model

| member | source | states |
|---|---|---|
| Vectors.Quotient | src/simulation/CenterMassForce.java:80-81 | a double quotient times its divisor gives the dividend; division by zero gives the IEEE result for that dividend |
| Vectors.Truncate | src/simulation/Spring.java:124 | the `(int)` cast truncates toward zero within the int range and saturates outside it |
| Masses.AfterForce | src/simulation/FixedMass.java:58-59 | applying a force to a fixed mass leaves its accumulator unchanged; on a free mass it adds exactly the force |
| Masses.AfterForcesStep | src/simulation/Mass.java:105-107 | applying the same force n+1 times is applying it n times and then once more |
| Masses.Clamp | src/simulation/Mass.java:73-91 | the corrected boundary check: any view at least one mass wide and high holds the clamped mass, and a mass strictly inside is not moved |
| Masses.ClampAsWrittenOnOneAxis | src/simulation/Mass.java:73-91 | the boundary check as written equals the corrected one unless the mass is out on both axes; each edge puts the mass half a mass-size inside it, and an axis that is not out is not touched |
| Masses.ClampAsWrittenMissesCorner | src/simulation/Mass.java:73-91 | a mass out on both axes is left outside the view by the check as written, and put inside by the corrected one |
| Masses.ClampAsWrittenCornerWitness | src/simulation/Mass.java:73-91 | the mass at (0,0) in a 100x100 view ends at (8,0) as written, with its top above the view, and at (8,8) when corrected |
| Masses.BounceHeading | src/simulation/Mass.java:118-132 | no impulse exactly when the mass is strictly inside; touching the top or bottom overrides touching the left or right; top is tested before bottom and left before right |
| Masses.Bounce | src/simulation/Mass.java:118-135 | the impulse is zero strictly inside; otherwise it has magnitude 2 along the heading, scaled by the velocity's relative magnitude |
| Masses.Mass.constructor | src/simulation/Mass.java:27-31 | a new mass sits at (x, y) with the given weight, no velocity, no accumulated force, and is free |
| Masses.Mass.Fixed | src/simulation/FixedMass.java:17-20 | a new fixed mass is the same but fixed |
| Masses.Mass.ApplyForce | src/simulation/Mass.java:105-107 | the accumulator becomes the old one plus the force, except on a fixed mass |
| Masses.Mass.CheckBoundaries | src/simulation/Mass.java:73-91 | the saved centre is put back on the axis not being corrected, so the position becomes the clamp as written; a mass out on at most one axis ends inside any view at least one mass wide and high, and a mass strictly inside does not move |
| Masses.Mass.Update | src/simulation/Mass.java:57-66 | clamp as written, then bounce off the clamped position, then velocity plus accumulator, then empty accumulator, then one motion step from the clamped position; a fixed mass keeps its velocity |
| Springs.HookeMagnitude | src/simulation/Spring.java:76-77 | for a positive stiffness the force is negative iff stretched and positive iff compressed; zero iff there is no stiffness or the spring is at rest length |
| Springs.Midpoint | src/simulation/Spring.java:112-114 | the centre is equally far from both ends on each axis |
| Springs.SpringSize | src/simulation/Spring.java:123-125 | the sprite is 20 high and as wide as the truncated distance between the ends |
| Springs.SpringColor | src/simulation/Spring.java:93-103 | black iff the difference is fuzzily zero; blue iff not and negative; red otherwise |
| Springs.PhaseAfterIsLinear | src/simulation/Muscle.java:48-51 | after n updates a muscle's phase is n times pi/100, whatever the elapsed times were |
| Springs.QuarterPeriod | src/simulation/Muscle.java:13-14 | fifty updates bring the phase to pi/2 |
| Springs.Spring.constructor | src/simulation/Spring.java:35-41 | a spring keeps its ends, rest length and stiffness, and is centred and sized on its ends |
| Springs.Spring.Muscle | src/simulation/Muscle.java:28-33 | a muscle starts at phase 0 with its initial length as rest length |
| Springs.Spring.SetLength | src/simulation/Spring.java:127-133 | after setting the rest length, reading it returns the value set |
| Springs.Spring.UpdateRestLength | src/simulation/Muscle.java:48-51 | the rest length becomes initLength·(1 + amplitude·sin(old phase)), then the phase advances by pi/100 |
| Springs.Spring.Push | src/simulation/Spring.java:78-80 | the force goes to the start mass and its negation to the end mass; with both ends free their accumulators' sum is unchanged |
| Springs.Spring.Update | src/simulation/Spring.java:72-85 | a muscle first resets its rest length; both ends get Hooke's force and its reaction at the new rest length; the sprite is recentred and resized; a plain spring's rest length never changes |
| Forces.WallKey | src/simulation/WallRepulsionForce.java:48-61 | walls 1..4 toggle with keys 1..4; any other identifier gets no key |
| Forces.TriggerKeysIdentifyForce | src/simulation/WallRepulsionForce.java:103-109 | two forces with the same trigger key are the same kind, and two walls with the same key have the same identifier |
| Forces.WallDistance | src/simulation/WallRepulsionForce.java:84-97 | the distance to the upper wall is y, to the right wall width−x, to the bottom wall height−y, and x for any other identifier |
| Forces.WallDistancesSpanView | src/simulation/WallRepulsionForce.java:84-97 | opposite walls' distances add up to the view's size, and both lie within it for a mass inside the view |
| Forces.InverseLaw | src/simulation/WallRepulsionForce.java:98-99 | the magnitude times distance^exponent gives back the force's magnitude |
| Forces.Centroid | src/simulation/CenterMassForce.java:69-82 | the centre times the total weight gives the weighted coordinate sums; a zero total weight gives the IEEE division result |
| Forces.MomentsAtOnePoint | src/simulation/CenterMassForce.java:75-79 | when all masses share one point, each weighted sum is the total weight times that coordinate |
| Forces.CentroidOfCoincidentMasses | src/simulation/CenterMassForce.java:69-82 | masses all at one point with a nonzero total weight have their centre there |
| Forces.CancellingWeightsAreDegenerate | src/simulation/CenterMassForce.java:80-81 | weights −5 and 5 cancel, and the centre is an unguarded division by zero |
| Forces.Contribution | src/simulation/ViscosityForce.java:43-51 | gravity adds its vector times the weight; viscosity adds a force that cancels the scaled velocity; centre-of-mass and wall forces add the inverse-law magnitude along their direction |
| Forces.DigitsRoundTrip | src/simulation/WallRepulsionForce.java:40 | reading back the decimal digits of a wall's identifier gives the identifier |
| Forces.SharedBounds.Update | src/simulation/Environment.java:23-25 | after updateBounds every force sees the given size |
| Forces.Environment.GravityForce | src/simulation/GravityForce.java:17-20 | a gravity force is on, named "Gravity", with the polar vector of its angle and magnitude |
| Forces.Environment.ViscosityForce | src/simulation/ViscosityForce.java:18-21 | a viscosity force is on, named "Viscosity", with its scale |
| Forces.Environment.CenterMassForce | src/simulation/CenterMassForce.java:29-33 | a centre-of-mass force is on, named "Center Mass", with magnitude and exponent |
| Forces.Environment.WallRepulsionForce | src/simulation/WallRepulsionForce.java:34-42 | a wall force is on, named "Wall " and its identifier, and its trigger key is the wall's key |
| Forces.Environment.IsOnOff | src/simulation/Environment.java:31-34 | "On" iff the force is on, "Off" iff it is off |
| Forces.Environment.Toggle | src/simulation/Environment.java:47-50 | flips the force and returns it |
| Forces.Environment.ToggleForce | src/simulation/GravityForce.java:51-55 | flips and returns the force iff the key is its trigger key, otherwise returns null and changes nothing |
| Forces.Environment.SetGravity | src/simulation/GravityForce.java:25-34 | after setGravity, getGravity returns the vector set |
| Forces.Environment.SetViscosity | src/simulation/ViscosityForce.java:26-35 | after setViscosity, getViscosity returns the scale set |
| Forces.Environment.CalculateCenterOfMass | src/simulation/CenterMassForce.java:69-82 | the loop's sums give the centroid of the masses' positions and weights, as a weightless body |
| Forces.Environment.AddToEach | src/simulation/GravityForce.java:41-48 | each listed mass gets this force's contribution once per time it is listed; a fixed mass gets none |
| Forces.Environment.ApplyForce | src/simulation/CenterMassForce.java:49-62 | an off force changes nothing; an on force adds its contribution to every mass, and a centre-of-mass force first records the centroid of the masses as they were |
| Controls.DecodeAgreesWithForces | src/simulation/Control.java:112-132 | the key that toggles a force decodes to the command for that force's slot |
| Controls.PendingAfter | src/simulation/Control.java:160-173 | a shrink below the minimum height is cancelled; otherwise the pending pixels move two toward zero |
| Controls.SizeChange | src/simulation/Control.java:160-173 | the view grows by one pixel iff pixels are pending, and shrinks by one iff a shrink is pending and the view is at least 100 high |
| Controls.PendingShrinks | src/simulation/Control.java:160-173 | the pending count never grows, strictly shrinks while even and nonzero, and stays even |
| Controls.SettleReachesZero | src/simulation/Control.java:160-173 | an even pending count is used up within as many ticks as half its size |
| Controls.OddPendingOscillates | src/simulation/Control.java:165-172 | why the count must be even: an odd count such as 1 would flip between 1 and −1 for ever; the controller never reaches one, since its Valid() keeps the count even |
| Controls.UpOrDownSettlesInFiveTicks | src/simulation/Control.java:133-140 | the ±10 pixels of the arrow keys are used up in five checkResize ticks, provided no arrow key re-arms them on the way |
| Controls.PendingAfterKey | src/simulation/Control.java:133-140 | the up key sets 10 pending pixels, the down key −10, and every other key leaves the count as it was |
| Controls.HeldUpKeyKeepsGrowing | src/simulation/Control.java:90-94 | while the up key stays the last key pressed, every update past the debounce window re-arms the count to 10 before checkResize, so the count sits at 8 and the view grows a pixel on every tick |
| Controls.HeldDownKeyStopsBelowMinimum | src/simulation/Control.java:137-140 | while the down key stays the last key, the view shrinks a pixel per tick while it is at least 100 high; below that, the pending count is cleared and the size stays |
| Controls.Increment | src/simulation/Control.java:21 | `keyCounter++` on a Java int: a counter within the int range stays in it, and every value but the largest goes up by one |
| Controls.KeyCounterWraps | src/simulation/Control.java:91 | the counter's increment past the largest int wraps to the smallest, which is below the six-tick debounce, so keys are ignored again |
| Controls.Control.constructor | src/simulation/Control.java:37-41 | a new controller has four empty wall slots, no forces and zero counters |
| Controls.Control.Add | src/simulation/Control.java:47-61 | each force goes to its own slot and leaves the others; a wall fills slot id−1; a wall id outside 1..4 fails |
| Controls.Control.CheckInputs | src/simulation/Control.java:104-155 | nothing happens within six ticks of the last toggle; then the last key toggles its force (an empty slot fails, and fails exactly then), records its name and status and restarts the counters; arrows set ±10 pending pixels as in PendingAfterKey; N resets the key; C sets the cleared label; no other force changes |
| Controls.Control.CheckResize | src/simulation/Control.java:160-173 | the pending count moves as in PendingAfter, and the view changes size by SizeChange on both axes |
| Controls.Control.Update | src/simulation/Control.java:90-94 | the counter goes up by one with int wrap-around; within the debounce window only the resize happens; past it, the last key is acted on as in CheckInputs: the call fails exactly when the key toggles an empty slot, a toggle restarts the counters and flips only its force; on success the count the key left takes one checkResize step against the old size, and on failure neither the count nor the size moves; the count stays even |
| Simulation.UpdateSpringAt | src/simulation/Model.java:71 | one spring's update: it is centred on its ends, pushes them with the Hooke force of its rest length, a muscle resets its rest length from its old phase, and a spring sharing no mass with it is untouched |
| Simulation.UpdateSprings | src/simulation/Model.java:70-72 | every spring is centred on its ends afterwards and plain springs keep their rest lengths; a muscle listed once has reset its rest length from its old phase, which took one step; a spring that shares no mass with another has added its Hooke force to its start mass and the negation to its end mass exactly once |
| Simulation.ApplyForces | src/simulation/Model.java:73-75 | every force in order acts on all masses; a force that is off keeps its recorded centre |
| Simulation.UpdateMassAt | src/simulation/Model.java:77 | one mass's update: its velocity gains the bounce off its clamped position and its accumulator, the accumulator empties, it steps from the clamped position, and no other mass listed once is the same object |
| Simulation.UpdateMasses | src/simulation/Model.java:76-78 | afterwards every accumulator is empty and fixed masses keep their velocity; a mass listed once has as velocity its old velocity plus the bounce off its clamped old position plus its old accumulator, and took one step from the clamped position with that velocity |
| Simulation.Tick | src/simulation/Model.java:68-78 | springs, then forces, then masses; springs and masses against the view size read at the start, forces against the bounds last set by updateBounds: afterwards every accumulator is empty, fixed masses keep their velocity, a mass listed once took one step from its clamp as written, springs are centred on their ends' old positions, and a muscle listed once reset its rest length from its old phase |
| Simulation.Model.constructor | src/simulation/Model.java:34-40 | a new model has no masses, springs or forces, and a new controller on the same view |
| Simulation.Model.UpdateBounds | src/simulation/Model.java:46-48 | every force sees the view's current size |
| Simulation.Model.AddMass | src/simulation/Model.java:86-88 | the mass is appended |
| Simulation.Model.AddSpring | src/simulation/Model.java:102-104 | the spring is appended |
| Simulation.Model.AddForce | src/simulation/Model.java:94-97 | the force is appended, then registered with the controller; a wall without a slot fails after it is appended |
| Simulation.Model.Step | src/simulation/Model.java:68-78 | the tick of Simulation.Tick against the view's current size, with the same claims: empty accumulators, fixed velocities kept, one clamped step for a mass listed once, springs centred on their ends' old positions, a muscle listed once reset from its old phase |
| Simulation.Model.React | src/simulation/Model.java:80 | the controller's update as in Controls.Control.Update: the key counter goes up with int wrap-around, or restarts when a key toggles a registered force, which flips; inside the debounce window no registered force switches, and past it no registered force other than the toggled one switches; the call fails exactly when the key toggles an empty slot; on success the pending resize takes one checkResize step and the view changes by SizeChange, on failure neither moves; no mass or spring moves |
| Simulation.Model.Update | src/simulation/Model.java:68-81 | after a tick every listed mass has an empty accumulator, fixed masses keep their velocity, a mass listed once takes one step from its clamp as written against the view size from before the tick, every spring is centred on its ends' old positions, and a muscle listed once reset its rest length from its old phase |
| Loading.NextInt | src/simulation/Factory.java:115 | an int token within the int range is read; a missing token or any other token fails |
| Loading.NextDouble | src/simulation/Factory.java:116-118 | an integer or decimal token is read as a double; a word fails; hasNextDouble iff the read succeeds |
| Loading.ParseMass | src/simulation/Factory.java:115-118 | a mass line reads an int id and three doubles, and fails at its first unreadable token |
| Loading.ParseMassRoundTrip | src/simulation/Factory.java:115-118 | reading a written mass line gives back the same mass, whatever follows it |
| Loading.ParseSpring | src/simulation/Factory.java:129-132 | a spring line reads two int ids and two doubles, failing at the first id if that is unreadable |
| Loading.ParseMuscle | src/simulation/Factory.java:138-142 | a muscle line reads what a spring line reads plus the amplitude, and fails as the spring line does |
| Loading.ParseSpringRoundTrip | src/simulation/Factory.java:129-132 | reading a written spring line gives back the same spring |
| Loading.ParseMuscleRoundTrip | src/simulation/Factory.java:138-142 | reading a written muscle line gives back the same muscle and amplitude |
| Loading.WallDirection | src/simulation/Factory.java:41-43 | each wall pushes away from itself: the upper wall down, the right wall left, the bottom wall up, the left wall right |
| Loading.GravityCommand | src/simulation/Factory.java:148-155 | no number means direction 90 and magnitude 10; otherwise angle and magnitude are read |
| Loading.ViscosityCommand | src/simulation/Factory.java:158-163 | never fails; the scale is 0.02 without a number, otherwise the number |
| Loading.CenterMassCommand | src/simulation/Factory.java:166-173 | no number means magnitude 10 and exponent 0; otherwise both are read |
| Loading.WallCommand | src/simulation/Factory.java:176-186 | the id is read first; magnitude and exponent are read if present, before the direction table is indexed; success iff the id is 1..4 and the numbers are readable; defaults are 10 and 0 |
| Loading.WallDefaults | src/simulation/Factory.java:176-180 | a wall line with only its id gets the defaults and its wall's direction |
| Loading.WallWithoutSlotFails | src/simulation/Factory.java:176-186 | a wall id outside 1..4 fails whatever follows |
| Loading.GravityRoundTrip | src/simulation/Factory.java:148-155 | reading a written gravity line gives back its angle and magnitude |
| Loading.Build | src/simulation/Factory.java:148-186 | each command builds a new force that is on, with the parsed parameters and the shared bounds |
| Loading.Factory.constructor | src/simulation/Factory.java:46 | no mass ids are known at first |
| Loading.Factory.MassCommand | src/simulation/Factory.java:114-126 | a positive weight makes a free mass and any other a fixed one; the id then names it, replacing an earlier mass; a parse error changes nothing |
| Loading.Factory.EndsOf | src/simulation/Factory.java:129-130 | both ids must name masses; an unknown start id is reported before an unknown end id |
| Loading.Factory.SpringCommand | src/simulation/Factory.java:128-135 | all numbers are read before the masses are looked up; the spring joins the named masses with the read length and stiffness |
| Loading.Factory.MuscleCommand | src/simulation/Factory.java:137-145 | as for a spring, plus the amplitude; the muscle starts at phase 0 |
| Loading.Factory.ModelLine | src/simulation/Factory.java:58-70 | a mass line appends a new mass at the read position, with the read weight, at rest and with an empty accumulator, fixed iff the weight is not positive, and maps the id to it; a spring or muscle line appends a new spring between the masses its ids name, with the read rest length and stiffness (a muscle also its amplitude, at phase 0); a line that fails adds nothing; any other line changes nothing |
| Loading.Factory.LoadModel | src/simulation/Factory.java:53-78 | on success, masses grow by the number of mass lines and springs by the number of spring and muscle lines; on failure, by those counts over the lines before the failing one |
| Loading.Factory.EnvironmentLine | src/simulation/Factory.java:87-101 | a force line adds one new, switched-on force with its parsed parameters and registers it with the controller, or fails without adding and leaves the controller's slots unchanged; any other line adds no force and leaves the controller's slots unchanged |
| Loading.Factory.LoadEnvironment | src/simulation/Factory.java:83-112 | on success, forces grow by the number of force lines and the bounds are then set from the view; on failure, the bounds are untouched |

## Left out

- Painting is not modelled. This covers `paint` in `Model`, `Mass`, `FixedMass`, `Spring` and `Control`, and the status text with its fading `colorCounter` colour. It is drawing only. `colorCounter` is kept as a counter that toggles reset.
- File input is not modelled: `Scanner` over a `File`, the `JFileChooser`, and `FileNotFoundException`. The loaders take the file's lines, already split into tokens.
- `Vector`, `Location`, `Sprite`, `Pixmap`, `Text` and `Canvas` are not part of this model. Their arithmetic (`polar`, `angleBetween`, `distanceBetween`, `getRelativeMagnitude`, `fuzzyEquals`, `Math.sin`, `Math.pow`, `Location.distance`) and the sprite's own motion step are uninterpreted functions of `Numerics`.
- Doubles are mathematical reals, so NaN, infinities and rounding are not modelled. Division by zero is the uninterpreted `overZero`.
- `Environment.myBounds` is null until the first `updateBounds`. The model starts `SharedBounds` with a size, so a wall force applied before then does not throw.
- `Control.checkInputs` calls `myFactory.loadNewModel()` on N and `myFactory.clear()` on C. `Factory` declares neither, so the model does only the controller's own part: it resets the key, or sets the cleared label.
- `Model` calls `new Control(myView)`, but `Control` declares only `Control(Canvas, Factory)`. The model's controller takes the view alone and has no factory field.
- `FixedMass.setGravity` and `FixedMass.getGravity` are not modelled. They override methods `Mass` does not declare, and nothing calls them.
- `Mass(Point, double)` is not modelled. It is the `(x, y)` constructor with the point's coordinates.
- The getters `Mass.getMass`, `Mass.getAcceleration`, `Spring.getEndMass`, `Environment.getName`, `Environment.getCenterMass` and `WallRepulsionForce.getID` are not modelled as contracts. They are field reads of `weight`, `acc`, `end`, `name`, `centerMass` and `params.id`. The name each kind of force gets is stated by its constructor.
- `Mass.distance` is `Numerics.distance` of the two positions.
- `Spring.update` sets the spring sprite's velocity to (heading, 0). This is not modelled, because nothing reads a spring's velocity.
- Forces.Centroid: translating every mass by the same offset moves the centre by that offset. This is not proved, because the nonlinear real arithmetic over a sum is beyond what the solver does within its limits. Only the coincident-masses case is proved.
- Simulation.UpdateMasses: the new velocity and position are stated only for masses listed once. A mass listed twice is updated twice, and the model does not state where it ends or how fast it moves.
- Simulation.Model.Update: for the same reason, the position claim covers only masses listed once. The controller's part of the tick is stated in `Controls.Control.Update` and `Simulation.Model.React`, and not repeated in `Simulation.Model.Update`.
- Simulation.UpdateSprings: the forces on the ends are stated only for a spring that shares no mass with another spring. Where springs share a mass, the mass gets several Hooke forces, and the model does not sum them.
- Simulation.Tick and Simulation.Model.Update do not state how the spring forces reach the velocities. Between the spring phase and the mass phase every force acts on every mass, and that per-mass effect is not composed (see Simulation.ApplyForces), so neither contract says what the accumulators held before the mass phase.
- `util/Sprite.java` is not part of this model. The direction constants `Mass.getBounce` uses (right 0, down 90, left 180, up 270) are taken from the same-named constants that `WallRepulsionForce.java` declares.
- Simulation.ApplyForces: the per-mass effect of the whole list is not composed across forces. Each force's effect is stated in `Forces.Environment.ApplyForce`.
- Loading.Factory.LoadModel and Loading.Factory.LoadEnvironment state what is added by counts only. The contents of each added mass, spring or force are stated per line, in `ModelLine` and `EnvironmentLine`.

## Findings

`Mass.CheckBoundaries`, and so every mass update and tick, runs the boundary
check as written (`ClampAsWritten`). `Clamp` is the intended check. It is
kept as the reference that `ClampAsWrittenOnOneAxis` and
`ClampAsWrittenMissesCorner` compare against, and it is proved to hold the
mass inside the view.

| source | as written | input that shows it | evidently intended | confidence | as-written member | corrected member |
|---|---|---|---|---|---|---|
| src/simulation/Mass.java:73-91 | each edge correction recentres the mass from the coordinates captured before any correction, so a later correction on the other axis undoes an earlier one | a mass at (0,0) in a 100x100 view ends at (8,0), with its top edge still above the view | the mass ends inside the view on both axes, at (8,8) | not executed | Masses.ClampAsWrittenCornerWitness | Masses.Clamp |
