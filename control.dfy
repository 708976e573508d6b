/**
 * The keyboard controller (src/simulation/Control.java): a debounced key
 * counter, one slot per kind of force (four for the walls), and a resize
 * countdown that grows or shrinks the view one pixel per tick.
 */
module Controls {
  import opened Vectors
  import opened Wrappers
  import opened KeyCodes
  import opened Forces

  const RateOfResize: int := 2
  const MinimumViewHeight: int := 100
  /** Ticks a key must wait after a successful toggle. */
  const DebounceTicks: int := 6
  /** The pending resize set by the up and down keys. */
  const ResizeAmount: int := 10
  const ClearedLabel: string := "Assemblies Cleared"

  /** The parts of the canvas the controller reads and writes. */
  class View {
    var width: int
    var height: int
    var lastKey: int

    constructor (width: int, height: int)
      ensures this.width == width && this.height == height && lastKey == NoKey
    {
      this.width := width;
      this.height := height;
      lastKey := NoKey;
    }
  }

  /** What checkInputs does for a key, in the order of its if-else chain. */
  datatype Command =
    | ToggleGravity
    | ToggleViscosity
    | ToggleCenterMass
    | ToggleWall(slot: int)
    | Grow
    | Shrink
    | NewModel
    | ClearAll
    | Ignore
  {
    /** Whether the command toggles a force (and so needs its slot). */
    predicate Toggles() {
      ToggleGravity? || ToggleViscosity? || ToggleCenterMass? || ToggleWall?
    }
  }

  /** The pending resize once checkInputs has acted on a command: the up
      and down keys set it, every other key leaves it. */
  function PendingAfterKey(c: Command, pending: int): (r: int)
    ensures c.Grow? ==> r == ResizeAmount
    ensures c.Shrink? ==> r == -ResizeAmount
    ensures !c.Grow? && !c.Shrink? ==> r == pending
  {
    if c.Grow? then ResizeAmount else if c.Shrink? then -ResizeAmount else pending
  }

  /** keyCounter++ on a Java int: past the largest int it wraps to the
      smallest. */
  function Increment(n: int): (r: int)
    ensures IntMin <= n <= IntMax ==> IntMin <= r <= IntMax
    ensures n != IntMax ==> r - n == 1
  {
    if n == IntMax then IntMin else n + 1
  }

  /** After 2^31 - 1 ticks without a toggle the counter wraps negative, and
      the keys are ignored again until it climbs back to 6. */
  lemma KeyCounterWraps()
    ensures Increment(IntMax) == IntMin && Increment(IntMax) < DebounceTicks
  {
  }

  function Decode(key: int): Command {
    if key == KeyG then ToggleGravity
    else if key == KeyV then ToggleViscosity
    else if key == KeyM then ToggleCenterMass
    else if key == Key1 then ToggleWall(0)
    else if key == Key2 then ToggleWall(1)
    else if key == Key3 then ToggleWall(2)
    else if key == Key4 then ToggleWall(3)
    else if key == KeyUp then Grow
    else if key == KeyDown then Shrink
    else if key == KeyN then NewModel
    else if key == KeyC then ClearAll
    else Ignore
  }

  /** The key the controller routes to a force is the force's own key, and
      a wall's key reaches the slot `add` puts that wall in. */
  lemma DecodeAgreesWithForces(p: ForceParams)
    ensures p.Gravity? ==> Decode(TriggerKey(p)) == ToggleGravity
    ensures p.Viscosity? ==> Decode(TriggerKey(p)) == ToggleViscosity
    ensures p.CenterMass? ==> Decode(TriggerKey(p)) == ToggleCenterMass
    ensures p.WallRepulsion? && 1 <= p.id <= 4 ==> Decode(TriggerKey(p)) == ToggleWall(p.id - 1)
    ensures p.WallRepulsion? && !(1 <= p.id <= 4) ==> Decode(TriggerKey(p)) == Ignore
  {
  }

  /** checkResize's new pending value: cleared when a shrink is pending on a
      view lower than 100, otherwise moved 2 towards zero. */
  function PendingAfter(pending: int, height: int): (r: int)
    ensures height < MinimumViewHeight && pending < 0 ==> r == 0
    ensures !(height < MinimumViewHeight && pending < 0) ==>
              r == if pending > 0 then pending - RateOfResize else if pending < 0 then pending + RateOfResize else 0
  {
    if height < MinimumViewHeight && pending < 0 then 0
    else if pending > 0 then pending - RateOfResize
    else if pending < 0 then pending + RateOfResize
    else pending
  }

  /** The pixels checkResize adds to both sides of the view. */
  function SizeChange(pending: int, height: int): (d: int)
    ensures -1 <= d <= 1
    ensures d > 0 <==> pending > 0
    ensures d < 0 <==> pending < 0 && height >= MinimumViewHeight
  {
    if height < MinimumViewHeight && pending < 0 then 0
    else if pending > 0 then 1
    else if pending < 0 then -1
    else 0
  }

  function Abs(n: int): nat {
    if n < 0 then -n else n
  }

  /** The pending value never grows in size, and an even one stays even. */
  lemma PendingShrinks(pending: int, height: int)
    ensures Abs(PendingAfter(pending, height)) <= Abs(pending)
    ensures pending % 2 == 0 && pending != 0 ==> Abs(PendingAfter(pending, height)) < Abs(pending)
    ensures pending % 2 == 0 ==> PendingAfter(pending, height) % 2 == 0
  {
  }

  /** The pending value after one checkResize per height in `heights`. */
  function Settle(pending: int, heights: seq<int>): int
    decreases heights
  {
    if heights == [] then pending else Settle(PendingAfter(pending, heights[0]), heights[1..])
  }

  /** An even pending value of at most 2n in size reaches zero within n
      ticks, whatever the view's heights on the way. */
  lemma {:induction false} SettleReachesZero(pending: int, heights: seq<int>)
    requires pending % 2 == 0 && Abs(pending) <= RateOfResize * |heights|
    ensures Settle(pending, heights) == 0
    decreases heights
  {
    if heights != [] {
      var next := PendingAfter(pending, heights[0]);
      PendingShrinks(pending, heights[0]);
      if pending == 0 {
        assert next == 0;
      }
      SettleReachesZero(next, heights[1..]);
    }
  }

  /** Evenness matters: a pending value of 1 would swing between 1 and -1
      for as long as the view stays at least 100 high. The controller never
      gets there, since its Valid() keeps the count even. */
  lemma OddPendingOscillates(height: int)
    requires height >= MinimumViewHeight
    ensures PendingAfter(1, height) == -1 && PendingAfter(-1, height) == 1
  {
  }

  /** From 10 or -10, five checkResize ticks with no new up or down key
      bring the pending value to exactly 0. */
  lemma UpOrDownSettlesInFiveTicks(heights: seq<int>)
    requires |heights| == 5
    ensures Settle(ResizeAmount, heights) == 0
    ensures Settle(-ResizeAmount, heights) == 0
  {
    SettleReachesZero(ResizeAmount, heights);
    SettleReachesZero(-ResizeAmount, heights);
  }

  /** But the last key stays the last key: once past the debounce window,
      each update with the up key still the last one re-arms the count to
      10 before checkResize, so the count sits at 8 and the view grows one
      pixel on every tick. */
  lemma HeldUpKeyKeepsGrowing(pending: int, height: int)
    ensures PendingAfter(PendingAfterKey(Grow, pending), height) == ResizeAmount - RateOfResize
    ensures SizeChange(PendingAfterKey(Grow, pending), height) == 1
  {
  }

  /** With the down key still the last one, the view shrinks one pixel per
      tick while it is at least 100 high, then stops. */
  lemma HeldDownKeyStopsBelowMinimum(pending: int, height: int)
    ensures height >= MinimumViewHeight ==> SizeChange(PendingAfterKey(Shrink, pending), height) == -1
    ensures height < MinimumViewHeight ==>
              SizeChange(PendingAfterKey(Shrink, pending), height) == 0
              && PendingAfter(PendingAfterKey(Shrink, pending), height) == 0
  {
  }

  /** The forces an optional slot holds. */
  function Slot(f: Environment?): set<Environment> {
    if f == null then {} else {f}
  }

  class Control {
    const view: View
    var keyCounter: int
    var pixelsToResize: int
    var colorCounter: int
    var toggledName: string
    var clearLabel: string
    /** myLastToggleStatus: null until the first toggle. */
    var lastToggleStatus: Option<string>
    var gravity: Environment?
    var viscosity: Environment?
    var centerMass: Environment?
    const walls: array<Environment?>

    /** Four wall slots, keyCounter is a Java int, and the pending resize
        is even: the keys set it to 10 or -10 and checkResize moves it by 2
        or clears it. */
    ghost predicate Valid()
      reads this
    {
      walls.Length == 4 && IntMin <= keyCounter <= IntMax && pixelsToResize % 2 == 0
    }

    /** Every force the controller can toggle. */
    ghost function Registered(): set<Environment>
      reads this, walls
    {
      Slot(gravity) + Slot(viscosity) + Slot(centerMass)
        + set i | 0 <= i < walls.Length && walls[i] != null :: walls[i] as Environment
    }

    /** The force slot a command toggles; null for the other commands. */
    function Target(c: Command): Environment?
      requires Valid()
      reads this, walls
    {
      match c
      case ToggleGravity => gravity
      case ToggleViscosity => viscosity
      case ToggleCenterMass => centerMass
      case ToggleWall(slot) => if 0 <= slot < 4 then walls[slot] else null
      case _ => null
    }

    constructor (view: View)
      ensures Valid() && this.view == view && fresh(walls)
      ensures keyCounter == 0 && pixelsToResize == 0 && colorCounter == 0
      ensures toggledName == "" && clearLabel == "" && lastToggleStatus == None
      ensures gravity == null && viscosity == null && centerMass == null
      ensures forall i | 0 <= i < 4 :: walls[i] == null
    {
      this.view := view;
      keyCounter := 0;
      pixelsToResize := 0;
      colorCounter := 0;
      toggledName := "";
      clearLabel := "";
      lastToggleStatus := None;
      gravity, viscosity, centerMass := null, null, null;
      walls := new Environment?[4](_ => null);
    }

    /**
     * add: each kind of force goes to its own slot, a wall with identifier
     * i to wall slot i - 1. A wall outside 1..4 is an index error: `ok` is
     * false and nothing changes.
     */
    method Add(force: Environment) returns (ok: bool)
      requires Valid()
      modifies this`gravity, this`viscosity, this`centerMass, walls
      ensures Valid()
      ensures ok <==> !force.params.WallRepulsion? || 1 <= force.params.id <= 4
      ensures force.params.Gravity? ==> gravity == force
      ensures force.params.Viscosity? ==> viscosity == force
      ensures force.params.CenterMass? ==> centerMass == force
      ensures !force.params.Gravity? ==> gravity == old(gravity)
      ensures !force.params.Viscosity? ==> viscosity == old(viscosity)
      ensures !force.params.CenterMass? ==> centerMass == old(centerMass)
      ensures ok && force.params.WallRepulsion? ==>
                walls[force.params.id - 1] == force
                && forall i | 0 <= i < 4 && i != force.params.id - 1 :: walls[i] == old(walls[i])
      ensures !(ok && force.params.WallRepulsion?) ==> walls[..] == old(walls[..])
      ensures ok ==> force in Registered()
    {
      ok := true;
      match force.params
      case Gravity(_) =>
        gravity := force;
      case Viscosity(_) =>
        viscosity := force;
      case CenterMass(_, _) =>
        centerMass := force;
      case WallRepulsion(id, _, _, _) =>
        if 1 <= id <= 4 {
          walls[id - 1] := force;
        } else {
          ok := false;
        }
    }

    /**
     * checkInputs: nothing before the sixth tick since the last toggle;
     * afterwards the last key pressed is acted on. Toggling an empty slot is
     * a null dereference: `ok` is false and nothing changes. A successful
     * toggle records the force's name and status and restarts both counters.
     */
    method CheckInputs() returns (ok: bool)
      requires Valid()
      modifies this`keyCounter, this`pixelsToResize, this`colorCounter, this`toggledName,
               this`clearLabel, this`lastToggleStatus, view`lastKey, Registered()`isForceOn
      ensures Valid()
      ensures old(keyCounter) < DebounceTicks ==>
                ok && unchanged(this) && unchanged(view) && forall f | f in old(Registered()) :: unchanged(f)
      ensures old(keyCounter) >= DebounceTicks ==>
                var c := Decode(old(view.lastKey));
                var t := old(Target(c));
                (ok <==> !c.Toggles() || t != null)
                && (t != null ==>
                      t.isForceOn == !old(t.isForceOn) && toggledName == t.name && lastToggleStatus == Some(t.IsOnOff())
                      && keyCounter == 0 && colorCounter == 0
                      && pixelsToResize == old(pixelsToResize) && clearLabel == old(clearLabel) && unchanged(view))
                && (t == null ==>
                      toggledName == old(toggledName) && lastToggleStatus == old(lastToggleStatus)
                      && keyCounter == old(keyCounter) && colorCounter == old(colorCounter))
                && pixelsToResize == PendingAfterKey(c, old(pixelsToResize))
                && (c.NewModel? ==> view.lastKey == NoKey)
                && (!c.NewModel? ==> view.lastKey == old(view.lastKey))
                && (c.ClearAll? ==> clearLabel == ClearedLabel)
                && (!c.ClearAll? ==> clearLabel == old(clearLabel))
                && forall f | f in old(Registered()) && f != t :: f.isForceOn == old(f.isForceOn)
    {
      ok := true;
      if keyCounter < DebounceTicks {
        return;
      }
      var c := Decode(view.lastKey);
      var target := Target(c);
      var toggled: Environment? := null;
      match c {
        case ToggleGravity =>
          if target == null { return false; }
          toggled := target.Toggle();
        case ToggleViscosity =>
          if target == null { return false; }
          toggled := target.Toggle();
        case ToggleCenterMass =>
          if target == null { return false; }
          toggled := target.Toggle();
        case ToggleWall(_) =>
          if target == null { return false; }
          toggled := target.Toggle();
        case Grow =>
          pixelsToResize := ResizeAmount;
        case Shrink =>
          pixelsToResize := -ResizeAmount;
        case NewModel =>
          view.lastKey := NoKey;
        case ClearAll =>
          clearLabel := ClearedLabel;
        case Ignore =>
      }
      if toggled != null {
        toggledName := toggled.GetName();
        lastToggleStatus := Some(toggled.IsOnOff());
        keyCounter := 0;
        colorCounter := 0;
      }
    }

    /** checkResize, given the view's size `b` at the start of the tick. */
    method CheckResize(b: Dim)
      modifies this`pixelsToResize, view`width, view`height
      ensures pixelsToResize == PendingAfter(old(pixelsToResize), b.height)
      ensures var d := SizeChange(old(pixelsToResize), b.height);
              if d == 0 then view.width == old(view.width) && view.height == old(view.height)
              else view.width == b.width + d && view.height == b.height + d
    {
      if b.height < MinimumViewHeight && pixelsToResize < 0 {
        pixelsToResize := 0;
        return;
      }
      if pixelsToResize > 0 {
        view.width, view.height := b.width + 1, b.height + 1;
        pixelsToResize := pixelsToResize - RateOfResize;
      } else if pixelsToResize < 0 {
        view.width, view.height := b.width - 1, b.height - 1;
        pixelsToResize := pixelsToResize + RateOfResize;
      }
    }

    /**
     * update: count the tick, act on the keys, then resize against the
     * view's size at the start of the tick. When acting on a key fails
     * (the toggled slot is empty), the tick stops there.
     */
    method Update() returns (ok: bool)
      requires Valid()
      modifies this`keyCounter, this`pixelsToResize, this`colorCounter, this`toggledName,
               this`clearLabel, this`lastToggleStatus, view, Registered()`isForceOn
      ensures Valid()
      // Inside the debounce window only the counter and the resize move.
      ensures Increment(old(keyCounter)) < DebounceTicks ==>
                ok && keyCounter == Increment(old(keyCounter)) && colorCounter == old(colorCounter)
                && toggledName == old(toggledName) && lastToggleStatus == old(lastToggleStatus)
                && clearLabel == old(clearLabel) && view.lastKey == old(view.lastKey)
                && pixelsToResize == PendingAfter(old(pixelsToResize), old(view.height))
                && forall f | f in old(Registered()) :: f.isForceOn == old(f.isForceOn)
      // Past it, the last key is acted on.
      ensures Increment(old(keyCounter)) >= DebounceTicks ==>
                var c := Decode(old(view.lastKey));
                var t := old(Target(c));
                (ok <==> !c.Toggles() || t != null)
                && (t != null ==>
                      t.isForceOn == !old(t.isForceOn) && toggledName == t.name && lastToggleStatus == Some(t.IsOnOff())
                      && keyCounter == 0 && colorCounter == 0)
                && (t == null ==>
                      keyCounter == Increment(old(keyCounter)) && colorCounter == old(colorCounter)
                      && toggledName == old(toggledName) && lastToggleStatus == old(lastToggleStatus))
                && (c.NewModel? ==> view.lastKey == NoKey)
                && (!c.NewModel? ==> view.lastKey == old(view.lastKey))
                && (c.ClearAll? ==> clearLabel == ClearedLabel)
                && (!c.ClearAll? ==> clearLabel == old(clearLabel))
                && forall f | f in old(Registered()) && f != t :: f.isForceOn == old(f.isForceOn)
      // The resize: with the count the keys left, one checkResize step.
      ensures var p := if Increment(old(keyCounter)) < DebounceTicks then old(pixelsToResize)
                       else PendingAfterKey(Decode(old(view.lastKey)), old(pixelsToResize));
              var d := SizeChange(p, old(view.height));
              ok ==> pixelsToResize == PendingAfter(p, old(view.height))
                     && view.width == old(view.width) + d && view.height == old(view.height) + d
      ensures !ok ==> pixelsToResize == old(pixelsToResize)
                      && view.width == old(view.width) && view.height == old(view.height)
    {
      keyCounter := Increment(keyCounter);
      ok := CheckInputs();
      if ok {
        CheckResize(Dim(view.width, view.height));
      }
    }
  }
}
