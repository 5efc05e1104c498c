/** The refactored solar-system simulator: the same orbit camera and
    Keplerian bodies as the detailed program, organised into `Camera`,
    `CelestialBody`, `SolarSystem`, `UserInterface` and a top-level
    `SolarSystemSimulator` that owns the time step and the pause flag. */
module SolarSystemSimulator {
  import opened Common
  import Kepler
  import opened OrbitCamera

  const Width := 1000
  const Height := 800

  /** The keys of `Config.COLORS`. */
  datatype ColorName = Yellow | Blue | Red | Orange | Grey | Saturn | Jupiter

  /** `Config.COLORS[name]`: every entry is an RGB triple with each
      component in [0, 1], as `glColor3f` expects. */
  function ColorOf(n: ColorName): (c: Vec3)
    ensures 0.0 <= c.x <= 1.0 && 0.0 <= c.y <= 1.0 && 0.0 <= c.z <= 1.0
  {
    match n
    case Yellow => Vec3(1.0, 1.0, 0.0)
    case Blue => Vec3(0.1, 0.4, 0.9)
    case Red => Vec3(0.9, 0.2, 0.2)
    case Orange => Vec3(1.0, 0.65, 0.0)
    case Grey => Vec3(0.6, 0.6, 0.6)
    case Saturn => Vec3(0.9, 0.8, 0.5)
    case Jupiter => Vec3(0.9, 0.7, 0.4)
  }

  /** One row of `Config.PLANET_PARAMS`: distance, radius, colour name, mass,
      speed, inclination in degrees, name. */
  datatype PlanetParams = PlanetParams(
    distance: real, radius: real, color: ColorName, mass: real,
    speed: real, inclination: real, name: string)

  const PlanetTable: seq<PlanetParams> := [
    PlanetParams(70.0, 3.0, Grey, 3.3e23, 0.02, 7.0, "水星"),
    PlanetParams(100.0, 6.0, Orange, 4.87e24, 0.015, 3.4, "金星"),
    PlanetParams(150.0, 7.0, Blue, 5.97e24, 0.01, 0.0, "地球"),
    PlanetParams(200.0, 5.0, Red, 6.42e23, 0.008, 1.8, "火星"),
    PlanetParams(280.0, 15.0, Jupiter, 1.898e27, 0.004, 1.3, "木星"),
    PlanetParams(400.0, 12.0, Saturn, 5.683e26, 0.003, 2.5, "土星")]

  /** The held-key part of `handle_input`: LEFT/RIGHT turn yaw by -1/+1,
      UP/DOWN turn pitch by -1/+1 only while a Ctrl key is held, Q/E turn
      roll by -1/+1. Nothing else changes; in particular the position never
      moves and UP/DOWN without Ctrl do nothing. */
  function KeyboardStep(s: CameraState, k: Keys): (r: CameraState)
    ensures r.position == s.position && r.zoomLevel == s.zoomLevel
    ensures r.dragging == s.dragging && r.lastMousePos == s.lastMousePos
    ensures r.rotation.y == s.rotation.y - Flag(k.left) + Flag(k.right)
    ensures r.rotation.x == s.rotation.x - Flag(k.up && (k.lctrl || k.rctrl))
                                         + Flag(k.down && (k.lctrl || k.rctrl))
    ensures r.rotation.z == s.rotation.z - Flag(k.q) + Flag(k.e)
  {
    RollKeys(PitchKeys(YawKeys(s, k), k), k)
  }

  /** UP, then DOWN, each only with a Ctrl key held. */
  function PitchKeys(s: CameraState, k: Keys): (r: CameraState)
    ensures r == s.(rotation := s.rotation.(x := s.rotation.x - Flag(k.up && (k.lctrl || k.rctrl))
                                                              + Flag(k.down && (k.lctrl || k.rctrl))))
  {
    var ctrl := k.lctrl || k.rctrl;
    var s1 := if k.up && ctrl then Rotate(s, -1.0, 0.0, 0.0) else s;
    if k.down && ctrl then Rotate(s1, 1.0, 0.0, 0.0) else s1
  }

  /** Q, then E. */
  function RollKeys(s: CameraState, k: Keys): (r: CameraState)
    ensures r == s.(rotation := s.rotation.(z := s.rotation.z - Flag(k.q) + Flag(k.e)))
  {
    var s1 := if k.q then Rotate(s, 0.0, 0.0, -1.0) else s;
    if k.e then Rotate(s1, 0.0, 0.0, 1.0) else s1
  }

  /** Holding both arrows of a pair cancels, and without Ctrl the vertical
      arrows are inert. */
  lemma KeyboardCancels(s: CameraState, k: Keys)
    requires k.left && k.right && !(k.lctrl || k.rctrl)
    ensures KeyboardStep(s, k) == KeyboardStep(s, k.(left := false, right := false, up := false, down := false))
  {
  }

  /** The viewer. `__init__` just calls `reset`. */
  class Camera {
    var position: Vec3
    var rotation: Vec3
    var zoomLevel: real
    var dragging: bool
    var lastMousePos: Point

    function State(): CameraState
      reads this
    {
      CameraState(position, rotation, zoomLevel, dragging, lastMousePos)
    }

    constructor ()
      ensures State() == Default
    {
      new;
      Reset();
    }

    /** Restores the defaults, whatever happened before. */
    method Reset()
      modifies this
      ensures State() == Default
    {
      position := Vec3(0.0, 0.0, -600.0);
      rotation := Vec3(30.0, 0.0, 0.0);
      zoomLevel := 1.0;
      dragging := false;
      lastMousePos := Point(0, 0);
    }

    /** `rotate(dx, dy)`: yaw by a tenth of `dx`, pitch by a tenth of `dy`. */
    method Rotate(dx: real, dy: real)
      modifies this
      ensures State() == OrbitCamera.Rotate(old(State()), dy * DragSensitivity, dx * DragSensitivity, 0.0)
    {
      rotation := rotation.(y := rotation.y + dx * 0.1);
      rotation := rotation.(x := rotation.x + dy * 0.1);
    }

    method Zoom(amount: real)
      modifies this
      ensures State() == OrbitCamera.Zoom(old(State()), amount)
    {
      zoomLevel := Clip(zoomLevel + amount, 0.1, 3.0);
    }

    method StartDrag(pos: Point)
      modifies this
      ensures State() == OrbitCamera.StartDrag(old(State()), pos)
    {
      dragging := true;
      lastMousePos := pos;
    }

    method EndDrag()
      modifies this
      ensures State() == OrbitCamera.EndDrag(old(State()))
    {
      dragging := false;
    }

    method Drag(pos: Point)
      modifies this
      ensures State() == OrbitCamera.Drag(old(State()), pos)
    {
      if dragging {
        var dx := pos.x - lastMousePos.x;
        var dy := pos.y - lastMousePos.y;
        Rotate(dx as real, dy as real);
        lastMousePos := pos;
      }
    }

    /** `handle_input(events)` with `keys` the held-key snapshot: the
        keyboard step, then every mouse event of the frame in order. */
    method HandleInput(keys: Keys, events: seq<Event>)
      modifies this
      ensures State() == ReplayMouse(KeyboardStep(old(State()), keys), events)
    {
      ApplyYaw(keys);
      ApplyPitch(keys);
      ApplyRoll(keys);
      ghost var start := State();
      for i := 0 to |events|
        invariant State() == ReplayMouse(start, events[..i])
      {
        HandleMouseEvent(events[i]);
        assert events[..i + 1][..i] == events[..i];
      }
      assert events[..|events|] == events;
    }

    method ApplyYaw(keys: Keys)
      modifies this
      ensures State() == YawKeys(old(State()), keys)
    {
      if keys.left {
        rotation := rotation.(y := rotation.y - 1.0);
      }
      if keys.right {
        rotation := rotation.(y := rotation.y + 1.0);
      }
    }

    method ApplyPitch(keys: Keys)
      modifies this
      ensures State() == PitchKeys(old(State()), keys)
    {
      if keys.up && (keys.lctrl || keys.rctrl) {
        rotation := rotation.(x := rotation.x - 1.0);
      }
      if keys.down && (keys.lctrl || keys.rctrl) {
        rotation := rotation.(x := rotation.x + 1.0);
      }
    }

    method ApplyRoll(keys: Keys)
      modifies this
      ensures State() == RollKeys(old(State()), keys)
    {
      if keys.q {
        rotation := rotation.(z := rotation.z - 1.0);
      }
      if keys.e {
        rotation := rotation.(z := rotation.z + 1.0);
      }
    }

    /** One iteration of the mouse loop of `handle_input`. */
    method HandleMouseEvent(e: Event)
      modifies this
      ensures State() == OnMouseEvent(old(State()), e)
    {
      match e
      case MouseButtonDown(button, pos) =>
        if button == 1 {
          StartDrag(pos);
        } else if button == 4 {
          Zoom(0.1);
        } else if button == 5 {
          Zoom(-0.1);
        }
      case MouseButtonUp(button, _) =>
        if button == 1 {
          EndDrag();
        }
      case MouseMotion(pos) =>
        Drag(pos);
      case _ =>
    }
  }

  /** One vertex of a trail's line strip: the slot read, the point found
      there and the alpha it is drawn with. */
  datatype StripVertex = StripVertex(slot: int, pos: Vec3, alpha: real)

  /** `i / n` for `0 <= i < n` lies in [0, 1). */
  lemma FractionInUnit(i: int, n: int)
    requires 0 <= i < n
    ensures 0.0 <= i as real / n as real < 1.0
  {
  }

  /** `_draw_trail` as written: nothing when fewer than two points are
      live; otherwise `trail_count` vertices, the i-th read from slot
      `(trail_index - i) % 300` (Python's `%`, which agrees with Dafny's
      for a positive modulus) with alpha `i / trail_count`. */
  function DrawnTrail(slots: seq<Vec3>, trailIndex: nat, trailCount: nat): (strip: seq<StripVertex>)
    requires |slots| == Kepler.MaxTrailLength
    ensures trailCount < 2 ==> strip == []
    ensures trailCount >= 2 ==> |strip| == trailCount
    ensures forall i :: 0 <= i < |strip| ==>
              && strip[i].slot == (trailIndex - i) % Kepler.MaxTrailLength
              && 0 <= strip[i].slot < Kepler.MaxTrailLength
              && strip[i].pos == slots[strip[i].slot]
              && strip[i].alpha == i as real / trailCount as real
              && 0.0 <= strip[i].alpha < 1.0
  {
    if trailCount < 2 then []
    else
      var strip := seq(trailCount, i requires 0 <= i < trailCount =>
        StripVertex((trailIndex - i) % Kepler.MaxTrailLength,
                    slots[(trailIndex - i) % Kepler.MaxTrailLength],
                    i as real / trailCount as real));
      assert forall i :: 0 <= i < |strip| ==> 0.0 <= strip[i].alpha < 1.0 by {
        forall i | 0 <= i < |strip|
          ensures 0.0 <= strip[i].alpha < 1.0
        {
          FractionInUnit(i, trailCount);
        }
      }
      strip
  }

  /** While the ring is still filling, the walk as written starts at the
      slot about to be written next, which still holds the zero the buffer
      was created with, and never visits slot 0, where the oldest live point
      is: the strip is anchored at the origin and the first point of the
      trail is missing from it. */
  lemma {:induction false} DrawnTrailWhileFilling(b: Kepler.Body)
    requires Kepler.TrailValid(b) && 2 <= b.trailCount < Kepler.MaxTrailLength
    ensures DrawnTrail(b.slots, b.trailIndex, b.trailCount)[0].pos == Origin
    ensures forall i :: 0 <= i < b.trailCount ==>
              DrawnTrail(b.slots, b.trailIndex, b.trailCount)[i].slot != 0
    ensures Kepler.LivePoints(b)[0] == b.slots[0]
  {
    var n := Kepler.MaxTrailLength;
    assert |b.history| == b.trailCount == b.trailIndex;
    Kepler.ModSmall(b.trailIndex, n);
    assert Kepler.Blank(b.slots, b.trailIndex);
    var strip := DrawnTrail(b.slots, b.trailIndex, b.trailCount);
    forall i | 0 <= i < b.trailCount
      ensures strip[i].slot != 0
    {
      Kepler.ModSmall(b.trailIndex - i, n);
    }
    Kepler.ModSmall(0, n);
    assert b.slots[0 % n] == b.history[0];
  }

  /** The evidently intended walk: the live points oldest first, so that the
      alpha ramp fades in towards the newest point. */
  function LiveTrail(slots: seq<Vec3>, trailIndex: nat, trailCount: nat): (strip: seq<StripVertex>)
    requires |slots| == Kepler.MaxTrailLength
    ensures trailCount < 2 ==> strip == []
    ensures trailCount >= 2 ==> |strip| == trailCount
    ensures forall i :: 0 <= i < |strip| ==>
              && strip[i].slot == (trailIndex - trailCount + i) % Kepler.MaxTrailLength
              && 0 <= strip[i].slot < Kepler.MaxTrailLength
              && strip[i].pos == slots[strip[i].slot]
              && strip[i].alpha == i as real / trailCount as real
              && 0.0 <= strip[i].alpha < 1.0
  {
    if trailCount < 2 then []
    else
      var strip := seq(trailCount, i requires 0 <= i < trailCount =>
        StripVertex((trailIndex - trailCount + i) % Kepler.MaxTrailLength,
                    slots[(trailIndex - trailCount + i) % Kepler.MaxTrailLength],
                    i as real / trailCount as real));
      assert forall i :: 0 <= i < |strip| ==> 0.0 <= strip[i].alpha < 1.0 by {
        forall i | 0 <= i < |strip|
          ensures 0.0 <= strip[i].alpha < 1.0
        {
          FractionInUnit(i, trailCount);
        }
      }
      strip
  }

  /** The corrected walk draws exactly the points the trail holds, oldest
      first: the i-th vertex is the i-th live point. */
  lemma LiveTrailIsLivePoints(b: Kepler.Body)
    requires Kepler.TrailValid(b) && b.trailCount >= 2
    ensures |LiveTrail(b.slots, b.trailIndex, b.trailCount)| == |Kepler.LivePoints(b)|
    ensures forall i :: 0 <= i < b.trailCount ==>
              LiveTrail(b.slots, b.trailIndex, b.trailCount)[i].pos == Kepler.LivePoints(b)[i]
  {
  }

  /** A Keplerian body with a 300-slot ring trail. */
  class CelestialBody {
    const distance: real
    const radius: real
    const color: Vec3
    const mass: real
    const orbitalSpeed: real
    /** In radians. */
    const inclination: real
    const name: string
    const trail: array<Vec3>
    var angle: real
    var rotationAngle: real
    var x: real
    var y: real
    var z: real
    var trailIndex: nat
    var trailCount: nat
    /** Every point written to the trail so far, oldest first. */
    ghost var history: seq<Vec3>

    ghost function Snapshot(): Kepler.Body
      reads this, trail
    {
      Kepler.Body(distance, orbitalSpeed, inclination, angle, Vec3(x, y, z), rotationAngle,
                  trail[..], trailIndex, trailCount, history)
    }

    ghost predicate Valid()
      reads this, trail
    {
      Kepler.TrailValid(Snapshot())
    }

    /** `inclination` is in degrees and is stored through `math.radians`. */
    constructor (distance: real, radius: real, colorName: ColorName, mass: real,
                 speed: real, inclination: real, name: string, t: Trig)
      ensures Valid() && fresh(trail)
      ensures Snapshot() == Kepler.Fresh(distance, speed, Radians(t, inclination))
      ensures this.radius == radius && color == ColorOf(colorName)
      ensures this.mass == mass && this.name == name
    {
      this.distance := distance;
      this.radius := radius;
      color := ColorOf(colorName);
      this.mass := mass;
      orbitalSpeed := speed;
      this.inclination := Radians(t, inclination);
      this.name := name;
      angle := 0.0;
      rotationAngle := 0.0;
      x, y, z := distance, 0.0, 0.0;
      trail := new Vec3[Kepler.MaxTrailLength](_ => Origin);
      trailIndex := 0;
      trailCount := 0;
      history := [];
    }

    /** Advances the angle, recomputes the position, records it in the
        trail, then spins the body. */
    method UpdatePosition(dt: real, t: Trig)
      requires Valid()
      modifies this, trail
      ensures Valid()
      ensures Snapshot() == Kepler.Advance(old(Snapshot()), dt, t)
    {
      ghost var before := Snapshot();
      angle := angle + orbitalSpeed * dt;
      CalculatePosition(t);
      UpdateTrail();
      rotationAngle := rotationAngle + dt * 10.0;
      assert Snapshot() == Kepler.Advance(before, dt, t);
      Kepler.AdvanceKeepsTrailValid(before, dt, t);
    }

    method CalculatePosition(t: Trig)
      modifies this
      ensures Snapshot() == Kepler.Place(old(Snapshot()), t)
    {
      x := distance * t.cos(angle);
      y := distance * t.sin(angle) * t.cos(inclination);
      z := distance * t.sin(angle) * t.sin(inclination);
    }

    method UpdateTrail()
      requires trail.Length == Kepler.MaxTrailLength
      modifies this, trail
      ensures Snapshot() == Kepler.Record(old(Snapshot()))
    {
      var idx := trailIndex % Kepler.MaxTrailLength;
      trail[idx] := Vec3(x, y, z);
      trailIndex := trailIndex + 1;
      trailCount := MinNat(trailCount + 1, Kepler.MaxTrailLength);
      history := history + [Vec3(x, y, z)];
    }

    /** The vertices `_draw_trail` emits, as written. */
    method DrawTrail() returns (strip: seq<StripVertex>)
      requires Valid()
      ensures strip == DrawnTrail(trail[..], trailIndex, trailCount)
    {
      strip := [];
      if trailCount < 2 {
        return;
      }
      ghost var spec := DrawnTrail(trail[..], trailIndex, trailCount);
      for i := 0 to trailCount
        invariant strip == spec[..i]
      {
        var alpha := i as real / trailCount as real;
        var slot := (trailIndex - i) % Kepler.MaxTrailLength;
        strip := strip + [StripVertex(slot, trail[slot], alpha)];
      }
    }

    /** The corrected trail walk, oldest live point first. */
    method DrawLiveTrail() returns (strip: seq<StripVertex>)
      requires Valid()
      ensures strip == LiveTrail(trail[..], trailIndex, trailCount)
      ensures trailCount >= 2 ==> forall i :: 0 <= i < |strip| ==>
                strip[i].pos == Kepler.LivePoints(Snapshot())[i]
    {
      strip := [];
      if trailCount < 2 {
        return;
      }
      ghost var spec := LiveTrail(trail[..], trailIndex, trailCount);
      for i := 0 to trailCount
        invariant strip == spec[..i]
      {
        var alpha := i as real / trailCount as real;
        var slot := (trailIndex - trailCount + i) % Kepler.MaxTrailLength;
        strip := strip + [StripVertex(slot, trail[slot], alpha)];
      }
      LiveTrailIsLivePoints(Snapshot());
    }
  }

  /** The planets and their trail arrays. */
  ghost function Footprint(ps: seq<CelestialBody>): set<object>
  {
    (set i | 0 <= i < |ps| :: ps[i] as object) + (set i | 0 <= i < |ps| :: ps[i].trail as object)
  }

  ghost predicate AllValid(ps: seq<CelestialBody>)
    reads set i | 0 <= i < |ps| :: ps[i]
    reads set i | 0 <= i < |ps| :: ps[i].trail
  {
    forall i :: 0 <= i < |ps| ==> ps[i].Valid()
  }

  /** No two planets share an object or a trail array. */
  ghost predicate Disjoint(ps: seq<CelestialBody>)
  {
    forall i, j :: 0 <= i < j < |ps| ==> ps[i] != ps[j] && ps[i].trail != ps[j].trail
  }

  /** `b` shares no object or trail array with any planet. */
  ghost predicate Apart(b: CelestialBody, ps: seq<CelestialBody>)
  {
    forall i :: 0 <= i < |ps| ==> ps[i] != b && ps[i].trail != b.trail
  }

  /** The state of each planet, in order. */
  ghost function Snapshots(ps: seq<CelestialBody>): (r: seq<Kepler.Body>)
    reads set i | 0 <= i < |ps| :: ps[i]
    reads set i | 0 <= i < |ps| :: ps[i].trail
  {
    seq(|ps|, i reads set i | 0 <= i < |ps| :: ps[i], set i | 0 <= i < |ps| :: ps[i].trail
                 requires 0 <= i < |ps| => ps[i].Snapshot())
  }

  /** `Config.PLANET_PARAMS` as freshly constructed bodies, inclinations in
      radians. */
  function FreshTable(t: Trig): (r: seq<Kepler.Body>)
  {
    seq(|PlanetTable|, i requires 0 <= i < |PlanetTable| =>
      Kepler.Fresh(PlanetTable[i].distance, PlanetTable[i].speed, Radians(t, PlanetTable[i].inclination)))
  }

  /** `[self._create_planet(*params) for params in Config.PLANET_PARAMS]`:
      one distinct fresh body per row, in the row's order. */
  method CreatePlanets(t: Trig, sun: CelestialBody) returns (ps: seq<CelestialBody>)
    ensures |ps| == |PlanetTable|
    ensures AllValid(ps) && Disjoint(ps) && Apart(sun, ps)
    ensures forall i :: 0 <= i < |ps| ==>
              ps[i].distance == PlanetTable[i].distance && ps[i].orbitalSpeed == PlanetTable[i].speed
    ensures Snapshots(ps) == FreshTable(t)
  {
    ps := [];
    for i := 0 to |PlanetTable|
      invariant |ps| == i
      invariant forall j :: 0 <= j < i ==> fresh(ps[j]) && fresh(ps[j].trail)
      invariant AllValid(ps) && Disjoint(ps)
      invariant forall j :: 0 <= j < i ==>
                  ps[j].Snapshot() == Kepler.Fresh(PlanetTable[j].distance, PlanetTable[j].speed,
                                                   Radians(t, PlanetTable[j].inclination))
    {
      var p := PlanetTable[i];
      var body := new CelestialBody(p.distance, p.radius, p.color, p.mass, p.speed,
                                    p.inclination, p.name, t);
      ps := ps + [body];
    }
    assert Snapshots(ps) == FreshTable(t);
  }

  /** The sun and the planets of `Config.PLANET_PARAMS`. */
  class SolarSystem {
    const sun: CelestialBody
    const planets: seq<CelestialBody>
    var showOrbits: bool
    var showNames: bool

    /** Every planet keeps its trail invariant, and no two of the seven
        bodies share an object or a trail array. */
    ghost predicate Valid()
      reads set i | 0 <= i < |planets| :: planets[i]
      reads set i | 0 <= i < |planets| :: planets[i].trail
    {
      AllValid(planets) && Disjoint(planets) && Apart(sun, planets)
    }

    /** The sun stands still (speed 0) at the centre; the planets are the
        rows of `Config.PLANET_PARAMS`, freshly constructed. */
    constructor (t: Trig)
      ensures Valid()
      ensures |planets| == |PlanetTable|
      ensures forall i :: 0 <= i < |planets| ==>
                planets[i].distance == PlanetTable[i].distance && planets[i].orbitalSpeed == PlanetTable[i].speed
      ensures Snapshots(planets) == FreshTable(t)
      ensures sun.distance == 0.0 && sun.radius == 20.0 && sun.orbitalSpeed == 0.0
      ensures showOrbits && showNames
    {
      var theSun := new CelestialBody(0.0, 20.0, Yellow, 1.989e30, 0.0, 0.0, "太阳", t);
      var ps := CreatePlanets(t, theSun);
      sun := theSun;
      planets := ps;
      showOrbits := true;
      showNames := true;
    }

    /** One tick: nothing when paused; otherwise every planet advances
        exactly once by `dt`. The sun is never advanced. */
    method Update(dt: real, paused: bool, t: Trig)
      requires Valid()
      modifies Footprint(planets)
      ensures Valid()
      ensures paused ==> forall i :: 0 <= i < |planets| ==>
                planets[i].Snapshot() == old(planets[i].Snapshot())
      ensures !paused ==> forall i :: 0 <= i < |planets| ==>
                planets[i].Snapshot() == Kepler.Advance(old(planets[i].Snapshot()), dt, t)
      ensures sun.Snapshot() == old(sun.Snapshot())
    {
      if !paused {
        for i := 0 to |planets|
          invariant AllValid(planets)
          invariant forall j :: 0 <= j < i ==>
                      planets[j].Snapshot() == Kepler.Advance(old(planets[j].Snapshot()), dt, t)
          invariant forall j :: i <= j < |planets| ==> unchanged(planets[j], planets[j].trail)
          invariant unchanged(sun, sun.trail)
        {
          AdvancePlanet(i, dt, t);
        }
      }
    }

    /** `planets[i].update_position(dt)`, seen from the whole system: that
        planet advances and every other body stays as it was. */
    method AdvancePlanet(i: nat, dt: real, t: Trig)
      requires i < |planets| && AllValid(planets) && Disjoint(planets) && Apart(sun, planets)
      modifies planets[i], planets[i].trail
      ensures AllValid(planets)
      ensures planets[i].Snapshot() == Kepler.Advance(old(planets[i].Snapshot()), dt, t)
      ensures forall j :: 0 <= j < |planets| && j != i ==> unchanged(planets[j], planets[j].trail)
      ensures unchanged(sun, sun.trail)
    {
      planets[i].UpdatePosition(dt, t);
    }
  }

  /** The overlay switches. */
  class UserInterface {
    var showInfo: bool
    var showHelp: bool

    constructor ()
      ensures showInfo && !showHelp
    {
      showInfo := true;
      showHelp := false;
    }

    /** I flips the info panel, H the help screen, any other key nothing. */
    method ToggleDisplay(key: Key)
      modifies this
      ensures showInfo == (if key == KeyI then !old(showInfo) else old(showInfo))
      ensures showHelp == (if key == KeyH then !old(showHelp) else old(showHelp))
    {
      if key == KeyI {
        showInfo := !showInfo;
      } else if key == KeyH {
        showHelp := !showHelp;
      }
    }
  }

  /** Everything a KEYDOWN can change: the simulator's `dt` and `paused`,
      the solar system's switches, the interface's switches and the camera. */
  datatype Controls = Controls(
    dt: real, paused: bool, showOrbits: bool, showNames: bool,
    showInfo: bool, showHelp: bool, camera: CameraState)

  /** SPACE and the four speed keys: the keys the simulator itself handles. */
  predicate IsClockKey(key: Key)
  {
    key in {KeySpace, KeyPlus, KeyKpPlus, KeyMinus, KeyKpMinus}
  }

  /** SPACE toggles the pause; `+` multiplies the time step by 1.2 and `-`
      divides it by 1.2. */
  function ClockKey(c: Controls, key: Key): (r: Controls)
    requires IsClockKey(key)
    ensures key == KeySpace ==> r == c.(paused := !c.paused)
    ensures key in {KeyPlus, KeyKpPlus} ==> r == c.(dt := c.dt * 1.2)
    ensures key in {KeyMinus, KeyKpMinus} ==> r == c.(dt := c.dt / 1.2)
  {
    if key == KeySpace then c.(paused := !c.paused)
    else if key == KeyPlus || key == KeyKpPlus then c.(dt := c.dt * 1.2)
    else c.(dt := c.dt / 1.2)
  }

  /** `toggle_display`: I flips the info panel, H the help screen, any
      other key changes nothing. */
  function DisplayKey(c: Controls, key: Key): (r: Controls)
    ensures key == KeyI ==> r == c.(showInfo := !c.showInfo)
    ensures key == KeyH ==> r == c.(showHelp := !c.showHelp)
    ensures key != KeyI && key != KeyH ==> r == c
  {
    if key == KeyI then c.(showInfo := !c.showInfo)
    else if key == KeyH then c.(showHelp := !c.showHelp)
    else c
  }

  /** `_handle_keydown`. The second component says whether a QUIT event was
      posted (ESC). O and N flip the solar system's orbit and name switches,
      R resets the camera and touches nothing else; any key not listed goes
      to `toggle_display`. */
  function OnKeyDown(c: Controls, key: Key): (r: (Controls, bool))
    ensures r.1 <==> key == KeyEscape
    ensures key == KeyEscape ==> r.0 == c
    ensures key == KeySpace ==> r.0 == c.(paused := !c.paused)
    ensures key in {KeyPlus, KeyKpPlus} ==> r.0 == c.(dt := c.dt * 1.2)
    ensures key in {KeyMinus, KeyKpMinus} ==> r.0 == c.(dt := c.dt / 1.2)
    ensures key == KeyO ==> r.0 == c.(showOrbits := !c.showOrbits)
    ensures key == KeyN ==> r.0 == c.(showNames := !c.showNames)
    ensures key == KeyR ==> r.0 == c.(camera := Default)
    ensures key == KeyI ==> r.0 == c.(showInfo := !c.showInfo)
    ensures key == KeyH ==> r.0 == c.(showHelp := !c.showHelp)
    ensures key !in {KeySpace, KeyPlus, KeyKpPlus, KeyMinus, KeyKpMinus, KeyO, KeyN, KeyR, KeyI, KeyH} ==>
              r.0 == c
  {
    if key == KeyEscape then (c, true)
    else if IsClockKey(key) then (ClockKey(c, key), false)
    else if key == KeyO then (c.(showOrbits := !c.showOrbits), false)
    else if key == KeyN then (c.(showNames := !c.showNames), false)
    else if key == KeyR then (c.(camera := Default), false)
    else (DisplayKey(c, key), false)
  }

  /** Over the reals, `+` followed by `-` restores the time step exactly. */
  lemma SpeedUpThenDown(c: Controls)
    ensures OnKeyDown(OnKeyDown(c, KeyPlus).0, KeyMinus).0 == c
  {
  }

  /** The KEYDOWNs of one frame's events, in order, up to the first QUIT.
      The result is the new controls, whether no QUIT was met, and whether
      ESC posted one. */
  function PumpKeys(c: Controls, events: seq<Event>): (r: (Controls, bool, bool))
    ensures r.1 <==> forall i :: 0 <= i < |events| ==> !events[i].Quit?
    decreases |events|
  {
    if events == [] then (c, true, false)
    else
      assert forall i :: 1 <= i < |events| ==> events[i] == events[1..][i - 1];
      match events[0]
      case Quit => (c, false, false)
      case KeyDown(key) =>
        var step := OnKeyDown(c, key);
        var rest := PumpKeys(step.0, events[1..]);
        (rest.0, rest.1, step.1 || rest.2)
      case _ => PumpKeys(c, events[1..])
  }

  /** `_handle_events` on one frame: the KEYDOWNs are handled up to the first
      QUIT, which stops the frame at once; without a QUIT the camera then
      runs `handle_input` over all of the frame's events. */
  function Frame(c: Controls, keys: Keys, events: seq<Event>): (r: (Controls, bool, bool))
    ensures r.1 == PumpKeys(c, events).1 && r.2 == PumpKeys(c, events).2
    ensures !r.1 ==> r.0 == PumpKeys(c, events).0
    ensures r.1 ==> r.0 == PumpKeys(c, events).0.(
              camera := ReplayMouse(KeyboardStep(PumpKeys(c, events).0.camera, keys), events))
  {
    var p := PumpKeys(c, events);
    if p.1 then (p.0.(camera := ReplayMouse(KeyboardStep(p.0.camera, keys), events)), true, p.2)
    else p
  }

  /** Without a QUIT, no frame moves the camera's position: the keyboard
      step never does, and neither does any mouse event. */
  lemma {:induction false} FrameKeepsPosition(c: Controls, keys: Keys, events: seq<Event>)
    requires forall i :: 0 <= i < |events| ==> !events[i].Quit? && events[i] != KeyDown(KeyR)
    ensures Frame(c, keys, events).1
    ensures Frame(c, keys, events).0.camera.position == c.camera.position
    decreases |events|
  {
    PumpKeysKeepsCamera(c, events);
  }

  lemma {:induction false} PumpKeysKeepsCamera(c: Controls, events: seq<Event>)
    requires forall i :: 0 <= i < |events| ==> !events[i].Quit? && events[i] != KeyDown(KeyR)
    ensures PumpKeys(c, events).0.camera == c.camera
    decreases |events|
  {
    if events != [] {
      var c1 := if events[0].KeyDown? then OnKeyDown(c, events[0].key).0 else c;
      PumpKeysKeepsCamera(c1, events[1..]);
    }
  }

  /** The program object: owns the camera, the solar system, the interface,
      the time step and the pause flag. */
  class Simulator {
    const camera: Camera
    const solarSystem: SolarSystem
    const ui: UserInterface
    var dt: real
    var paused: bool

    function View(): Controls
      reads this, camera, solarSystem, ui
    {
      Controls(dt, paused, solarSystem.showOrbits, solarSystem.showNames,
               ui.showInfo, ui.showHelp, camera.State())
    }

    ghost predicate Valid()
      reads set i | 0 <= i < |solarSystem.planets| :: solarSystem.planets[i]
      reads set i | 0 <= i < |solarSystem.planets| :: solarSystem.planets[i].trail
    {
      solarSystem.Valid()
    }

    constructor (t: Trig)
      ensures Valid()
      ensures View() == Controls(1.0, false, true, true, true, false, Default)
      ensures |solarSystem.planets| == |PlanetTable|
      ensures forall i :: 0 <= i < |solarSystem.planets| ==>
                solarSystem.planets[i].distance == PlanetTable[i].distance
                && solarSystem.planets[i].orbitalSpeed == PlanetTable[i].speed
      ensures Snapshots(solarSystem.planets) == FreshTable(t)
    {
      var c := new Camera();
      var s := new SolarSystem(t);
      var u := new UserInterface();
      camera, solarSystem, ui := c, s, u;
      dt := 1.0;
      paused := false;
    }

    /** `_handle_keydown`; returns whether ESC posted a QUIT. */
    method HandleKeydown(key: Key) returns (quitPosted: bool)
      modifies this, camera, solarSystem, ui
      ensures (View(), quitPosted) == OnKeyDown(old(View()), key)
      ensures unchanged(Footprint(solarSystem.planets))
    {
      quitPosted := key == KeyEscape;
      if IsClockKey(key) {
        AdjustClock(key);
      } else if key == KeyO {
        solarSystem.showOrbits := !solarSystem.showOrbits;
      } else if key == KeyN {
        solarSystem.showNames := !solarSystem.showNames;
      } else if key == KeyR {
        camera.Reset();
      } else if key != KeyEscape {
        ui.ToggleDisplay(key);
      }
    }

    /** The keys `_handle_keydown` handles on the simulator's own fields. */
    method AdjustClock(key: Key)
      requires IsClockKey(key)
      modifies this
      ensures View() == ClockKey(old(View()), key)
    {
      if key == KeySpace {
        paused := !paused;
      } else if key == KeyPlus || key == KeyKpPlus {
        dt := dt * 1.2;
      } else {
        dt := dt / 1.2;
      }
    }

    /** `_handle_events` on one frame's events and held keys; returns whether
        the program keeps running and whether ESC posted a QUIT, which the
        next frame's events will carry. */
    method HandleEvents(keys: Keys, events: seq<Event>) returns (running: bool, quitPosted: bool)
      requires Valid()
      modifies this, camera, solarSystem, ui
      ensures Valid()
      ensures (View(), running, quitPosted) == Frame(old(View()), keys, events)
    {
      running, quitPosted := PumpEvents(events);
      if running {
        camera.HandleInput(keys, events);
      }
    }

    /** The event loop of `_handle_events`: KEYDOWNs are handled in order
        and the first QUIT returns at once. */
    method PumpEvents(events: seq<Event>) returns (running: bool, quitPosted: bool)
      modifies this, camera, solarSystem, ui
      ensures (View(), running, quitPosted) == PumpKeys(old(View()), events)
      ensures unchanged(Footprint(solarSystem.planets))
    {
      quitPosted := false;
      for i := 0 to |events|
        invariant unchanged(Footprint(solarSystem.planets))
        invariant PumpKeys(old(View()), events) ==
                  (PumpKeys(View(), events[i..]).0, PumpKeys(View(), events[i..]).1,
                   quitPosted || PumpKeys(View(), events[i..]).2)
      {
        assert events[i..][1..] == events[i + 1..];
        if events[i].Quit? {
          return false, quitPosted;
        }
        if events[i].KeyDown? {
          var posted := HandleKeydown(events[i].key);
          quitPosted := quitPosted || posted;
        }
      }
      running := true;
    }

    /** `_update`: the solar system's tick with the current step and pause flag. */
    method Update(t: Trig)
      requires Valid()
      modifies Footprint(solarSystem.planets)
      ensures Valid()
      ensures paused ==> forall i :: 0 <= i < |solarSystem.planets| ==>
                solarSystem.planets[i].Snapshot() == old(solarSystem.planets[i].Snapshot())
      ensures !paused ==> forall i :: 0 <= i < |solarSystem.planets| ==>
                solarSystem.planets[i].Snapshot() == Kepler.Advance(old(solarSystem.planets[i].Snapshot()), dt, t)
      ensures solarSystem.sun.Snapshot() == old(solarSystem.sun.Snapshot())
    {
      solarSystem.Update(dt, paused, t);
    }
  }

  /** Where `_draw_name` puts a body's name, given the window coordinates
      `gluProject` returned: only inside the window (no depth test), at the
      projected x and 30 pixels above the projected point. */
  function NameAt(win: Option<Vec3>): (r: Option<(real, real)>)
    ensures r.Some? <==>
              win.Some? && 0.0 <= win.value.x <= Width as real && 0.0 <= win.value.y <= Height as real
    ensures r.Some? ==> r.value.0 == win.value.x && r.value.1 == Height as real - win.value.y - 30.0
  {
    match win
    case None => None
    case Some(p) =>
      if 0.0 <= p.x <= Width as real && 0.0 <= p.y <= Height as real then
        Some((p.x, Height as real - p.y - 30.0))
      else
        None
  }
}
