/** The enhanced 3D solar system: a camera driven by drag, wheel and held
    keys, six Keplerian planets around a fixed sun, each leaving a 300-point
    ring trail, and on-screen name labels. */
module DetailedSolarSystem {
  import opened Common
  import Kepler
  import opened OrbitCamera

  const Width := 1000
  const Height := 800

  const Yellow := Vec3(1.0, 1.0, 0.0)
  const Blue := Vec3(0.1, 0.4, 0.9)
  const Red := Vec3(0.9, 0.2, 0.2)
  const Orange := Vec3(1.0, 0.65, 0.0)
  const Grey := Vec3(0.6, 0.6, 0.6)
  const SaturnColor := Vec3(0.9, 0.8, 0.5)
  const JupiterColor := Vec3(0.9, 0.7, 0.4)

  /** The viewer: offset, pitch/yaw/roll, zoom and the drag state. */
  class Camera {
    var position: Vec3
    var rotation: Vec3
    var zoomLevel: real
    var dragging: bool
    var lastMousePos: Point

    function State(): CameraState
      reads this
    {
      CameraState(position, rotation, zoomLevel, dragging, lastMousePos)
    }

    constructor ()
      ensures State() == Default
    {
      position := Vec3(0.0, 0.0, -600.0);
      rotation := Vec3(30.0, 0.0, 0.0);
      zoomLevel := 1.0;
      dragging := false;
      lastMousePos := Point(0, 0);
    }

    method Rotate(x: real, y: real, z: real)
      modifies this
      ensures State() == OrbitCamera.Rotate(old(State()), x, y, z)
    {
      rotation := Vec3(rotation.x + x, rotation.y + y, rotation.z + z);
    }

    method Zoom(amount: real)
      modifies this
      ensures State() == OrbitCamera.Zoom(old(State()), amount)
    {
      zoomLevel := Max(0.1, Min(3.0, zoomLevel + amount));
    }

    method StartDrag(mousePos: Point)
      modifies this
      ensures State() == OrbitCamera.StartDrag(old(State()), mousePos)
    {
      dragging := true;
      lastMousePos := mousePos;
    }

    method EndDrag()
      modifies this
      ensures State() == OrbitCamera.EndDrag(old(State()))
    {
      dragging := false;
    }

    method Drag(mousePos: Point)
      modifies this
      ensures State() == OrbitCamera.Drag(old(State()), mousePos)
    {
      if dragging {
        var dx := mousePos.x - lastMousePos.x;
        var dy := mousePos.y - lastMousePos.y;
        Rotate(dy as real * 0.1, dx as real * 0.1, 0.0);
        lastMousePos := mousePos;
      }
    }
  }

  /** The mouse events of the main loop, forwarded to the camera. */
  method DispatchMouseEvent(camera: Camera, e: Event)
    modifies camera
    ensures camera.State() == OnMouseEvent(old(camera.State()), e)
  {
    match e
    case MouseButtonDown(button, pos) =>
      if button == 4 {
        camera.Zoom(0.1);
      } else if button == 5 {
        camera.Zoom(-0.1);
      } else if button == 1 {
        camera.StartDrag(pos);
      }
    case MouseButtonUp(button, _) =>
      if button == 1 {
        camera.EndDrag();
      }
    case MouseMotion(pos) =>
      camera.Drag(pos);
    case _ =>
  }

  /** The held-key step of the main loop, once per frame: LEFT/RIGHT turn yaw
      by -1/+1, UP/DOWN with a Ctrl key turn pitch by -1/+1 and without one
      move the camera 5 units along z (+5 for UP, -5 for DOWN), Q/E turn roll
      by +1/-1. Zoom and drag state never change. */
  function HeldKeysStep(s: CameraState, k: Keys): (r: CameraState)
    ensures r.zoomLevel == s.zoomLevel && r.dragging == s.dragging
    ensures r.lastMousePos == s.lastMousePos
    ensures r.rotation.y == s.rotation.y - Flag(k.left) + Flag(k.right)
    ensures r.rotation.x == s.rotation.x - Flag(k.up && (k.lctrl || k.rctrl))
                                         + Flag(k.down && (k.lctrl || k.rctrl))
    ensures r.rotation.z == s.rotation.z + Flag(k.q) - Flag(k.e)
    ensures r.position.x == s.position.x && r.position.y == s.position.y
    ensures r.position.z == s.position.z + 5.0 * Flag(k.up && !(k.lctrl || k.rctrl))
                                         - 5.0 * Flag(k.down && !(k.lctrl || k.rctrl))
  {
    RollKeys(UpDownKeys(YawKeys(s, k), k), k)
  }

  /** UP, then DOWN: a pitch turn with Ctrl held, a move along z without. */
  function UpDownKeys(s: CameraState, k: Keys): (r: CameraState)
    ensures r == s.(rotation := s.rotation.(x := s.rotation.x - Flag(k.up && (k.lctrl || k.rctrl))
                                                              + Flag(k.down && (k.lctrl || k.rctrl))),
                    position := s.position.(z := s.position.z + 5.0 * Flag(k.up && !(k.lctrl || k.rctrl))
                                                              - 5.0 * Flag(k.down && !(k.lctrl || k.rctrl))))
  {
    var ctrl := k.lctrl || k.rctrl;
    var s1 := if k.up && ctrl then OrbitCamera.Rotate(s, -1.0, 0.0, 0.0)
              else if k.up then s.(position := s.position.(z := s.position.z + 5.0))
              else s;
    if k.down && ctrl then OrbitCamera.Rotate(s1, 1.0, 0.0, 0.0)
    else if k.down then s1.(position := s1.position.(z := s1.position.z - 5.0))
    else s1
  }

  /** Q, then E. */
  function RollKeys(s: CameraState, k: Keys): (r: CameraState)
    ensures r == s.(rotation := s.rotation.(z := s.rotation.z + Flag(k.q) - Flag(k.e)))
  {
    var s1 := if k.q then OrbitCamera.Rotate(s, 0.0, 0.0, 1.0) else s;
    if k.e then OrbitCamera.Rotate(s1, 0.0, 0.0, -1.0) else s1
  }

  /** The held-key block of the main loop, applied to the camera object. */
  method ApplyHeldKeys(camera: Camera, k: Keys)
    modifies camera
    ensures camera.State() == HeldKeysStep(old(camera.State()), k)
  {
    ApplyYawKeys(camera, k);
    ApplyUpDownKeys(camera, k);
    ApplyRollKeys(camera, k);
  }

  method ApplyYawKeys(camera: Camera, k: Keys)
    modifies camera
    ensures camera.State() == YawKeys(old(camera.State()), k)
  {
    if k.left {
      camera.Rotate(0.0, -1.0, 0.0);
    }
    if k.right {
      camera.Rotate(0.0, 1.0, 0.0);
    }
  }

  method ApplyUpDownKeys(camera: Camera, k: Keys)
    modifies camera
    ensures camera.State() == UpDownKeys(old(camera.State()), k)
  {
    if k.up && (k.lctrl || k.rctrl) {
      camera.Rotate(-1.0, 0.0, 0.0);
    } else if k.up {
      camera.position := camera.position.(z := camera.position.z + 5.0);
    }
    if k.down && (k.lctrl || k.rctrl) {
      camera.Rotate(1.0, 0.0, 0.0);
    } else if k.down {
      camera.position := camera.position.(z := camera.position.z - 5.0);
    }
  }

  method ApplyRollKeys(camera: Camera, k: Keys)
    modifies camera
    ensures camera.State() == RollKeys(old(camera.State()), k)
  {
    if k.q {
      camera.Rotate(0.0, 0.0, 1.0);
    }
    if k.e {
      camera.Rotate(0.0, 0.0, -1.0);
    }
  }

  /** Everything the main loop's KEYDOWN branch changes: the loop's own
      variables `dt`, `paused`, `show_info` and `show_help`, and the solar
      system's two switches `show_orbits` and `show_names`, which live on
      the `SolarSystem` object (`RunLoopFrame` flips them there). */
  datatype Controls = Controls(
    dt: real, paused: bool, showInfo: bool, showHelp: bool,
    showOrbits: bool, showNames: bool)

  /** The main loop's KEYDOWN branch. The second component says whether the
      camera is replaced by a fresh `Camera()` (the R key). */
  function OnKeyDown(c: Controls, key: Key): (r: (Controls, bool))
    ensures r.1 <==> key == KeyR
    ensures key == KeySpace ==> r.0 == c.(paused := !c.paused)
    ensures key == KeyI ==> r.0 == c.(showInfo := !c.showInfo)
    ensures key == KeyO ==> r.0 == c.(showOrbits := !c.showOrbits)
    ensures key == KeyN ==> r.0 == c.(showNames := !c.showNames)
    ensures key == KeyH ==> r.0 == c.(showHelp := !c.showHelp)
    ensures key in {KeyPlus, KeyKpPlus} ==> r.0 == c.(dt := c.dt * 1.2)
    ensures key in {KeyMinus, KeyKpMinus} ==> r.0 == c.(dt := c.dt / 1.2)
    ensures key !in {KeySpace, KeyI, KeyO, KeyN, KeyH, KeyPlus, KeyKpPlus, KeyMinus, KeyKpMinus} ==> r.0 == c
  {
    if key == KeySpace then (c.(paused := !c.paused), false)
    else if key == KeyI then (c.(showInfo := !c.showInfo), false)
    else if key == KeyO then (c.(showOrbits := !c.showOrbits), false)
    else if key == KeyN then (c.(showNames := !c.showNames), false)
    else if key == KeyH then (c.(showHelp := !c.showHelp), false)
    else if key == KeyR then (c, true)
    else if key == KeyPlus || key == KeyKpPlus then (c.(dt := c.dt * 1.2), false)
    else if key == KeyMinus || key == KeyKpMinus then (c.(dt := c.dt / 1.2), false)
    else (c, false)
  }

  /** What one pass of the main loop's event handling reads and writes: the
      loop's own variables, the camera and the `running` flag. */
  datatype LoopState = LoopState(controls: Controls, camera: CameraState, running: bool)

  /** One event of the main loop: QUIT clears `running` and nothing else,
      a KEYDOWN goes to the KEYDOWN branch (R replacing the camera by a new
      default one), and every other event goes to the mouse dispatch. */
  function OnLoopEvent(l: LoopState, e: Event): (r: LoopState)
    ensures e.Quit? ==> r == l.(running := false)
    ensures e.KeyDown? ==> r.running == l.running && r.controls == OnKeyDown(l.controls, e.key).0
    ensures e.KeyDown? ==> r.camera == (if e.key == KeyR then Default else l.camera)
    ensures !e.Quit? && !e.KeyDown? ==> r == l.(camera := OnMouseEvent(l.camera, e))
  {
    match e
    case Quit => l.(running := false)
    case KeyDown(key) =>
      var k := OnKeyDown(l.controls, key);
      l.(controls := k.0, camera := if k.1 then Default else l.camera)
    case _ => l.(camera := OnMouseEvent(l.camera, e))
  }

  /** One frame of the main loop's input handling: every event in order
      (a QUIT does not stop the rest from being handled), then the held-key
      step on whichever camera is current. No frame takes the zoom level out
      of [0.1, 3.0] once it is in range: the mouse dispatch keeps it, a reset
      restores 1.0, held keys leave it. */
  function LoopFrame(l: LoopState, events: seq<Event>, k: Keys): (r: LoopState)
    ensures ZoomInRange(l.camera) ==> ZoomInRange(r.camera)
    decreases |events|
  {
    if events == [] then l.(camera := HeldKeysStep(l.camera, k))
    else LoopFrame(OnLoopEvent(l, events[0]), events[1..], k)
  }

  /** The loop keeps running after a frame exactly when it was running and
      the frame held no QUIT. */
  lemma {:induction false} LoopFrameRunning(l: LoopState, events: seq<Event>, k: Keys)
    ensures LoopFrame(l, events, k).running <==>
              l.running && forall i :: 0 <= i < |events| ==> !events[i].Quit?
    decreases |events|
  {
    if events != [] {
      LoopFrameRunning(OnLoopEvent(l, events[0]), events[1..], k);
      if !events[0].Quit? {
        assert forall i :: 1 <= i < |events| ==> events[i] == events[1..][i - 1];
      }
    }
  }

  /** The KEYDOWN branch on the loop's variables and the solar system's
      switches: O and N flip `show_orbits` and `show_names` on `system`, the
      other keys change the loop's variables; `reset` is set for R. */
  method HandleKeyDown(system: SolarSystem, key: Key, dt: real, paused: bool, showInfo: bool, showHelp: bool)
    returns (dt': real, paused': bool, showInfo': bool, showHelp': bool, reset: bool)
    modifies system
    ensures (Controls(dt', paused', showInfo', showHelp', system.showOrbits, system.showNames), reset) ==
            OnKeyDown(Controls(dt, paused, showInfo, showHelp, old(system.showOrbits), old(system.showNames)), key)
  {
    dt', paused', showInfo', showHelp', reset := dt, paused, showInfo, showHelp, false;
    if key == KeySpace {
      paused' := !paused;
    } else if key == KeyI {
      showInfo' := !showInfo;
    } else if key == KeyO {
      system.showOrbits := !system.showOrbits;
    } else if key == KeyN {
      system.showNames := !system.showNames;
    } else if key == KeyH {
      showHelp' := !showHelp;
    } else if key == KeyR {
      reset := true;
    } else if key == KeyPlus || key == KeyKpPlus {
      dt' := dt * 1.2;
    } else if key == KeyMinus || key == KeyKpMinus {
      dt' := dt / 1.2;
    }
  }

  /** One event of the main loop on the camera object, the solar system's
      switches and the loop's variables; R binds a new `Camera()`, so the
      camera in use afterwards is returned. */
  method HandleLoopEvent(camera: Camera, system: SolarSystem, e: Event,
                         dt: real, paused: bool, showInfo: bool, showHelp: bool, running: bool)
    returns (current: Camera, dt': real, paused': bool, showInfo': bool, showHelp': bool, running': bool)
    modifies camera, system
    ensures current == camera || fresh(current)
    ensures LoopState(Controls(dt', paused', showInfo', showHelp', system.showOrbits, system.showNames),
                      current.State(), running') ==
            OnLoopEvent(LoopState(Controls(dt, paused, showInfo, showHelp, old(system.showOrbits), old(system.showNames)),
                                  old(camera.State()), running), e)
  {
    current, running' := camera, running;
    dt', paused', showInfo', showHelp' := dt, paused, showInfo, showHelp;
    match e {
      case Quit =>
        running' := false;
      case KeyDown(key) =>
        var reset;
        dt', paused', showInfo', showHelp', reset := HandleKeyDown(system, key, dt, paused, showInfo, showHelp);
        if reset {
          current := new Camera();
        }
      case _ =>
        DispatchMouseEvent(camera, e);
    }
  }

  /** The main loop's input handling for one frame, on the camera object,
      the solar system's switches and the loop's variables. R binds a new
      `Camera()`, so the camera in use afterwards is returned. */
  method RunLoopFrame(camera: Camera, system: SolarSystem, dt: real, paused: bool, showInfo: bool, showHelp: bool,
                      events: seq<Event>, k: Keys)
    returns (current: Camera, dt': real, paused': bool, showInfo': bool, showHelp': bool, running: bool)
    modifies camera, system
    ensures current == camera || fresh(current)
    ensures LoopState(Controls(dt', paused', showInfo', showHelp', system.showOrbits, system.showNames),
                      current.State(), running) ==
            LoopFrame(LoopState(Controls(dt, paused, showInfo, showHelp, old(system.showOrbits), old(system.showNames)),
                                old(camera.State()), true), events, k)
  {
    current, running := camera, true;
    dt', paused', showInfo', showHelp' := dt, paused, showInfo, showHelp;
    for i := 0 to |events|
      invariant current == camera || fresh(current)
      invariant LoopFrame(LoopState(Controls(dt, paused, showInfo, showHelp, old(system.showOrbits), old(system.showNames)),
                                    old(camera.State()), true), events, k) ==
                LoopFrame(LoopState(Controls(dt', paused', showInfo', showHelp', system.showOrbits, system.showNames),
                                    current.State(), running), events[i..], k)
    {
      assert events[i..][1..] == events[i + 1..];
      current, dt', paused', showInfo', showHelp', running :=
        HandleLoopEvent(current, system, events[i], dt', paused', showInfo', showHelp', running);
    }
    ApplyHeldKeys(current, k);
  }

  /** A Keplerian body with a 300-slot ring trail. */
  class CelestialBody {
    const distance: real
    const radius: real
    const color: Vec3
    const mass: real
    const orbitalSpeed: real
    /** In radians. */
    const inclination: real
    const name: string
    const trail: array<Vec3>
    const maxTrailLength: nat
    var angle: real
    var x: real
    var y: real
    var z: real
    var trailIndex: nat
    var trailCount: nat
    var rotationAngle: real
    /** Every point written to the trail so far, oldest first. */
    ghost var history: seq<Vec3>

    ghost function Snapshot(): Kepler.Body
      reads this, trail
    {
      Kepler.Body(distance, orbitalSpeed, inclination, angle, Vec3(x, y, z), rotationAngle,
                  trail[..], trailIndex, trailCount, history)
    }

    ghost predicate Valid()
      reads this, trail
    {
      && maxTrailLength == Kepler.MaxTrailLength
      && Kepler.TrailValid(Snapshot())
    }

    /** `inclinationDeg` is in degrees and is stored converted to radians. */
    constructor (distanceFromSun: real, radius: real, color: Vec3, mass: real,
                 orbitalSpeed: real, inclinationDeg: real, name: string, t: Trig)
      ensures Valid() && fresh(trail)
      ensures Snapshot() == Kepler.Fresh(distanceFromSun, orbitalSpeed, Radians(t, inclinationDeg))
      ensures this.radius == radius && this.color == color && this.mass == mass && this.name == name
    {
      distance := distanceFromSun;
      this.radius := radius;
      this.color := color;
      this.mass := mass;
      this.orbitalSpeed := orbitalSpeed;
      inclination := inclinationDeg * t.pi / 180.0;
      angle := 0.0;
      this.name := name;
      x, y, z := distanceFromSun, 0.0, 0.0;
      trail := new Vec3[Kepler.MaxTrailLength](_ => Origin);
      trailIndex := 0;
      trailCount := 0;
      maxTrailLength := Kepler.MaxTrailLength;
      rotationAngle := 0.0;
      history := [];
    }

    /** Advances the orbit angle by `orbital_speed * dt`, recomputes the
        position, and writes it into trail slot `trail_index % 300`. */
    method UpdatePosition(dt: real, t: Trig)
      requires Valid()
      modifies this, trail
      ensures Valid()
      ensures Snapshot() == Kepler.Advance(old(Snapshot()), dt, t)
    {
      ghost var before := Snapshot();
      angle := angle + orbitalSpeed * dt;
      var p := OrbitPoint(t, distance, inclination, angle);
      x, y, z := p.x, p.y, p.z;
      rotationAngle := rotationAngle + dt * 10.0;
      ghost var placed := Snapshot();
      assert placed == Kepler.Place(before.(angle := before.angle + orbitalSpeed * dt), t).(
                         rotationAngle := before.rotationAngle + dt * 10.0);
      RecordTrail();
      Kepler.RecordSpin(Kepler.Place(before.(angle := before.angle + orbitalSpeed * dt), t),
                        before.rotationAngle + dt * 10.0);
      assert Snapshot() == Kepler.Advance(before, dt, t);
      Kepler.AdvanceKeepsTrailValid(before, dt, t);
    }

    /** The trail half of `update_position`: the current position goes into
        slot `trail_index % max_trail_length`, then the index and the live
        count move on. */
    method RecordTrail()
      requires maxTrailLength == trail.Length == Kepler.MaxTrailLength
      modifies this, trail
      ensures Snapshot() == Kepler.Record(old(Snapshot()))
      ensures maxTrailLength == Kepler.MaxTrailLength
    {
      var idx := trailIndex % maxTrailLength;
      trail[idx] := Vec3(x, y, z);
      trailIndex := trailIndex + 1;
      trailCount := MinNat(trailCount + 1, maxTrailLength);
      history := history + [Vec3(x, y, z)];
    }
  }

  /** The largest of a non-empty list, as Python's `max`. */
  function MaxOf(ds: seq<real>): (m: real)
    requires |ds| > 0
    ensures exists i :: 0 <= i < |ds| && ds[i] == m
    ensures forall i :: 0 <= i < |ds| ==> ds[i] <= m
  {
    if |ds| == 1 then ds[0] else Max(ds[0], MaxOf(ds[1..]))
  }

  /** The camera depth that fits the farthest orbit: 1.5 times the largest
      orbit radius, negated. */
  function RecommendedCameraDistance(distances: seq<real>): (r: real)
    requires |distances| > 0
    ensures forall i :: 0 <= i < |distances| ==> r <= -1.5 * distances[i]
    ensures exists i :: 0 <= i < |distances| && r == -1.5 * distances[i]
  {
    -MaxOf(distances) * 1.5
  }

  /** The constructor arguments of one planet (inclination in degrees). */
  datatype PlanetParams = PlanetParams(
    distance: real, radius: real, color: Vec3, mass: real,
    orbitalSpeed: real, inclination: real, name: string)

  /** The six planets `SolarSystem()` creates, innermost first. */
  const Roster: seq<PlanetParams> := [
    PlanetParams(70.0, 3.0, Grey, 3.3e23, 0.02, 7.0, "水星"),
    PlanetParams(100.0, 6.0, Orange, 4.87e24, 0.015, 3.4, "金星"),
    PlanetParams(150.0, 7.0, Blue, 5.97e24, 0.01, 0.0, "地球"),
    PlanetParams(200.0, 5.0, Red, 6.42e23, 0.008, 1.8, "火星"),
    PlanetParams(280.0, 15.0, JupiterColor, 1.898e27, 0.004, 1.3, "木星"),
    PlanetParams(400.0, 12.0, SaturnColor, 5.683e26, 0.003, 2.5, "土星")]

  /** The orbit radii of the roster. */
  function RosterDistances(): (ds: seq<real>)
    ensures |ds| == |Roster| && forall i :: 0 <= i < |Roster| ==> ds[i] == Roster[i].distance
  {
    seq(|Roster|, i requires 0 <= i < |Roster| => Roster[i].distance)
  }

  /** For the fixed roster the farthest planet is Saturn at 400, so the
      recommended camera distance is -600. */
  lemma RosterCameraDistance()
    ensures RecommendedCameraDistance(RosterDistances()) == -600.0
  {
    var ds := RosterDistances();
    assert ds == [70.0, 100.0, 150.0, 200.0, 280.0, 400.0];
    assert MaxOf(ds[5..]) == 400.0;
    assert MaxOf(ds[4..]) == 400.0;
    assert MaxOf(ds[3..]) == 400.0;
    assert MaxOf(ds[2..]) == 400.0;
    assert MaxOf(ds[1..]) == 400.0;
  }

  function Distances(bodies: seq<CelestialBody>): (ds: seq<real>)
    ensures |ds| == |bodies| && forall i :: 0 <= i < |bodies| ==> ds[i] == bodies[i].distance
  {
    seq(|bodies|, i requires 0 <= i < |bodies| => bodies[i].distance)
  }

  /** The planets of the roster, freshly constructed. */
  method NewPlanets(t: Trig, sun: CelestialBody) returns (ps: seq<CelestialBody>)
    ensures |ps| == |Roster|
    ensures AllValid(ps) && Disjoint(ps) && Apart(sun, ps)
    ensures Snapshots(ps) == FreshRoster(t)
    ensures Distances(ps) == RosterDistances()
    ensures RecommendedCameraDistance(Distances(ps)) == -600.0
  {
    ps := [];
    for i := 0 to |Roster|
      invariant |ps| == i
      invariant forall j :: 0 <= j < i ==> fresh(ps[j]) && fresh(ps[j].trail)
      invariant AllValid(ps) && Disjoint(ps)
      invariant forall j :: 0 <= j < i ==>
                  ps[j].Snapshot() == Kepler.Fresh(Roster[j].distance, Roster[j].orbitalSpeed,
                                                   Radians(t, Roster[j].inclination))
    {
      var p := Roster[i];
      var body := new CelestialBody(p.distance, p.radius, p.color, p.mass, p.orbitalSpeed,
                                    p.inclination, p.name, t);
      ps := ps + [body];
    }
    assert Distances(ps) == RosterDistances();
    assert Snapshots(ps) == FreshRoster(t);
    RosterCameraDistance();
  }

  /** The sun, the planets and the camera distance that fits them. */
  method NewBodies(t: Trig) returns (sun: CelestialBody, ps: seq<CelestialBody>, fit: real)
    ensures AllValid(ps) && Disjoint(ps) && Apart(sun, ps)
    ensures Distances(ps) == RosterDistances()
    ensures Snapshots(ps) == FreshRoster(t)
    ensures sun.distance == 0.0 && sun.radius == 20.0 && sun.orbitalSpeed == 1.0
    ensures fit == RecommendedCameraDistance(Distances(ps)) == -600.0
  {
    sun := NewSun(t);
    ps := NewPlanets(t, sun);
    fit := RecommendedCameraDistance(Distances(ps));
  }

  /** The sun: at the centre, radius 20, spin rate 1.0. */
  method NewSun(t: Trig) returns (sun: CelestialBody)
    ensures sun.Valid() && sun.distance == 0.0 && sun.radius == 20.0 && sun.orbitalSpeed == 1.0
  {
    sun := new CelestialBody(0.0, 20.0, Yellow, 1.989e30, 1.0, 0.0, "太阳", t);
  }

  /** The planets and their trail arrays. */
  ghost function Footprint(ps: seq<CelestialBody>): set<object>
  {
    (set i | 0 <= i < |ps| :: ps[i] as object) + (set i | 0 <= i < |ps| :: ps[i].trail as object)
  }

  /** The state of each planet, in order. */
  ghost function Snapshots(ps: seq<CelestialBody>): (r: seq<Kepler.Body>)
    reads set i | 0 <= i < |ps| :: ps[i]
    reads set i | 0 <= i < |ps| :: ps[i].trail
  {
    seq(|ps|, i reads set i | 0 <= i < |ps| :: ps[i], set i | 0 <= i < |ps| :: ps[i].trail
                 requires 0 <= i < |ps| => ps[i].Snapshot())
  }

  /** The roster as freshly constructed bodies, inclinations in radians. */
  function FreshRoster(t: Trig): (r: seq<Kepler.Body>)
  {
    seq(|Roster|, i requires 0 <= i < |Roster| =>
      Kepler.Fresh(Roster[i].distance, Roster[i].orbitalSpeed, Radians(t, Roster[i].inclination)))
  }

  ghost predicate AllValid(ps: seq<CelestialBody>)
    reads set i | 0 <= i < |ps| :: ps[i]
    reads set i | 0 <= i < |ps| :: ps[i].trail
  {
    forall i :: 0 <= i < |ps| ==> ps[i].Valid()
  }

  /** No two planets share an object or a trail array. */
  ghost predicate Disjoint(ps: seq<CelestialBody>)
  {
    forall i, j :: 0 <= i < j < |ps| ==> ps[i] != ps[j] && ps[i].trail != ps[j].trail
  }

  /** `b` shares no object or trail array with any planet. */
  ghost predicate Apart(b: CelestialBody, ps: seq<CelestialBody>)
  {
    forall i :: 0 <= i < |ps| ==> ps[i] != b && ps[i].trail != b.trail
  }

  /** The sun and the six planets. */
  class SolarSystem {
    const sun: CelestialBody
    const planets: seq<CelestialBody>
    var showNames: bool
    var showOrbits: bool
    const recommendedCameraDistance: real

    /** Every planet keeps its trail invariant, and no two of the seven
        bodies share an object or a trail array. */
    ghost predicate Valid()
      reads set i | 0 <= i < |planets| :: planets[i]
      reads set i | 0 <= i < |planets| :: planets[i].trail
    {
      && AllValid(planets)
      && Disjoint(planets) && Apart(sun, planets)
    }

    /** The sun (distance 0, radius 20, speed 1.0) and the roster, each
        freshly constructed, names and orbits shown, and the camera distance
        recommended for the farthest orbit. */
    constructor (t: Trig)
      ensures Valid()
      ensures Distances(planets) == RosterDistances()
      ensures Snapshots(planets) == FreshRoster(t)
      ensures sun.distance == 0.0 && sun.radius == 20.0 && sun.orbitalSpeed == 1.0
      ensures showNames && showOrbits
      ensures recommendedCameraDistance == -600.0
    {
      var theSun, ps, fit := NewBodies(t);
      sun, planets := theSun, ps;
      showNames, showOrbits := true, true;
      recommendedCameraDistance := fit;
    }

    /** One tick: nothing when paused; otherwise every planet advances
        exactly once by `dt`. The sun is never advanced. */
    method Update(dt: real, paused: bool, t: Trig)
      requires Valid()
      modifies Footprint(planets)
      ensures Valid()
      ensures paused ==> forall i :: 0 <= i < |planets| ==>
                planets[i].Snapshot() == old(planets[i].Snapshot())
      ensures !paused ==> forall i :: 0 <= i < |planets| ==>
                planets[i].Snapshot() == Kepler.Advance(old(planets[i].Snapshot()), dt, t)
      ensures sun.Snapshot() == old(sun.Snapshot())
    {
      if !paused {
        for i := 0 to |planets|
          invariant AllValid(planets)
          invariant forall j :: 0 <= j < i ==>
                      planets[j].Snapshot() == Kepler.Advance(old(planets[j].Snapshot()), dt, t)
          invariant forall j :: i <= j < |planets| ==> unchanged(planets[j], planets[j].trail)
          invariant unchanged(sun, sun.trail)
        {
          AdvancePlanet(i, dt, t);
        }
      }
    }

    /** `planets[i].update_position(dt)`, seen from the whole system: that
        planet advances and every other body stays as it was. */
    method AdvancePlanet(i: nat, dt: real, t: Trig)
      requires i < |planets| && AllValid(planets) && Disjoint(planets) && Apart(sun, planets)
      modifies planets[i], planets[i].trail
      ensures AllValid(planets)
      ensures planets[i].Snapshot() == Kepler.Advance(old(planets[i].Snapshot()), dt, t)
      ensures forall j :: 0 <= j < |planets| && j != i ==> unchanged(planets[j], planets[j].trail)
      ensures unchanged(sun, sun.trail)
    {
      planets[i].UpdatePosition(dt, t);
    }
  }

  /** Where a planet's name is drawn, given the window coordinates `gluProject`
      returned for its centre (None when it returned nothing). */
  datatype Label = Label(x: int, y: real)

  /** A name is drawn only when the projected depth is in [0, 1] and the
      point lies inside the window; it is placed 20 pixels left of the point
      and `radius * 15` pixels above it (the division by `max(1, z)` never
      changes the offset, since z is at most 1 there). */
  function PlanetLabel(win: Option<Vec3>, radius: real, width: int, height: int): (r: Option<Label>)
    ensures r.Some? <==>
              && win.Some?
              && 0.0 <= win.value.z <= 1.0
              && 0.0 <= win.value.x <= width as real
              && 0.0 <= win.value.y <= height as real
    ensures r.Some? ==> r.value.x == win.value.x.Floor - 20
    ensures r.Some? ==> r.value.y == (height as real - win.value.y).Floor as real - radius * 15.0
  {
    match win
    case None => None
    case Some(w) =>
      if 0.0 <= w.z <= 1.0 && 0.0 <= w.x <= width as real && 0.0 <= w.y <= height as real then
        var offset := radius * 15.0 / Max(1.0, w.z);
        Some(Label(Trunc(w.x) - 20, Trunc(height as real - w.y) as real - offset))
      else
        None
  }
}
