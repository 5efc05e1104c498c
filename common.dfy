/** Values shared by every demo: 3D points, screen points, the host's
    trigonometry (supplied by the caller, never interpreted here) and the
    abstract input that pygame delivers each frame. */
module Common {

  /** A world-space point or a triple of angles; the demos keep these as
      Python lists or tuples of floats. */
  datatype Vec3 = Vec3(x: real, y: real, z: real)

  const Origin := Vec3(0.0, 0.0, 0.0)

  datatype Option<T> = None | Some(value: T)

  /** A pygame pointer position in pixels. */
  datatype Point = Point(x: int, y: int)

  /** `math.pi`, `math.cos` and `math.sin` of the host. The model states the
      state updates around them, not trigonometry. */
  datatype Trig = Trig(pi: real, cos: real -> real, sin: real -> real)

  /** `math.radians(deg)`, also written `deg * math.pi / 180`. */
  function Radians(t: Trig, deg: real): real
  {
    deg * t.pi / 180.0
  }

  /** The point on a circular orbit of the given radius, tilted by
      `inclination` (radians) about the x axis, at orbit angle `angle`. */
  function OrbitPoint(t: Trig, distance: real, inclination: real, angle: real): Vec3
  {
    Vec3(distance * t.cos(angle),
         distance * t.sin(angle) * t.cos(inclination),
         distance * t.sin(angle) * t.sin(inclination))
  }

  function Min(a: real, b: real): (r: real)
    ensures r <= a && r <= b && (r == a || r == b)
  {
    if a <= b then a else b
  }

  function Max(a: real, b: real): (r: real)
    ensures r >= a && r >= b && (r == a || r == b)
  {
    if a >= b then a else b
  }

  /** `min` on counts: `Min` taken on the counts as reals, brought back to
      `nat` so that the trail counters keep their type as bounds and as
      sequence indices. */
  function MinNat(a: nat, b: nat): (r: nat)
    ensures r <= a && r <= b && (r == a || r == b)
  {
    var m := Min(a as real, b as real);
    assert m == a as real || m == b as real;
    m.Floor
  }

  /** 1 for a held key, 0 otherwise. */
  function Flag(b: bool): real
  {
    if b then 1.0 else 0.0
  }

  /** `np.clip(v, lo, hi)`, i.e. `minimum(maximum(v, lo), hi)`. */
  function Clip(v: real, lo: real, hi: real): (r: real)
    requires lo <= hi
    ensures lo <= r <= hi
    ensures lo <= v <= hi ==> r == v
    ensures v < lo ==> r == lo
    ensures v > hi ==> r == hi
  {
    Min(Max(v, lo), hi)
  }

  /** Python's `int(r)` on a float: truncation toward zero. */
  function Trunc(r: real): (n: int)
    ensures r >= 0.0 ==> n as real <= r < n as real + 1.0
    ensures r < 0.0 ==> n as real - 1.0 < r <= n as real
  {
    if r >= 0.0 then r.Floor else -((-r).Floor)
  }

  /** The keys pygame reports in a KEYDOWN event that the demos react to. */
  datatype Key =
    | KeyEscape | KeySpace | KeyPlus | KeyKpPlus | KeyMinus | KeyKpMinus
    | KeyI | KeyO | KeyN | KeyH | KeyR
    | KeyOther(code: int)

  /** One pygame event, reduced to what the demos read of it. */
  datatype Event =
    | Quit
    | KeyDown(key: Key)
    | MouseButtonDown(button: int, pos: Point)
    | MouseButtonUp(button: int, pos: Point)
    | MouseMotion(pos: Point)
    | OtherEvent

  /** The snapshot `pygame.key.get_pressed()` gives of the held keys. */
  datatype Keys = Keys(
    left: bool, right: bool, up: bool, down: bool,
    lctrl: bool, rctrl: bool,
    q: bool, e: bool,
    w: bool, a: bool, s: bool, d: bool)

  /** One fixed-function matrix call of a camera's apply step. */
  datatype GlOp =
    | GlLoadIdentity
    | GlTranslate(offset: Vec3)
    | GlRotate(degrees: real, axis: Vec3)

  const AxisX := Vec3(1.0, 0.0, 0.0)
  const AxisY := Vec3(0.0, 1.0, 0.0)
  const AxisZ := Vec3(0.0, 0.0, 1.0)
}
