/** The orbit camera of the detailed solar system and of the simulator. Both
    programs' `Camera` classes keep the same five fields with the same
    defaults and change them by the same rules; this module gives those rules
    as functions on a `CameraState` value, and each class is proved to follow
    them. */
module OrbitCamera {
  import opened Common

  /** `position`, `rotation` (pitch, yaw, roll in degrees), `zoom_level`,
      `dragging` and `last_mouse_pos`. */
  datatype CameraState = CameraState(
    position: Vec3, rotation: Vec3, zoomLevel: real,
    dragging: bool, lastMousePos: Point)

  /** The state `Camera()` (and the simulator's `reset`) assigns. */
  const Default := CameraState(Vec3(0.0, 0.0, -600.0), Vec3(30.0, 0.0, 0.0), 1.0, false, Point(0, 0))

  const MinZoom := 0.1
  const MaxZoom := 3.0
  /** Degrees of rotation per pixel of drag. */
  const DragSensitivity := 0.1

  ghost predicate ZoomInRange(s: CameraState)
  {
    MinZoom <= s.zoomLevel <= MaxZoom
  }

  /** `rotate(x, y, z)`: adds to pitch, yaw and roll. */
  function Rotate(s: CameraState, x: real, y: real, z: real): CameraState
  {
    s.(rotation := Vec3(s.rotation.x + x, s.rotation.y + y, s.rotation.z + z))
  }

  /** `zoom(amount)`: adds `amount` to the zoom level and clamps it to
      [0.1, 3.0]; no other field changes. */
  function Zoom(s: CameraState, amount: real): (r: CameraState)
    ensures ZoomInRange(r)
    ensures r == s.(zoomLevel := r.zoomLevel)
    ensures MinZoom <= s.zoomLevel + amount <= MaxZoom ==> r.zoomLevel == s.zoomLevel + amount
    ensures s.zoomLevel + amount < MinZoom ==> r.zoomLevel == MinZoom
    ensures s.zoomLevel + amount > MaxZoom ==> r.zoomLevel == MaxZoom
  {
    s.(zoomLevel := Clip(s.zoomLevel + amount, MinZoom, MaxZoom))
  }

  /** `start_drag(p)`: enters the dragging state at `p`. */
  function StartDrag(s: CameraState, p: Point): CameraState
  {
    s.(dragging := true, lastMousePos := p)
  }

  /** `end_drag()`: leaves the dragging state. */
  function EndDrag(s: CameraState): CameraState
  {
    s.(dragging := false)
  }

  /** `drag(p)`: nothing unless dragging; otherwise the pointer's motion
      since the last recorded position turns pitch by 0.1 per vertical pixel
      and yaw by 0.1 per horizontal pixel, and `p` is recorded. */
  function Drag(s: CameraState, p: Point): (r: CameraState)
    ensures !s.dragging ==> r == s
    ensures s.dragging ==> r.position == s.position && r.zoomLevel == s.zoomLevel
    ensures s.dragging ==> r.dragging && r.lastMousePos == p
    ensures s.dragging ==>
              r.rotation == Vec3(s.rotation.x + DragSensitivity * (p.y - s.lastMousePos.y) as real,
                                 s.rotation.y + DragSensitivity * (p.x - s.lastMousePos.x) as real,
                                 s.rotation.z)
  {
    if s.dragging then
      var dx := p.x - s.lastMousePos.x;
      var dy := p.y - s.lastMousePos.y;
      Rotate(s, dy as real * DragSensitivity, dx as real * DragSensitivity, 0.0).(lastMousePos := p)
    else
      s
  }

  /** The mouse part of the event dispatch both programs share: button 1
      starts a drag, wheel up (button 4) zooms by +0.1, wheel down (button 5)
      by -0.1, releasing button 1 ends the drag, and motion drags. */
  function OnMouseEvent(s: CameraState, e: Event): (r: CameraState)
    ensures e.MouseButtonDown? && e.button == 1 ==> r == StartDrag(s, e.pos)
    ensures e.MouseButtonDown? && e.button == 4 ==> r == Zoom(s, 0.1)
    ensures e.MouseButtonDown? && e.button == 5 ==> r == Zoom(s, -0.1)
    ensures e.MouseButtonUp? && e.button == 1 ==> r == EndDrag(s)
    ensures e.MouseMotion? ==> r == Drag(s, e.pos)
    ensures (!e.MouseMotion? && !(e.MouseButtonDown? && (e.button == 1 || e.button == 4 || e.button == 5))
             && !(e.MouseButtonUp? && e.button == 1)) ==> r == s
    ensures ZoomInRange(s) ==> ZoomInRange(r)
    ensures r.position == s.position
  {
    match e
    case MouseButtonDown(button, pos) =>
      if button == 1 then StartDrag(s, pos)
      else if button == 4 then Zoom(s, 0.1)
      else if button == 5 then Zoom(s, -0.1)
      else s
    case MouseButtonUp(button, _) => if button == 1 then EndDrag(s) else s
    case MouseMotion(pos) => Drag(s, pos)
    case _ => s
  }

  /** The state after `zoom` was called with each of `amounts` in turn. */
  function ZoomAll(s: CameraState, amounts: seq<real>): CameraState
    decreases |amounts|
  {
    if amounts == [] then s else ZoomAll(Zoom(s, amounts[0]), amounts[1..])
  }

  /** From a zoom level in range (the constructor's 1.0 is), any sequence of
      `zoom` calls leaves it in [0.1, 3.0] and changes no other field. */
  lemma {:induction false} ZoomAllInRange(s: CameraState, amounts: seq<real>)
    requires ZoomInRange(s)
    ensures ZoomInRange(ZoomAll(s, amounts))
    ensures ZoomAll(s, amounts) == s.(zoomLevel := ZoomAll(s, amounts).zoomLevel)
    decreases |amounts|
  {
    if amounts != [] {
      ZoomAllInRange(Zoom(s, amounts[0]), amounts[1..]);
    }
  }

  /** Zooming far out and then far in saturates: `zoom(-10)` then `zoom(10)`
      ends at exactly 3.0, whatever the starting level. */
  lemma ZoomOutThenIn(s: CameraState)
    ensures Zoom(Zoom(s, -10.0), 10.0).zoomLevel == MaxZoom
  {
  }

  /** The state after `drag` was called at each of `ps` in turn. */
  function DragAll(s: CameraState, ps: seq<Point>): CameraState
    decreases |ps|
  {
    if ps == [] then s else DragAll(Drag(s, ps[0]), ps[1..])
  }

  /** Drags telescope: after a drag that passes through `ps`, pitch and yaw
      have turned by 0.1 times the total pointer displacement from the
      recorded position to the last point, whatever the path; roll, the
      position and the zoom level are untouched. */
  lemma {:induction false} DragAllTelescopes(s: CameraState, ps: seq<Point>)
    requires s.dragging && |ps| > 0
    ensures DragAll(s, ps) == s.(
      rotation := Vec3(
        s.rotation.x + DragSensitivity * (ps[|ps| - 1].y - s.lastMousePos.y) as real,
        s.rotation.y + DragSensitivity * (ps[|ps| - 1].x - s.lastMousePos.x) as real,
        s.rotation.z),
      lastMousePos := ps[|ps| - 1])
    decreases |ps|
  {
    if |ps| > 1 {
      var s1 := Drag(s, ps[0]);
      DragAllTelescopes(s1, ps[1..]);
      assert ps[1..][|ps[1..]| - 1] == ps[|ps| - 1];
    }
  }

  /** Moving the pointer while not dragging never changes the camera. */
  lemma {:induction false} DragAllIdle(s: CameraState, ps: seq<Point>)
    requires !s.dragging
    ensures DragAll(s, ps) == s
    decreases |ps|
  {
    if ps != [] {
      DragAllIdle(Drag(s, ps[0]), ps[1..]);
    }
  }

  /** The held LEFT and RIGHT arrows, both programs' way: yaw -1, then +1. */
  function YawKeys(s: CameraState, k: Keys): (r: CameraState)
    ensures r == s.(rotation := s.rotation.(y := s.rotation.y - Flag(k.left) + Flag(k.right)))
  {
    var s1 := if k.left then Rotate(s, 0.0, -1.0, 0.0) else s;
    if k.right then Rotate(s1, 0.0, 1.0, 0.0) else s1
  }

  /** The camera after the mouse part of the dispatch has seen each of `es`
      in turn. No mouse event moves the camera, and none takes the zoom
      level out of [0.1, 3.0] once it is in range. */
  function ReplayMouse(s: CameraState, es: seq<Event>): (r: CameraState)
    ensures r.position == s.position
    ensures ZoomInRange(s) ==> ZoomInRange(r)
    decreases |es|
  {
    if es == [] then s else OnMouseEvent(ReplayMouse(s, es[..|es| - 1]), es[|es| - 1])
  }

  /** `apply()`: reset the model-view matrix, translate by the position,
      then by the zoom offset `200 * (1 - zoom_level)` along z, then rotate
      pitch, yaw and roll in that order. The transform is absolute: it starts
      from the identity, whatever the matrix held before. */
  function Apply(s: CameraState): (ops: seq<GlOp>)
    ensures |ops| == 6 && ops[0] == GlLoadIdentity
    ensures forall i :: 0 < i < |ops| ==> ops[i] != GlLoadIdentity
    ensures ops[1] == GlTranslate(s.position)
    ensures ops[2].GlTranslate? && ops[2].offset.x == 0.0 && ops[2].offset.y == 0.0
    ensures ZoomInRange(s) ==> -400.0 <= ops[2].offset.z <= 180.0
    ensures s.zoomLevel == 1.0 ==> ops[2].offset == Origin
    ensures ops[3..] == [GlRotate(s.rotation.x, AxisX), GlRotate(s.rotation.y, AxisY), GlRotate(s.rotation.z, AxisZ)]
  {
    [GlLoadIdentity,
     GlTranslate(s.position), GlTranslate(Vec3(0.0, 0.0, 200.0 * (1.0 - s.zoomLevel))),
     GlRotate(s.rotation.x, AxisX), GlRotate(s.rotation.y, AxisY), GlRotate(s.rotation.z, AxisZ)]
  }
}
