/** The integrated camera test: a camera held in a dictionary, turned by
    dragging (yaw free, pitch clipped to [-89, 89]), zoomed multiplicatively
    by the wheel and moved sideways and up and down by WASD. */
module CameraControlDemo {
  import opened Common

  /** `Config.INIT_CAMERA_DISTANCE`. */
  const InitCameraDistance := 600.0
  const DragSpeed := 0.2
  const ZoomSpeed := 0.1
  /** `move_speed` of the keyboard step. */
  const MoveSpeed := 5.0
  const PitchLimit := 89.0

  /** What the event handler reads and writes: the camera dictionary's
      `position`, `rotation` and `zoom`, and the drag state. */
  datatype DemoCamera = DemoCamera(
    position: Vec3, rotation: Vec3, zoom: real,
    dragging: bool, lastMousePos: Point)

  /** `_init_camera`. */
  const Initial := DemoCamera(Vec3(0.0, 0.0, -InitCameraDistance), Vec3(30.0, 0.0, 0.0), 1.0, false, Point(0, 0))

  /** The pitch stays within the clip range and the zoom stays positive. */
  ghost predicate Sane(s: DemoCamera)
  {
    -PitchLimit <= s.rotation.x <= PitchLimit && s.zoom > 0.0
  }

  /** A drag to `p`: yaw turns by 0.2 per horizontal pixel; pitch turns
      against the vertical motion by 0.2 per pixel and is clipped to
      [-89, 89] (saturating at -89 below and 89 above); `p` is recorded.
      Nothing else moves. */
  function DragTo(s: DemoCamera, p: Point): (r: DemoCamera)
    ensures r.rotation.y == s.rotation.y + (p.x - s.lastMousePos.x) as real * DragSpeed
    ensures -PitchLimit <= r.rotation.x <= PitchLimit
    ensures -PitchLimit <= s.rotation.x - (p.y - s.lastMousePos.y) as real * DragSpeed <= PitchLimit ==>
              r.rotation.x == s.rotation.x - (p.y - s.lastMousePos.y) as real * DragSpeed
    ensures s.rotation.x - (p.y - s.lastMousePos.y) as real * DragSpeed < -PitchLimit ==> r.rotation.x == -PitchLimit
    ensures s.rotation.x - (p.y - s.lastMousePos.y) as real * DragSpeed > PitchLimit ==> r.rotation.x == PitchLimit
    ensures r == s.(rotation := r.rotation.(z := s.rotation.z), lastMousePos := p)
  {
    var dx := p.x - s.lastMousePos.x;
    var dy := p.y - s.lastMousePos.y;
    var yawed := s.rotation.(y := s.rotation.y + dx as real * DragSpeed);
    s.(rotation := yawed.(x := Clip(yawed.x - dy as real * DragSpeed, -PitchLimit, PitchLimit)),
       lastMousePos := p)
  }

  /** One non-QUIT event of `handle_events`: button 1 starts a drag at the
      pointer, wheel up multiplies the zoom by 1.1 and wheel down by 0.9,
      releasing button 1 ends the drag, motion drags only while dragging;
      every other event is ignored. */
  function OnEvent(s: DemoCamera, e: Event): (r: DemoCamera)
    ensures e.MouseButtonDown? && e.button == 1 ==> r == s.(dragging := true, lastMousePos := e.pos)
    ensures e.MouseButtonDown? && e.button == 4 ==> r == s.(zoom := s.zoom * (1.0 + ZoomSpeed))
    ensures e.MouseButtonDown? && e.button == 5 ==> r == s.(zoom := s.zoom * (1.0 - ZoomSpeed))
    ensures e.MouseButtonUp? && e.button == 1 ==> r == s.(dragging := false)
    ensures e.MouseMotion? && s.dragging ==> r == DragTo(s, e.pos)
    ensures e.MouseMotion? && !s.dragging ==> r == s
    ensures (!e.MouseMotion? && !(e.MouseButtonDown? && (e.button == 1 || e.button == 4 || e.button == 5))
             && !(e.MouseButtonUp? && e.button == 1)) ==> r == s
    ensures r.position == s.position
  {
    match e
    case MouseButtonDown(button, pos) =>
      if button == 1 then s.(dragging := true, lastMousePos := pos)
      else if button == 4 then s.(zoom := s.zoom * (1.0 + ZoomSpeed))
      else if button == 5 then s.(zoom := s.zoom * (1.0 - ZoomSpeed))
      else s
    case MouseButtonUp(button, _) => if button == 1 then s.(dragging := false) else s
    case MouseMotion(pos) => if s.dragging then DragTo(s, pos) else s
    case _ => s
  }

  /** The keyboard step: W raises and S lowers the camera by 5, A moves it
      left and D right by 5; the depth, the rotation and the zoom stay. */
  function Wasd(s: DemoCamera, k: Keys): (r: DemoCamera)
    ensures r.position == Vec3(s.position.x - MoveSpeed * Flag(k.a) + MoveSpeed * Flag(k.d),
                               s.position.y + MoveSpeed * Flag(k.w) - MoveSpeed * Flag(k.s),
                               s.position.z)
    ensures r == s.(position := r.position)
  {
    var p := s.position;
    var p1 := if k.w then p.(y := p.y + MoveSpeed) else p;
    var p2 := if k.s then p1.(y := p1.y - MoveSpeed) else p1;
    var p3 := if k.a then p2.(x := p2.x - MoveSpeed) else p2;
    var p4 := if k.d then p3.(x := p3.x + MoveSpeed) else p3;
    s.(position := p4)
  }

  /** The event loop of `handle_events`: every event in order until the
      first QUIT, which returns `false` at once (skipping the keyboard);
      without a QUIT the keyboard step follows and the result is `true`.
      So the program goes on exactly when no event of the frame is a QUIT. */
  function Frame(s: DemoCamera, k: Keys, events: seq<Event>): (r: (DemoCamera, bool))
    ensures r.1 <==> forall i :: 0 <= i < |events| ==> !events[i].Quit?
    decreases |events|
  {
    if events == [] then (Wasd(s, k), true)
    else if events[0].Quit? then (s, false)
    else
      assert forall i :: 1 <= i < |events| ==> events[i] == events[1..][i - 1];
      Frame(OnEvent(s, events[0]), k, events[1..])
  }

  /** Each event keeps the camera sane: clipping bounds the pitch and the
      zoom factors 1.1 and 0.9 are positive. */
  lemma OnEventKeepsSane(s: DemoCamera, e: Event)
    requires Sane(s)
    ensures Sane(OnEvent(s, e))
  {
  }

  /** Any number of frames keep the camera sane, from the initial state
      (pitch 30, zoom 1) on. */
  lemma {:induction false} FrameKeepsSane(s: DemoCamera, k: Keys, events: seq<Event>)
    requires Sane(s)
    ensures Sane(Frame(s, k, events).0)
    decreases |events|
  {
    if events != [] && !events[0].Quit? {
      OnEventKeepsSane(s, events[0]);
      FrameKeepsSane(OnEvent(s, events[0]), k, events[1..]);
    }
  }

  lemma InitialIsSane()
    ensures Sane(Initial)
  {
  }

  /** Wheel up then wheel down does not restore the zoom: it leaves
      0.99 of it. */
  lemma WheelUpThenDown(s: DemoCamera, p: Point, q: Point)
    ensures OnEvent(OnEvent(s, MouseButtonDown(4, p)), MouseButtonDown(5, q)).zoom == 0.99 * s.zoom
  {
  }

  /** `apply_camera_transform`: reset the model-view matrix, translate by
      the position's x and y and by `-600 * zoom` along z, then rotate pitch,
      yaw and roll in that order. */
  function ApplyCameraTransform(s: DemoCamera): (ops: seq<GlOp>)
    ensures |ops| == 5 && ops[0] == GlLoadIdentity
    ensures forall i :: 0 < i < |ops| ==> ops[i] != GlLoadIdentity
    ensures ops[1] == GlTranslate(Vec3(s.position.x, s.position.y, -InitCameraDistance * s.zoom))
    ensures ops[2..] == [GlRotate(s.rotation.x, AxisX), GlRotate(s.rotation.y, AxisY), GlRotate(s.rotation.z, AxisZ)]
  {
    [GlLoadIdentity,
     GlTranslate(Vec3(s.position.x, s.position.y, -InitCameraDistance * s.zoom)),
     GlRotate(s.rotation.x, AxisX), GlRotate(s.rotation.y, AxisY), GlRotate(s.rotation.z, AxisZ)]
  }

  /** The stored depth (`position[2]`, -600 initially) is never used: the
      view's depth comes from the zoom alone, and a sane camera is always in
      front of the origin. */
  lemma TransformIgnoresDepth(s: DemoCamera, z: real)
    requires Sane(s)
    ensures ApplyCameraTransform(s.(position := s.position.(z := z))) == ApplyCameraTransform(s)
    ensures ApplyCameraTransform(s)[1].offset.z < 0.0
  {
  }

  /** The WASD keys slide the view: the translation moves by exactly the
      keyboard step and the rotations stay. */
  lemma {:induction false} WasdSlidesView(s: DemoCamera, k: Keys)
    ensures ApplyCameraTransform(Wasd(s, k))[1].offset ==
            Vec3(s.position.x - MoveSpeed * Flag(k.a) + MoveSpeed * Flag(k.d),
                 s.position.y + MoveSpeed * Flag(k.w) - MoveSpeed * Flag(k.s),
                 -InitCameraDistance * s.zoom)
    ensures ApplyCameraTransform(Wasd(s, k))[2..] == ApplyCameraTransform(s)[2..]
  {
    var r := Wasd(s, k);
    assert r.rotation == s.rotation && r.zoom == s.zoom;
  }

  /** The demo object with its camera dictionary and drag state. */
  class IntegratedCameraTest {
    var position: Vec3
    var rotation: Vec3
    var zoom: real
    const dragSpeed: real
    const zoomSpeed: real
    var dragging: bool
    var lastMousePos: Point

    function State(): DemoCamera
      reads this
    {
      DemoCamera(position, rotation, zoom, dragging, lastMousePos)
    }

    /** `_init_camera`. */
    constructor ()
      ensures State() == Initial && dragSpeed == DragSpeed && zoomSpeed == ZoomSpeed
    {
      position := Vec3(0.0, 0.0, -InitCameraDistance);
      rotation := Vec3(30.0, 0.0, 0.0);
      zoom := 1.0;
      dragSpeed := 0.2;
      zoomSpeed := 0.1;
      dragging := false;
      lastMousePos := Point(0, 0);
    }

    /** `handle_events` on one frame's events and held keys. */
    method HandleEvents(keys: Keys, events: seq<Event>) returns (running: bool)
      requires dragSpeed == DragSpeed && zoomSpeed == ZoomSpeed
      modifies this
      ensures (State(), running) == Frame(old(State()), keys, events)
    {
      for i := 0 to |events|
        invariant Frame(old(State()), keys, events) == Frame(State(), keys, events[i..])
      {
        assert events[i..][1..] == events[i + 1..];
        if events[i].Quit? {
          return false;
        }
        HandleEvent(events[i]);
      }
      MoveByKeys(keys);
      running := true;
    }

    /** One pass of the event loop for a non-QUIT event. */
    method HandleEvent(e: Event)
      requires dragSpeed == DragSpeed && zoomSpeed == ZoomSpeed
      modifies this
      ensures State() == OnEvent(old(State()), e)
    {
      if e.MouseButtonDown? {
        if e.button == 1 {
          dragging := true;
          lastMousePos := e.pos;
        } else if e.button == 4 {
          zoom := zoom * (1.0 + zoomSpeed);
        } else if e.button == 5 {
          zoom := zoom * (1.0 - zoomSpeed);
        }
      } else if e.MouseButtonUp? {
        if e.button == 1 {
          dragging := false;
        }
      } else if e.MouseMotion? && dragging {
        var dx := e.pos.x - lastMousePos.x;
        var dy := e.pos.y - lastMousePos.y;
        rotation := rotation.(y := rotation.y + dx as real * dragSpeed);
        rotation := rotation.(x := Clip(rotation.x - dy as real * dragSpeed, -89.0, 89.0));
        lastMousePos := e.pos;
      }
    }

    /** The keyboard part of `handle_events`. */
    method MoveByKeys(keys: Keys)
      modifies this
      ensures State() == Wasd(old(State()), keys)
    {
      var moveSpeed := 5.0;
      if keys.w {
        position := position.(y := position.y + moveSpeed);
      }
      if keys.s {
        position := position.(y := position.y - moveSpeed);
      }
      if keys.a {
        position := position.(x := position.x - moveSpeed);
      }
      if keys.d {
        position := position.(x := position.x + moveSpeed);
      }
    }
  }
}
