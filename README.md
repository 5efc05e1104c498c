# Solar-system simulators in Dafny

This project models the logic of four small PyOpenGL/pygame programs. Each
program draws planets orbiting a sun and lets the user steer a camera. The
models cover:

- how the camera reacts to the mouse and the keyboard;
- how each body's orbit angle, position, spin and trail change every frame;
- which trail points get drawn, and in what order;
- where a body's name label goes on screen.

The drawing calls themselves are not modelled.

Modules:

- `Common`: shared value types.
  - `Vec3`, and `Point` for pygame's integer pixel positions.
  - `Event` and `Key`, for pygame events and key codes.
  - `Keys`, a snapshot of which keys are held.
  - `GlOp`, one matrix call.
  - `Trig`: `pi`, `cos` and `sin` passed in as parameters.
  - Small helpers: `Clip`, `Min`, `Max`, `MinNat` and `Trunc`.
- `OrbitCamera`: the camera that `detailed_solar_system.py.py` and
  `solar_system_simulator.py` share.
  - It is a `CameraState` value, and every camera operation is a function on it.
  - Operations: rotate, zoom clamped to [0.1, 3.0], start/end drag, drag at
    0.1 degree per pixel, the mouse dispatch, and `apply` written as a list of
    matrix calls.
  - Lemmas about repeated zooms and drags.
- `Kepler`: the `CelestialBody` that the same two programs share.
  - `Advance` specifies one `update_position(dt)`:
    - the angle moves by `orbital_speed * dt`;
    - the position is recomputed on the inclined orbit;
    - the spin grows by `dt * 10`;
    - the new point goes into slot `trail_index % 300` of a trail array
      allocated at start-up;
    - the live count saturates at 300.
  - `TrailValid` is the ring invariant. It uses a ghost history of every point
    written, and says the last 300 points sit at their index modulo 300 and
    unreached slots are still zero. Every update keeps it.
- `DetailedSolarSystem` (`detailed_solar_system.py.py`):
  - the `Camera` class;
  - the main loop's mouse dispatch, held-key block and KEYDOWN branch, and
    one frame of its input handling composed from them;
  - `CelestialBody` with its trail array;
  - `SolarSystem` with its six-planet roster and the recommended camera distance;
  - the name-label test of `draw_planet_name`.
- `SolarSystemSimulator` (`solar_system_simulator.py`):
  - the `Camera` class with `reset` and `handle_input`;
  - `CelestialBody`, split into `_calculate_position` and `_update_trail`;
  - the `_draw_trail` walk;
  - the `SolarSystem` and `UserInterface` classes;
  - the top-level simulator's `_handle_events`, `_handle_keydown` and `_update`;
  - the `_draw_name` test.
- `CameraControlDemo` (`camera_control_demo.py`):
  - the camera dictionary and `handle_events`: drag with pitch clipped to
    [-89, 89], multiplicative wheel zoom, WASD moves of 5;
  - `apply_camera_transform`.
- `SimpleSolarSystem` (`simple_solar_system.py`):
  - a flat circular orbit in degrees;
  - a list trail of at most 50 points (append, then `pop(0)`);
  - the `draw_trail` guard.

The model follows the code, including where it does something other than
what a reader of its comments and names might expect:

- With zero inclination a body's y coordinate is not 0 after an update.
  The code computes `y = d sin(a) cos(i)` and `z = d sin(a) sin(i)`, so the
  zero-inclination orbit lies in the x-y plane.

The two programs that share the orbit camera handle its held keys
differently, and each is modelled as written:

- in the detailed program Q rolls +1 and E rolls -1; in the simulator Q
  rolls -1 and E rolls +1;
- in the detailed program UP or DOWN without Ctrl moves the camera ±5 along
  z; in the simulator they do nothing.

## Model

| member | source | states |
|---|---|---|
| OrbitCamera.Zoom | detailed_solar_system.py.py:55-57 | the zoom level ends in [0.1, 3.0]: it is level+amount when that is in range, 0.1 below it and 3.0 above it; no other field changes |
| OrbitCamera.Drag | detailed_solar_system.py.py:68-74 | no change when not dragging; otherwise pitch turns by 0.1·dy, yaw by 0.1·dx, roll, position and zoom stay, and the pointer is recorded |
| OrbitCamera.OnMouseEvent | detailed_solar_system.py.py:489-500 | button 1 starts a drag, 4 zooms +0.1, 5 zooms -0.1, releasing 1 ends the drag, motion drags; every other event (other buttons pressed or released, keys, anything else) changes nothing; the zoom stays in range and the position never moves |
| OrbitCamera.ZoomAllInRange | detailed_solar_system.py.py:55-57 | from an in-range level, any sequence of zooms stays in [0.1, 3.0] and changes nothing but the zoom level |
| OrbitCamera.ZoomOutThenIn | detailed_solar_system.py.py:55-57 | the clamp saturates: zoom(-10) then zoom(10) always ends at 3.0 |
| OrbitCamera.DragAllTelescopes | detailed_solar_system.py.py:68-74 | a drag through any path turns pitch and yaw by 0.1 times the net displacement to its last point, and nothing else changes |
| OrbitCamera.DragAllIdle | detailed_solar_system.py.py:68-74 | pointer motion while not dragging never changes the camera |
| OrbitCamera.YawKeys | solar_system_simulator.py:64-65 | LEFT turns yaw by -1 and RIGHT by +1, and nothing else changes |
| OrbitCamera.ReplayMouse | solar_system_simulator.py:73-83 | folding the mouse dispatch over any sequence of events (handle_input's loop) never moves the camera position and never takes an in-range zoom out of [0.1, 3.0] |
| OrbitCamera.Apply | detailed_solar_system.py.py:40-47 | six matrix calls, absolute: load the identity first and never again, translate by the position, translate along z by 200(1-zoom) (in [-400, 180] for an in-range zoom, zero at zoom 1), then rotate pitch, yaw and roll in that order |
| Kepler.Fresh | detailed_solar_system.py.py:78-99 | a new body is at (distance, 0, 0) with angle 0, an all-zero 300-slot trail and nothing written, and satisfies the ring invariant |
| Kepler.Advance | detailed_solar_system.py.py:101-118 | one update: angle += speed·dt, position = orbit point of the new angle, spin += 10·dt, slot index%300 := position, no other slot changes, index+1, count = min(count+1, 300), orbit parameters unchanged |
| Kepler.Place | solar_system_simulator.py:138-141 | the position becomes the orbit point of the current angle, and nothing else changes |
| Kepler.Record | solar_system_simulator.py:143-147 | the current position is written into slot index%300 and no other slot; the index is bumped; the count saturates at 300; nothing else changes |
| Kepler.RingWrite | detailed_solar_system.py.py:114-118 | writing the next point at its index modulo the capacity keeps the ring holding the last capacity-many points of the extended history |
| Kepler.RecordKeepsTrailValid | solar_system_simulator.py:143-147 | recording a point keeps the ring invariant |
| Kepler.AdvanceKeepsTrailValid | detailed_solar_system.py.py:101-118 | one update keeps the ring invariant |
| Kepler.AdvanceAll | detailed_solar_system.py.py:101-118 | after a run of updates the speed and capacity are unchanged and the angle has grown by the step-by-step swept angle |
| Kepler.SweptIsSpeedTimesSum | detailed_solar_system.py.py:104 | sweeping step by step at a constant speed equals the speed times the total time |
| Kepler.AdvanceAllAngle | detailed_solar_system.py.py:104 | after any run of updates the angle has grown by orbital_speed times the total elapsed time |
| Kepler.AdvanceAllCounts | solar_system_simulator.py:143-147 | after n updates the write index has grown by n and the live count is min(count+n, 300) |
| Kepler.CountFromConstruction | detailed_solar_system.py.py:93-118 | n updates after construction the trail holds min(n, 300) live points and the ring invariant holds |
| Kepler.AdvanceAllKeepsTrailValid | detailed_solar_system.py.py:114-118 | any run of updates keeps the ring invariant |
| Kepler.LivePoints | solar_system_simulator.py:143-147 | the live points are the last trail_count points recorded, oldest first, and the j-th sits in slot (index - count + j) % 300 |
| DetailedSolarSystem.Camera.constructor | detailed_solar_system.py.py:33-38 | position (0, 0, -600), rotation (30, 0, 0), zoom 1.0, not dragging, pointer (0, 0) |
| DetailedSolarSystem.Camera.Rotate | detailed_solar_system.py.py:49-53 | adds x, y and z to pitch, yaw and roll |
| DetailedSolarSystem.Camera.Zoom | detailed_solar_system.py.py:55-57 | the camera steps as OrbitCamera.Zoom (clamped to [0.1, 3.0]) |
| DetailedSolarSystem.Camera.StartDrag | detailed_solar_system.py.py:59-62 | enters dragging at the given pointer position |
| DetailedSolarSystem.Camera.EndDrag | detailed_solar_system.py.py:64-66 | leaves dragging |
| DetailedSolarSystem.Camera.Drag | detailed_solar_system.py.py:68-74 | the camera steps as OrbitCamera.Drag |
| DetailedSolarSystem.DispatchMouseEvent | detailed_solar_system.py.py:489-500 | the main loop's mouse branches change the camera as OrbitCamera.OnMouseEvent |
| DetailedSolarSystem.HeldKeysStep | detailed_solar_system.py.py:502-519 | yaw -LEFT+RIGHT; pitch -UP+DOWN only with Ctrl; z +5·UP -5·DOWN only without Ctrl; roll +Q-E; zoom and drag state unchanged |
| DetailedSolarSystem.UpDownKeys | detailed_solar_system.py.py:508-515 | with Ctrl, UP and DOWN turn the pitch by -1 and +1; without Ctrl they move z by +5 and -5 |
| DetailedSolarSystem.RollKeys | detailed_solar_system.py.py:516-519 | Q rolls +1, E rolls -1, and nothing else changes |
| DetailedSolarSystem.ApplyHeldKeys | detailed_solar_system.py.py:502-519 | the held-key block changes the camera exactly as HeldKeysStep |
| DetailedSolarSystem.ApplyYawKeys | detailed_solar_system.py.py:504-507 | the arrow-key yaw changes the camera as YawKeys |
| DetailedSolarSystem.ApplyUpDownKeys | detailed_solar_system.py.py:508-515 | the UP/DOWN block changes the camera as UpDownKeys |
| DetailedSolarSystem.ApplyRollKeys | detailed_solar_system.py.py:516-519 | the Q/E block changes the camera as RollKeys |
| DetailedSolarSystem.OnKeyDown | detailed_solar_system.py.py:472-488 | SPACE, I, O, N and H flip their switch; + and keypad + multiply dt by 1.2, - and keypad - divide it by 1.2; R alone replaces the camera; every other key changes nothing |
| DetailedSolarSystem.OnLoopEvent | detailed_solar_system.py.py:469-500 | QUIT clears running and nothing else; a KEYDOWN changes the loop variables as OnKeyDown and replaces the camera by the default one exactly on R; every other event goes to OnMouseEvent |
| DetailedSolarSystem.LoopFrameRunning | detailed_solar_system.py.py:469-471 | after a frame the loop keeps running if and only if it was running and no event was a QUIT |
| DetailedSolarSystem.LoopFrame | detailed_solar_system.py.py:469-519 | one frame (every event in order, a QUIT not stopping the rest, then the held keys) never takes an in-range zoom level out of [0.1, 3.0] |
| DetailedSolarSystem.HandleKeyDown | detailed_solar_system.py.py:472-488 | the KEYDOWN branch flips show_orbits and show_names on the solar system and changes the loop variables exactly as OnKeyDown, signalling R |
| DetailedSolarSystem.HandleLoopEvent | detailed_solar_system.py.py:470-500 | one event changes the camera in use, the loop variables, the solar system's switches and running exactly as OnLoopEvent |
| DetailedSolarSystem.RunLoopFrame | detailed_solar_system.py.py:469-519 | the loop over the frame's events, then the held keys, changes the camera in use, the loop variables, the solar system's show_orbits and show_names switches and running exactly as LoopFrame; the camera in use is the old one or a new one |
| DetailedSolarSystem.CelestialBody.constructor | detailed_solar_system.py.py:78-99 | the state is Kepler.Fresh with the inclination converted to radians; the trail array is new |
| DetailedSolarSystem.CelestialBody.UpdatePosition | detailed_solar_system.py.py:101-118 | the body steps exactly as Kepler.Advance and keeps the ring invariant |
| DetailedSolarSystem.CelestialBody.RecordTrail | detailed_solar_system.py.py:114-118 | the trail lines step the body exactly as Kepler.Record |
| DetailedSolarSystem.MaxOf | detailed_solar_system.py.py:190 | the result is an element of the list and no element exceeds it |
| DetailedSolarSystem.RecommendedCameraDistance | detailed_solar_system.py.py:189-191 | the result is -1.5 times some orbit radius and at most -1.5 times every radius |
| DetailedSolarSystem.RosterDistances | detailed_solar_system.py.py:162-181 | the roster's orbit radii, in order |
| DetailedSolarSystem.RosterCameraDistance | detailed_solar_system.py.py:189-191 | for the fixed roster (farthest orbit 400) the recommended distance is -600 |
| DetailedSolarSystem.NewSun | detailed_solar_system.py.py:160 | the sun is at distance 0 with radius 20 and the default speed 1.0, and satisfies the ring invariant |
| DetailedSolarSystem.NewPlanets | detailed_solar_system.py.py:162-181 | six distinct fresh planets, each in the Kepler.Fresh state of its roster row, none sharing an object or trail with the sun, with recommended distance -600 |
| DetailedSolarSystem.NewBodies | detailed_solar_system.py.py:158-191 | the sun, the distinct fresh planets of the roster in order, and the fitting camera distance, which is -600 |
| DetailedSolarSystem.SolarSystem.constructor | detailed_solar_system.py.py:158-191 | the roster's planets in order, each in the Kepler.Fresh state of its row, satisfying the ring invariant, with no two bodies sharing state; the sun is at 0 with radius 20 and speed 1.0; names and orbits are shown; the recommended distance is -600 |
| DetailedSolarSystem.SolarSystem.Update | detailed_solar_system.py.py:193-197 | when paused no planet changes; otherwise every planet steps exactly once as Kepler.Advance; the sun never changes; the invariant is kept |
| DetailedSolarSystem.SolarSystem.AdvancePlanet | detailed_solar_system.py.py:196-197 | planet i steps as Kepler.Advance, and every other planet and the sun are unchanged |
| DetailedSolarSystem.PlanetLabel | detailed_solar_system.py.py:309-320 | a label appears if and only if the projection exists, its depth is in [0, 1] and it lies inside the window; it is placed at int(x)-20 and int(height-y) - 15·radius |
| SolarSystemSimulator.ColorOf | solar_system_simulator.py:19-27 | each Config.COLORS entry is an RGB triple with every component in [0, 1] |
| SolarSystemSimulator.KeyboardStep | solar_system_simulator.py:60-71 | yaw -LEFT+RIGHT, pitch -UP+DOWN only with Ctrl, roll -Q+E; position, zoom and drag state never change |
| SolarSystemSimulator.PitchKeys | solar_system_simulator.py:66-69 | with Ctrl, UP and DOWN turn the pitch by -1 and +1; without Ctrl nothing changes |
| SolarSystemSimulator.RollKeys | solar_system_simulator.py:70-71 | Q rolls -1, E rolls +1, and nothing else changes |
| SolarSystemSimulator.KeyboardCancels | solar_system_simulator.py:64-69 | holding LEFT and RIGHT together cancels, and without Ctrl UP and DOWN are inert |
| SolarSystemSimulator.Camera.constructor | solar_system_simulator.py:42-43 | a new camera is in the default state |
| SolarSystemSimulator.Camera.Reset | solar_system_simulator.py:45-50 | whatever the state before, the camera returns to the defaults |
| SolarSystemSimulator.Camera.Rotate | solar_system_simulator.py:85-87 | yaw grows by dx/10 and pitch by dy/10 |
| SolarSystemSimulator.Camera.Zoom | solar_system_simulator.py:89-90 | the camera steps as OrbitCamera.Zoom (np.clip to [0.1, 3.0]) |
| SolarSystemSimulator.Camera.StartDrag | solar_system_simulator.py:92-94 | enters dragging at the given position |
| SolarSystemSimulator.Camera.EndDrag | solar_system_simulator.py:96-97 | leaves dragging |
| SolarSystemSimulator.Camera.Drag | solar_system_simulator.py:99-104 | the camera steps as OrbitCamera.Drag |
| SolarSystemSimulator.Camera.HandleInput | solar_system_simulator.py:60-83 | the held-key step first, then every mouse event of the frame in order |
| SolarSystemSimulator.Camera.ApplyYaw | solar_system_simulator.py:64-65 | the camera steps as YawKeys |
| SolarSystemSimulator.Camera.ApplyPitch | solar_system_simulator.py:66-69 | the camera steps as PitchKeys |
| SolarSystemSimulator.Camera.ApplyRoll | solar_system_simulator.py:70-71 | the camera steps as RollKeys |
| SolarSystemSimulator.Camera.HandleMouseEvent | solar_system_simulator.py:74-83 | one pass of the mouse loop changes the camera as OrbitCamera.OnMouseEvent |
| SolarSystemSimulator.DrawnTrail | solar_system_simulator.py:164-175 | nothing for fewer than two live points; otherwise trail_count vertices, the i-th from slot (index - i) % 300 with alpha i/count in [0, 1) |
| SolarSystemSimulator.DrawnTrailWhileFilling | solar_system_simulator.py:164-175 | while the ring is filling, the strip as written starts at a still-zero slot (the origin) and never visits slot 0, which holds the oldest live point |
| SolarSystemSimulator.LiveTrail | solar_system_simulator.py:164-175 | corrected walk: the i-th vertex comes from slot (index - count + i) % 300, with the same guard and alpha |
| SolarSystemSimulator.LiveTrailIsLivePoints | solar_system_simulator.py:164-175 | the corrected walk draws exactly the live points, oldest first |
| SolarSystemSimulator.CelestialBody.constructor | solar_system_simulator.py:108-130 | the state is Kepler.Fresh with the inclination in radians; the colour is ColorOf of the colour name, the Config.COLORS lookup |
| SolarSystemSimulator.CelestialBody.UpdatePosition | solar_system_simulator.py:132-136 | the body steps exactly as Kepler.Advance and keeps the ring invariant |
| SolarSystemSimulator.CelestialBody.CalculatePosition | solar_system_simulator.py:138-141 | the body changes as Kepler.Place |
| SolarSystemSimulator.CelestialBody.UpdateTrail | solar_system_simulator.py:143-147 | the body changes as Kepler.Record |
| SolarSystemSimulator.CelestialBody.DrawTrail | solar_system_simulator.py:164-175 | the emitted vertices are DrawnTrail of the trail array |
| SolarSystemSimulator.CelestialBody.DrawLiveTrail | solar_system_simulator.py:164-175 | the corrected loop emits LiveTrail, that is, the live points oldest first |
| SolarSystemSimulator.CreatePlanets | solar_system_simulator.py:181 | one distinct body per PLANET_PARAMS row, in order, each in the Kepler.Fresh state of its row (distance, speed, inclination in radians), sharing nothing with the sun, each satisfying the ring invariant |
| SolarSystemSimulator.SolarSystem.constructor | solar_system_simulator.py:179-183 | a sun at 0 with radius 20 and speed 0; the six planets of PLANET_PARAMS in order, each with its row's distance and speed and in the Kepler.Fresh state of its row, satisfying the invariant with no shared state; orbits and names shown |
| SolarSystemSimulator.SolarSystem.Update | solar_system_simulator.py:188-191 | when paused no planet changes; otherwise every planet steps once as Kepler.Advance; the sun never changes |
| SolarSystemSimulator.SolarSystem.AdvancePlanet | solar_system_simulator.py:190-191 | planet i steps as Kepler.Advance, and the other bodies are unchanged |
| SolarSystemSimulator.UserInterface.constructor | solar_system_simulator.py:216-219 | info shown, help hidden |
| SolarSystemSimulator.UserInterface.ToggleDisplay | solar_system_simulator.py:221-223 | I flips info, H flips help, any other key changes nothing |
| SolarSystemSimulator.ClockKey | solar_system_simulator.py:350-355 | SPACE flips the pause; + and keypad + multiply dt by 1.2; - and keypad - divide it by 1.2 |
| SolarSystemSimulator.DisplayKey | solar_system_simulator.py:362-363 | the fall-through branch changes the interface switches as toggle_display |
| SolarSystemSimulator.OnKeyDown | solar_system_simulator.py:346-363 | ESC, and only ESC, posts QUIT and changes nothing; the clock keys as ClockKey; O and N flip the solar system's switches; R resets only the camera; I and H go to toggle_display; other keys change nothing |
| SolarSystemSimulator.SpeedUpThenDown | solar_system_simulator.py:352-355 | + followed by - restores the whole control state |
| SolarSystemSimulator.Frame | solar_system_simulator.py:336-344 | KEYDOWNs are handled up to the first QUIT, which ends the frame with False; without a QUIT the camera then runs handle_input over all the frame's events |
| SolarSystemSimulator.FrameKeepsPosition | solar_system_simulator.py:336-344 | a frame without QUIT or R keeps running and never moves the camera position |
| SolarSystemSimulator.PumpKeys | solar_system_simulator.py:337-341 | the KEYDOWNs are handled up to the first QUIT; the loop goes on running if and only if no event of the frame is a QUIT |
| SolarSystemSimulator.PumpKeysKeepsCamera | solar_system_simulator.py:337-341 | KEYDOWNs other than R never change the camera |
| SolarSystemSimulator.Simulator.constructor | solar_system_simulator.py:289-298 | dt 1.0, not paused, orbits, names and info shown, help hidden, the camera at its defaults; the planets are the PLANET_PARAMS rows in order, each freshly constructed, all valid |
| SolarSystemSimulator.Simulator.HandleKeydown | solar_system_simulator.py:346-363 | the objects' state changes exactly as OnKeyDown, the QUIT flag is its second result, and no body changes |
| SolarSystemSimulator.Simulator.AdjustClock | solar_system_simulator.py:350-355 | the clock keys change dt and the pause flag as ClockKey |
| SolarSystemSimulator.Simulator.HandleEvents | solar_system_simulator.py:336-344 | the state, the running flag and the QUIT flag are exactly Frame of the old state, the held keys and the events |
| SolarSystemSimulator.Simulator.PumpEvents | solar_system_simulator.py:337-341 | the event loop changes the state as PumpKeys and no body changes |
| SolarSystemSimulator.Simulator.Update | solar_system_simulator.py:365-366 | one solar-system tick with the simulator's dt and pause flag: paused changes no planet, otherwise each planet advances once by dt; the sun never changes |
| SolarSystemSimulator.NameAt | solar_system_simulator.py:274-281 | a name is drawn if and only if the projection exists and lies inside the 1000×800 window, at (x, 800 - y - 30) |
| CameraControlDemo.DragTo | camera_control_demo.py:72-80 | yaw grows by 0.2·dx; pitch becomes pitch - 0.2·dy when that is within [-89, 89], -89 below and 89 above; the pointer is recorded; nothing else changes |
| CameraControlDemo.OnEvent | camera_control_demo.py:59-80 | button 1 starts a drag, wheel up multiplies the zoom by 1.1 and wheel down by 0.9, releasing 1 ends the drag, motion drags only while dragging; every other event (other buttons, keys, anything else) changes nothing; the position never changes |
| CameraControlDemo.Wasd | camera_control_demo.py:83-88 | W/S move y by +5/-5 and A/D move x by -5/+5; depth, rotation and zoom stay |
| CameraControlDemo.Frame | camera_control_demo.py:52-90 | the events are handled in order up to the first QUIT; the program goes on if and only if no event of the frame is a QUIT |
| CameraControlDemo.FrameKeepsSane | camera_control_demo.py:52-90 | any frame keeps the pitch in [-89, 89] and the zoom positive |
| CameraControlDemo.OnEventKeepsSane | camera_control_demo.py:59-80 | every single event keeps the pitch in [-89, 89] and the zoom positive |
| CameraControlDemo.InitialIsSane | camera_control_demo.py:29-39 | the initial camera (pitch 30, zoom 1) satisfies the invariant |
| CameraControlDemo.WheelUpThenDown | camera_control_demo.py:63-66 | wheel up then wheel down leaves 0.99 of the zoom, not the original |
| CameraControlDemo.ApplyCameraTransform | camera_control_demo.py:92-105 | absolute transform: load the identity first and never again, translate by (x, y, -600·zoom), then rotate pitch, yaw and roll |
| CameraControlDemo.TransformIgnoresDepth | camera_control_demo.py:96-100 | the stored depth never reaches the transform, and a sane camera always looks from in front of the origin |
| CameraControlDemo.WasdSlidesView | camera_control_demo.py:83-100 | WASD shifts the translation by exactly the key step and leaves the rotations unchanged |
| CameraControlDemo.IntegratedCameraTest.constructor | camera_control_demo.py:29-39 | position (0, 0, -600), rotation (30, 0, 0), zoom 1, drag speed 0.2, zoom speed 0.1, not dragging |
| CameraControlDemo.IntegratedCameraTest.HandleEvents | camera_control_demo.py:52-90 | the new state and the result are exactly Frame: events in order until the first QUIT (False, keyboard skipped), otherwise WASD and True |
| CameraControlDemo.IntegratedCameraTest.HandleEvent | camera_control_demo.py:59-80 | one pass of the event loop changes the state as OnEvent |
| CameraControlDemo.IntegratedCameraTest.MoveByKeys | camera_control_demo.py:83-88 | the keyboard block changes the state as Wasd |
| SimpleSolarSystem.OrbitPosition | simple_solar_system.py:50-52 | every computed point lies on the plane y = 0 |
| SimpleSolarSystem.PushSlides | simple_solar_system.py:52-54 | append then pop(0) past the capacity keeps the list equal to the last 50 points computed |
| SimpleSolarSystem.TrailStrip | simple_solar_system.py:66-76 | nothing for fewer than two points, otherwise the whole trail in order |
| SimpleSolarSystem.CelestialBody.constructor | simple_solar_system.py:38-46 | angle 0, empty trail, cap 50, the given distance, radius and colour |
| SimpleSolarSystem.CelestialBody.Update | simple_solar_system.py:48-54 | angle += speed; the trail is the last ≤50 positions computed, its length grows by one up to 50, and its last point is the body's drawn position |
| SimpleSolarSystem.CelestialBody.DrawPosition | simple_solar_system.py:56-58 | the body is drawn at the orbit point of its angle |
| SimpleSolarSystem.CelestialBody.DrawTrail | simple_solar_system.py:66-76 | the emitted vertices are TrailStrip of the trail |
| SimpleSolarSystem.RunFrames | simple_solar_system.py:151-160 | after n frames the angle has grown by 0.5·n and the trail holds min(old+n, 50) points |
| SimpleSolarSystem.CreateBodies | simple_solar_system.py:132-133 | the sun (0, 20, yellow) and the earth (100, 8, (0, 0.5, 1)) with an empty trail |

## Left out

- Every OpenGL, GLU and pygame call is left out: windows, lighting, quadrics,
  spheres, fonts, text surfaces, the clock, the event queue and
  `pygame.quit`. Events and held keys are given to the model as parameters.
  Drawing is modelled only as the list of vertices or matrix calls it would
  emit.
- `cos`, `sin` and `pi` are uninterpreted parameters of type `Trig`. Floats
  are modelled as exact reals, so float rounding is not modelled. This
  includes the float32 storage of the detailed and simulator trail arrays.
- The detailed program's trail drawing (detailed_solar_system.py.py:140-151)
  is not modelled. It draws the whole 300-row array whatever the live count.
- Starfields, orbit lines, colour brightening (`_enhanced_color`), the info
  and help overlays, lighting setup and the 2D/3D mode switches are not
  modelled. None of them affects the state modelled here.
- The main loops are modelled one frame at a time:
  - the detailed solar system's event handling and held keys
    (`DetailedSolarSystem.LoopFrame`, run by `DetailedSolarSystem.RunLoopFrame`);
  - the simulator's `_handle_events` and `_update`;
  - the demo's `handle_events`;
  - `SimpleSolarSystem.RunFrames` for a finite number of frames.

  Not modelled: the repetition of the loops, the frame waits and the frame
  counter, and, in the detailed loop, the drawing that follows the input
  handling. That loop's update step is `DetailedSolarSystem.SolarSystem.Update`.
- The QUIT that the simulator's ESC posts with `pygame.event.post` is
  returned as a flag. The model does not re-inject it into the next frame's
  events.
- The detailed program replaces the camera on R (`camera = Camera()`). The
  model reports this as the second result of `DetailedSolarSystem.OnKeyDown`.
  `DetailedSolarSystem.HandleLoopEvent` then binds a new camera from
  `DetailedSolarSystem.Camera.constructor`.
- The simulator's `Camera.apply` is not a separate member. It is identical
  to the detailed one, modelled by `OrbitCamera.Apply`.
- The programs `opengl_cube.py`, `opengl_triangle.py` and
  `relativity_black_hole(without_test).py` are not part of this model.

## Findings

| source | as written | input that shows it | evidently intended | confidence | as-written member | corrected member |
|---|---|---|---|---|---|---|
| solar_system_simulator.py:164-175 | `_draw_trail` reads slot `(trail_index - i) % 300` for i = 0 … count-1, starting at the slot about to be written next | any body after 2 to 299 updates: the strip starts at the origin (a still-zero slot) and never reaches slot 0, the oldest live point | walk the live points oldest first, slot `(trail_index - trail_count + i) % 300`, so that the alpha ramp fades in towards the newest point | not executed | SolarSystemSimulator.DrawnTrailWhileFilling | SolarSystemSimulator.LiveTrailIsLivePoints |
