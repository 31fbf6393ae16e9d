/** The input and camera-mode controller of the view manager
    (Source/ViewManager.cpp): scroll-controlled movement speed, mouse offsets
    with first-event seeding, the orthographic/perspective keys, vertical
    movement along the camera's up vector, frame timing and the choice of
    projection parameters. */
module View {
  import opened Vectors

  const WindowWidth: real := 1000.0
  const WindowHeight: real := 800.0
  const NearPlane: real := 0.1
  const FarPlane: real := 100.0
  const OrthoHalfHeight: real := 10.0
  const MinSpeed: real := 1.0
  const MaxSpeed: real := 50.0

  /** The keys the controller polls each frame. */
  datatype Key = Escape | P | O | W | S | A | D | Q | E

  /** Directions handed to the camera's own keyboard handler. */
  datatype Direction = Forward | Backward | Left | Right

  /** One call of the camera's keyboard handler: a direction and the frame
      delta it is scaled by. */
  datatype KeyboardMove = KeyboardMove(direction: Direction, deltaTime: real)

  /** Where the camera is and where it looks. */
  datatype CameraPose = CameraPose(position: Vec3, front: Vec3, up: Vec3, yaw: real, pitch: real)

  /** The head-on pose the orthographic key snaps to: at (0, 0, 10), looking
      down -Z, +Y up, yaw -90 degrees, level pitch. */
  const CanonicalPose := CameraPose(Vec3(0.0, 0.0, 10.0), Vec3(0.0, 0.0, -1.0), Vec3(0.0, 1.0, 0.0), -90.0, 0.0)

  /** Last pointer position and whether the next event is the first one. */
  datatype MouseTracker = MouseTracker(lastX: real, lastY: real, firstMouse: bool)

  /** The tracker after a pointer event and the offsets handed to the camera. */
  datatype PointerMove = PointerMove(tracker: MouseTracker, xOffset: real, yOffset: real)

  datatype CursorEvent = CursorEvent(x: real, y: real)

  /** Time since the previous frame and the timestamp of that frame. */
  datatype FrameClock = FrameClock(deltaTime: real, lastFrame: real)

  /** Projection parameters: an orthographic box or a perspective frustum. */
  datatype Projection =
    | Orthographic(left: real, right: real, bottom: real, top: real, near: real, far: real)
    | Perspective(fovDegrees: real, aspect: real, near: real, far: real)

  function Distance(a: real, b: real): real
  {
    if a < b then b - a else a - b
  }

  /** The scroll handler's speed limit: raise to 1, then lower to 50. The
      result is the point of [1, 50] nearest to `speed`. */
  function ClampSpeed(speed: real): (r: real)
    ensures MinSpeed <= r <= MaxSpeed
    ensures MinSpeed <= speed <= MaxSpeed ==> r == speed
    ensures forall v :: MinSpeed <= v <= MaxSpeed ==> Distance(r, speed) <= Distance(v, speed)
  {
    var raised := if speed < MinSpeed then MinSpeed else speed;
    if raised > MaxSpeed then MaxSpeed else raised
  }

  /** Movement speed after a run of scroll events, oldest first. */
  function SpeedAfterScrolls(speed: real, offsets: seq<real>): real
    decreases |offsets|
  {
    if |offsets| == 0 then speed
    else SpeedAfterScrolls(ClampSpeed(speed + offsets[0]), offsets[1..])
  }

  /** However large the scroll input, after at least one scroll event (or
      from a speed already in range) the speed lies in [1, 50]. */
  lemma {:induction false} ScrollsKeepSpeedInRange(speed: real, offsets: seq<real>)
    requires |offsets| > 0 || MinSpeed <= speed <= MaxSpeed
    ensures MinSpeed <= SpeedAfterScrolls(speed, offsets) <= MaxSpeed
    decreases |offsets|
  {
    if |offsets| > 0 {
      ScrollsKeepSpeedInRange(ClampSpeed(speed + offsets[0]), offsets[1..]);
    }
  }

  /** One pointer event: the first event seeds the last position from itself;
      the X offset runs left to right, the Y offset is inverted because screen
      Y grows downwards; the event becomes the last position. */
  function MouseStep(m: MouseTracker, x: real, y: real): PointerMove
  {
    var seeded := if m.firstMouse then MouseTracker(x, y, false) else m;
    PointerMove(MouseTracker(x, y, false), x - seeded.lastX, seeded.lastY - y)
  }

  /** The tracker after a run of pointer events, with the offsets summed. */
  function TrackPointer(m: MouseTracker, events: seq<CursorEvent>): PointerMove
    decreases |events|
  {
    if |events| == 0 then PointerMove(m, 0.0, 0.0)
    else
      var step := MouseStep(m, events[0].x, events[0].y);
      var rest := TrackPointer(step.tracker, events[1..]);
      PointerMove(rest.tracker, step.xOffset + rest.xOffset, step.yOffset + rest.yOffset)
  }

  /** The first pointer event moves the camera by nothing. */
  lemma FirstPointerEventIsStill(m: MouseTracker, x: real, y: real)
    requires m.firstMouse
    ensures MouseStep(m, x, y).xOffset == 0.0 && MouseStep(m, x, y).yOffset == 0.0
    ensures !MouseStep(m, x, y).tracker.firstMouse
  {
  }

  /** The offsets of a run of pointer events add up to the net pointer
      displacement from the starting point, which for a fresh tracker is the
      first event itself: no spurious jump, whatever the prior position. */
  lemma {:induction false} PointerOffsetsTelescope(m: MouseTracker, events: seq<CursorEvent>)
    requires |events| > 0
    ensures var r := TrackPointer(m, events);
            var last := events[|events| - 1];
            var start := if m.firstMouse then events[0] else CursorEvent(m.lastX, m.lastY);
            r.tracker == MouseTracker(last.x, last.y, false)
            && r.xOffset == last.x - start.x
            && r.yOffset == start.y - last.y
    decreases |events|
  {
    var step := MouseStep(m, events[0].x, events[0].y);
    if |events| > 1 {
      PointerOffsetsTelescope(step.tracker, events[1..]);
      assert events[1..][|events[1..]| - 1] == events[|events| - 1];
    }
  }

  /** One frame's timing: the delta since the last frame, then the new last
      frame. No clamp is applied. */
  function Tick(c: FrameClock, now: real): FrameClock
  {
    FrameClock(now - c.lastFrame, now)
  }

  /** Sum of the frame deltas over a run of frame timestamps. */
  function ElapsedOver(c: FrameClock, times: seq<real>): real
    decreases |times|
  {
    if |times| == 0 then 0.0
    else
      var next := Tick(c, times[0]);
      next.deltaTime + ElapsedOver(next, times[1..])
  }

  /** The deltas of a run of frames add up to the time between the last
      frame before the run and the final frame. */
  lemma {:induction false} FrameDeltasTelescope(c: FrameClock, times: seq<real>)
    requires |times| > 0
    ensures ElapsedOver(c, times) == times[|times| - 1] - c.lastFrame
    decreases |times|
  {
    if |times| > 1 {
      FrameDeltasTelescope(Tick(c, times[0]), times[1..]);
      assert times[1..][|times[1..]| - 1] == times[|times| - 1];
    }
  }

  /** Nothing bounds the delta: a clock that goes backwards yields a negative
      delta. */
  lemma BackwardsClockGivesNegativeDelta(c: FrameClock, now: real)
    ensures Tick(c, now).deltaTime < 0.0 <==> now < c.lastFrame
    ensures Tick(c, now).lastFrame == now
  {
  }

  /** The projection flag after one keyboard poll: P clears it, then O sets
      it, so O wins when both are held. */
  function ModeAfterPoll(orthographic: bool, keys: set<Key>): bool
  {
    var afterP := if P in keys then false else orthographic;
    if O in keys then true else afterP
  }

  /** The pose after the projection keys: O snaps to the canonical pose, P
      leaves the pose alone. */
  function SnapForKeys(p: CameraPose, keys: set<Key>): CameraPose
  {
    if O in keys then CanonicalPose else p
  }

  /** The pose after the vertical keys: Q raises and E lowers the position
      along the up vector by speed times the frame delta. */
  function LiftForKeys(p: CameraPose, keys: set<Key>, speed: real, deltaTime: real): CameraPose
  {
    var lift := Scale(Scale(p.up, speed), deltaTime);
    var raised := if Q in keys then Add(p.position, lift) else p.position;
    var lowered := if E in keys then Sub(raised, lift) else raised;
    p.(position := lowered)
  }

  /** The camera pose after one keyboard poll, apart from the W/S/A/D moves
      that the camera's own handler applies: the projection keys first, then
      the vertical keys. */
  function PoseAfterPoll(p: CameraPose, keys: set<Key>, speed: real, deltaTime: real): CameraPose
  {
    LiftForKeys(SnapForKeys(p, keys), keys, speed, deltaTime)
  }

  /** The calls handed to the camera's own keyboard handler, in poll order. */
  function DirectionalMoves(keys: set<Key>, deltaTime: real): seq<KeyboardMove>
  {
    (if W in keys then [KeyboardMove(Forward, deltaTime)] else [])
    + (if S in keys then [KeyboardMove(Backward, deltaTime)] else [])
    + (if A in keys then [KeyboardMove(Left, deltaTime)] else [])
    + (if D in keys then [KeyboardMove(Right, deltaTime)] else [])
  }

  /** Holding O yields the orthographic flag and the same pose whatever the
      pose and flag were before; with neither or both of Q and E held the
      pose is exactly the canonical one. */
  lemma OrthoSnapIgnoresPriorPose(p1: CameraPose, p2: CameraPose, mode: bool, keys: set<Key>, speed: real, deltaTime: real)
    requires O in keys
    ensures ModeAfterPoll(mode, keys)
    ensures PoseAfterPoll(p1, keys, speed, deltaTime) == PoseAfterPoll(p2, keys, speed, deltaTime)
    ensures var r := PoseAfterPoll(p1, keys, speed, deltaTime);
            r.front == CanonicalPose.front && r.up == CanonicalPose.up
            && r.yaw == CanonicalPose.yaw && r.pitch == CanonicalPose.pitch
    ensures (Q in keys <==> E in keys) ==> PoseAfterPoll(p1, keys, speed, deltaTime) == CanonicalPose
  {
  }

  /** P only clears the flag (unless O is also held): it never changes the
      pose. */
  lemma PerspectiveKeepsPose(p: CameraPose, mode: bool, keys: set<Key>, speed: real, deltaTime: real)
    ensures PoseAfterPoll(p, keys + {P}, speed, deltaTime) == PoseAfterPoll(p, keys - {P}, speed, deltaTime)
    ensures O !in keys ==> !ModeAfterPoll(mode, keys + {P})
    ensures PoseAfterPoll(p, {P}, speed, deltaTime) == p
  {
  }

  /** Polling the same keys twice leaves the flag as one poll does. */
  lemma ModeSwitchIdempotent(mode: bool, keys: set<Key>)
    ensures ModeAfterPoll(ModeAfterPoll(mode, keys), keys) == ModeAfterPoll(mode, keys)
  {
  }

  /** Without O, Q alone moves the position up by speed times delta along the
      up vector, E alone moves it down by as much, both together cancel; the
      orientation never changes. */
  lemma VerticalMoves(p: CameraPose, keys: set<Key>, speed: real, deltaTime: real)
    requires O !in keys
    ensures var r := PoseAfterPoll(p, keys, speed, deltaTime);
            var lift := Scale(Scale(p.up, speed), deltaTime);
            r.front == p.front && r.up == p.up && r.yaw == p.yaw && r.pitch == p.pitch
            && (Q in keys && E !in keys ==> r.position == Add(p.position, lift))
            && (E in keys && Q !in keys ==> r.position == Sub(p.position, lift))
            && ((Q in keys <==> E in keys) ==> r == p)
  {
  }

  /** The projection parameters for the current mode: orthographic bounds
      centred on the view axis with half-height 10 and the window's aspect
      ratio, or a perspective frustum with the camera's zoom as field of view;
      near 0.1 and far 100 either way. */
  function ProjectionFor(orthographic: bool, zoom: real): (r: Projection)
    ensures r.Orthographic? <==> orthographic
    ensures r.near == NearPlane && r.far == FarPlane
    ensures r.Orthographic? ==>
      r.left == -r.right && r.bottom == -r.top && r.top == OrthoHalfHeight
      && r.right * WindowHeight == r.top * WindowWidth
    ensures r.Perspective? ==> r.fovDegrees == zoom && r.aspect * WindowHeight == WindowWidth
  {
    var aspect := WindowWidth / WindowHeight;
    if orthographic then
      var halfWidth := OrthoHalfHeight * aspect;
      Orthographic(-halfWidth, halfWidth, -OrthoHalfHeight, OrthoHalfHeight, NearPlane, FarPlane)
    else
      Perspective(zoom, aspect, NearPlane, FarPlane)
  }

  /** The orthographic box is 25 by 20 world units, whatever the zoom. */
  lemma OrthographicBounds(zoom: real)
    ensures ProjectionFor(true, zoom) == Orthographic(-12.5, 12.5, -10.0, 10.0, 0.1, 100.0)
  {
  }

  /** The fields of the camera that the view manager reads and writes. */
  class Camera {
    var position: Vec3
    var front: Vec3
    var up: Vec3
    var yaw: real
    var pitch: real
    var zoom: real
    var movementSpeed: real

    function Pose(): CameraPose
      reads this
    {
      CameraPose(position, front, up, yaw, pitch)
    }

    constructor (pose: CameraPose, zoom: real, movementSpeed: real)
      ensures Pose() == pose && this.zoom == zoom && this.movementSpeed == movementSpeed
    {
      position := pose.position;
      front := pose.front;
      up := pose.up;
      yaw := pose.yaw;
      pitch := pose.pitch;
      this.zoom := zoom;
      this.movementSpeed := movementSpeed;
    }
  }

  /** The controller's state: the camera (possibly absent) and the pointer,
      timing and projection-mode variables shared by its callbacks. */
  class ViewManager {
    var camera: Camera?
    var lastX: real
    var lastY: real
    var firstMouse: bool
    var deltaTime: real
    var lastFrame: real
    var orthographic: bool

    function Tracker(): MouseTracker
      reads this
    {
      MouseTracker(lastX, lastY, firstMouse)
    }

    function Clock(): FrameClock
      reads this
    {
      FrameClock(deltaTime, lastFrame)
    }

    /** Creates the camera with the default view. `defaultYaw` and
        `defaultPitch` are the camera's own defaults, which this constructor
        does not override. */
    constructor (defaultYaw: real, defaultPitch: real)
      ensures camera != null && fresh(camera)
      ensures camera.Pose() == CameraPose(Vec3(0.5, 5.5, 10.0), Vec3(0.0, -0.5, -2.0), Vec3(0.0, 1.0, 0.0), defaultYaw, defaultPitch)
      ensures camera.zoom == 80.0 && camera.movementSpeed == 10.0
      ensures Tracker() == MouseTracker(WindowWidth / 2.0, WindowHeight / 2.0, true)
      ensures Clock() == FrameClock(0.0, 0.0)
      ensures !orthographic
    {
      lastX := WindowWidth / 2.0;
      lastY := WindowHeight / 2.0;
      firstMouse := true;
      deltaTime := 0.0;
      lastFrame := 0.0;
      orthographic := false;
      camera := new Camera(
        CameraPose(Vec3(0.5, 5.5, 10.0), Vec3(0.0, -0.5, -2.0), Vec3(0.0, 1.0, 0.0), defaultYaw, defaultPitch),
        80.0, 10.0);
    }

    /** Adds the scroll amount to the movement speed and clamps it to
        [1, 50]; does nothing without a camera. */
    method ScrollCallback(yoffset: real)
      modifies camera
      ensures camera != null ==>
        camera.movementSpeed == ClampSpeed(old(camera.movementSpeed) + yoffset)
        && camera.Pose() == old(camera.Pose()) && camera.zoom == old(camera.zoom)
    {
      if camera == null {
        return;
      }
      var newSpeed := camera.movementSpeed + yoffset;
      if newSpeed < MinSpeed {
        newSpeed := MinSpeed;
      }
      if newSpeed > MaxSpeed {
        newSpeed := MaxSpeed;
      }
      camera.movementSpeed := newSpeed;
    }

    /** Records the pointer position and returns the offsets handed to the
        camera's mouse handler. The source dereferences the camera here
        without a check, hence the precondition. */
    method MousePositionCallback(x: real, y: real) returns (xOffset: real, yOffset: real)
      requires camera != null
      modifies this`lastX, this`lastY, this`firstMouse
      ensures PointerMove(Tracker(), xOffset, yOffset) == MouseStep(old(Tracker()), x, y)
    {
      if firstMouse {
        lastX := x;
        lastY := y;
        firstMouse := false;
      }
      xOffset := x - lastX;
      yOffset := lastY - y;
      lastX := x;
      lastY := y;
    }

    /** One poll of the held keys. Escape asks for the window to close; P
        clears and O sets the orthographic flag, O also snapping the pose;
        W/S/A/D are handed to the camera's handler (returned, in order); Q and
        E move along the camera's up vector. The O branch dereferences the
        camera before the source's null check, hence the precondition. */
    method ProcessKeyboardEvents(keys: set<Key>) returns (shouldClose: bool, moves: seq<KeyboardMove>)
      requires camera != null
      modifies this`orthographic, camera
      ensures shouldClose <==> Escape in keys
      ensures orthographic == ModeAfterPoll(old(orthographic), keys)
      ensures camera.Pose() == PoseAfterPoll(old(camera.Pose()), keys, camera.movementSpeed, deltaTime)
      ensures camera.zoom == old(camera.zoom) && camera.movementSpeed == old(camera.movementSpeed)
      ensures moves == DirectionalMoves(keys, deltaTime)
    {
      shouldClose := Escape in keys;
      SwitchProjection(keys);
      moves := DirectionalMoves(keys, deltaTime);
      MoveVertically(keys);
    }

    /** The P and O part of a keyboard poll. */
    method SwitchProjection(keys: set<Key>)
      requires camera != null
      modifies this`orthographic, camera
      ensures orthographic == ModeAfterPoll(old(orthographic), keys)
      ensures camera.Pose() == SnapForKeys(old(camera.Pose()), keys)
      ensures camera.zoom == old(camera.zoom) && camera.movementSpeed == old(camera.movementSpeed)
    {
      if P in keys {
        orthographic := false;
      }
      if O in keys {
        orthographic := true;
        camera.position := CanonicalPose.position;
        camera.front := CanonicalPose.front;
        camera.up := CanonicalPose.up;
        camera.yaw := CanonicalPose.yaw;
        camera.pitch := CanonicalPose.pitch;
      }
    }

    /** The Q and E part of a keyboard poll. */
    method MoveVertically(keys: set<Key>)
      requires camera != null
      modifies camera
      ensures camera.Pose() == LiftForKeys(old(camera.Pose()), keys, camera.movementSpeed, deltaTime)
      ensures camera.zoom == old(camera.zoom) && camera.movementSpeed == old(camera.movementSpeed)
    {
      if Q in keys {
        camera.position := Add(camera.position, Scale(Scale(camera.up, camera.movementSpeed), deltaTime));
      }
      if E in keys {
        camera.position := Sub(camera.position, Scale(Scale(camera.up, camera.movementSpeed), deltaTime));
      }
    }

    /** One frame: update the timing, poll the keys with the new delta, then
        choose the projection for the (possibly just switched) mode. */
    method PrepareSceneView(now: real, keys: set<Key>)
      returns (projection: Projection, shouldClose: bool, moves: seq<KeyboardMove>)
      requires camera != null
      modifies this`deltaTime, this`lastFrame, this`orthographic, camera
      ensures Clock() == Tick(old(Clock()), now)
      ensures shouldClose <==> Escape in keys
      ensures orthographic == ModeAfterPoll(old(orthographic), keys)
      ensures camera.Pose() == PoseAfterPoll(old(camera.Pose()), keys, camera.movementSpeed, deltaTime)
      ensures camera.zoom == old(camera.zoom) && camera.movementSpeed == old(camera.movementSpeed)
      ensures moves == DirectionalMoves(keys, deltaTime)
      ensures projection == ProjectionFor(orthographic, camera.zoom)
    {
      deltaTime := now - lastFrame;
      lastFrame := now;
      shouldClose, moves := ProcessKeyboardEvents(keys);
      projection := ProjectionFor(orthographic, camera.zoom);
    }
  }

  /** The first pointer event is still; the next one moves by the pointer's
      displacement, with Y inverted. A large scroll is capped. */
  method PointerScenario()
  {
    var view := new ViewManager(-90.0, 0.0);
    var dx, dy := view.MousePositionCallback(120.0, 640.0);
    assert dx == 0.0 && dy == 0.0;
    dx, dy := view.MousePositionCallback(130.0, 600.0);
    assert dx == 10.0 && dy == 40.0;
    view.ScrollCallback(1000.0);
    assert view.camera.movementSpeed == MaxSpeed;
  }

  /** A frame with O held snaps the pose and selects the 25 by 20
      orthographic box. */
  method OrthographicScenario(now: real)
  {
    var view := new ViewManager(-90.0, 0.0);
    var projection, close, moves := view.PrepareSceneView(now, {O});
    OrthoSnapIgnoresPriorPose(CanonicalPose, CanonicalPose, false, {O}, view.camera.movementSpeed, view.deltaTime);
    assert view.orthographic && view.camera.Pose() == CanonicalPose;
    assert projection == Orthographic(-12.5, 12.5, -10.0, 10.0, 0.1, 100.0);
  }

  /** A frame with P held returns to perspective and keeps the pose. */
  method PerspectiveScenario(view: ViewManager, now: real)
    requires view.camera != null && view.orthographic
    modifies view, view.camera
  {
    ghost var before := view.camera.Pose();
    PerspectiveKeepsPose(before, true, {}, view.camera.movementSpeed, now - view.lastFrame);
    var projection, close, moves := view.PrepareSceneView(now, {P});
    assert !view.orthographic && view.camera.Pose() == before;
    assert projection.Perspective? && projection.fovDegrees == view.camera.zoom;
  }
}
