/** The game's whole mutable state as one value, and what each event of the
    page does to it: a frame, a key press or release, focus loss, and the
    two ends of a window resize. The class `Game.Game` is proved to follow
    these transitions. */
module World {
  import opened Config
  import opened Motion
  import Keys

  datatype State = State(
    x: real, y: real,            // `userState`, in tiles
    camX: real, camY: real,      // `camera`, in unscaled pixels
    keys: Keys.KeyTable,         // `keys`
    lastMoveTime: real,          // `lastMoveTime`, in milliseconds
    isResizing: bool,            // `isResizing`
    canvasWidth: nat, canvasHeight: nat)

  /** What every reachable state keeps: the player on the map and the four
      movement keys in the table. */
  predicate Inv(s: State)
  {
    0.0 <= s.x <= MaxPos(MAP_WIDTH) && 0.0 <= s.y <= MaxPos(MAP_HEIGHT) &&
    Keys.HasMovementKeys(s.keys)
  }

  /** The camera the step derives for the state's player and canvas. */
  predicate CameraFollows(s: State)
  {
    s.camX == CameraAxis(s.x, MAP_WIDTH, s.canvasWidth) &&
    s.camY == CameraAxis(s.y, MAP_HEIGHT, s.canvasHeight)
  }

  /** The state once the script has loaded: the declared initial values, and
      `isResizing` already set by the initial call to the resize handler. */
  function Loaded(canvasWidth: nat, canvasHeight: nat): (s: State)
    ensures Inv(s) && s.isResizing
    ensures s.x == 0.0 && s.y == 0.0 && s.camX == 0.0 && s.camY == 0.0 && s.lastMoveTime == 0.0
    ensures forall k :: k in Keys.MovementKeys ==> !Keys.Held(s.keys, k)
  {
    State(0.0, 0.0, 0.0, 0.0, Keys.Initial, 0.0, true, canvasWidth, canvasHeight)
  }

  /** `update(dt)`: move, clamp, then recompute the camera. */
  function Update(s: State, dt: real): (t: State)
    ensures t.keys == s.keys && t.lastMoveTime == s.lastMoveTime && t.isResizing == s.isResizing
    ensures t.canvasWidth == s.canvasWidth && t.canvasHeight == s.canvasHeight
    ensures 0.0 <= t.x <= MaxPos(MAP_WIDTH) && 0.0 <= t.y <= MaxPos(MAP_HEIGHT)
    ensures CameraFollows(t)
  {
    var dist := MOVE_SPEED * dt;
    var cx := AxisCandidate(s.x, dist, Keys.Held(s.keys, "a"), Keys.Held(s.keys, "d"));
    var cy := AxisCandidate(s.y, dist, Keys.Held(s.keys, "w"), Keys.Held(s.keys, "s"));
    var nx := ClampAxis(cx, MaxPos(MAP_WIDTH));
    var ny := ClampAxis(cy, MaxPos(MAP_HEIGHT));
    s.(x := nx, y := ny,
       camX := CameraAxis(nx, MAP_WIDTH, s.canvasWidth),
       camY := CameraAxis(ny, MAP_HEIGHT, s.canvasHeight))
  }

  /** `gameLoop(timestamp)`: nothing while resizing; otherwise re-stamp and update. */
  function Tick(s: State, timestamp: real): (t: State)
    ensures s.isResizing ==> t == s
    ensures !s.isResizing ==> t.lastMoveTime == timestamp && CameraFollows(t)
    ensures !s.isResizing ==> 0.0 <= t.x <= MaxPos(MAP_WIDTH) && 0.0 <= t.y <= MaxPos(MAP_HEIGHT)
    ensures !s.isResizing ==> t == Update(s.(lastMoveTime := timestamp), FrameDt(timestamp, s.lastMoveTime))
  {
    if s.isResizing then s
    else
      var dt := FrameDt(timestamp, s.lastMoveTime);
      Update(s.(lastMoveTime := timestamp), dt)
  }

  /** The first animation frame: stamp the baseline, then run the loop once. */
  function FirstFrame(s: State, timestamp: real): (t: State)
    ensures t.lastMoveTime == timestamp
    ensures s.isResizing ==> t == s.(lastMoveTime := timestamp)
    ensures !s.isResizing && Inv(s) ==> t.x == s.x && t.y == s.y && CameraFollows(t)
    ensures !s.isResizing && Inv(s) ==> t == s.(lastMoveTime := timestamp,
      camX := CameraAxis(s.x, MAP_WIDTH, s.canvasWidth), camY := CameraAxis(s.y, MAP_HEIGHT, s.canvasHeight))
  {
    Tick(s.(lastMoveTime := timestamp), timestamp)
  }

  /** At load the page is still resizing, so the first frame only stamps the baseline. */
  lemma StartupFirstFrame(canvasWidth: nat, canvasHeight: nat, timestamp: real)
    ensures FirstFrame(Loaded(canvasWidth, canvasHeight), timestamp)
      == Loaded(canvasWidth, canvasHeight).(lastMoveTime := timestamp)
  {
  }

  /** `resizeHandle`: enter resizing mode. */
  function BeginResize(s: State): (t: State)
    ensures t.isResizing
    ensures forall timestamp :: Tick(t, timestamp) == t
    ensures t.(isResizing := s.isResizing) == s
  {
    s.(isResizing := true)
  }

  /** The resize handler's deferred callback: take the new canvas size and
      leave resizing mode. The camera is not recomputed here. */
  function EndResize(s: State, width: nat, height: nat): (t: State)
    ensures !t.isResizing && t.canvasWidth == width && t.canvasHeight == height
    ensures t.x == s.x && t.y == s.y && t.camX == s.camX && t.camY == s.camY
    ensures t.keys == s.keys && t.lastMoveTime == s.lastMoveTime
  {
    s.(canvasWidth := width, canvasHeight := height, isResizing := false)
  }

  datatype Event =
    | FirstFrameCallback(timestamp: real)
    | Frame(timestamp: real)
    | KeyDown(key: string)
    | KeyUp(key: string)
    | Blur
    | ResizeStart
    | ResizeEnd(width: nat, height: nat)

  function Apply(s: State, e: Event): State
  {
    match e
    case FirstFrameCallback(ts) => FirstFrame(s, ts)
    case Frame(ts) => Tick(s, ts)
    case KeyDown(k) => s.(keys := Keys.KeyDown(s.keys, k))
    case KeyUp(k) => s.(keys := Keys.KeyUp(s.keys, k))
    case Blur => s.(keys := Keys.Blur(s.keys))
    case ResizeStart => BeginResize(s)
    case ResizeEnd(w, h) => EndResize(s, w, h)
  }

  function Run(s: State, events: seq<Event>): State
    decreases |events|
  {
    if events == [] then s else Run(Apply(s, events[0]), events[1..])
  }

  lemma ApplyKeepsInv(s: State, e: Event)
    requires Inv(s)
    ensures Inv(Apply(s, e))
  {
  }

  /** No sequence of events takes the player off the map or drops a movement key. */
  lemma {:induction false} RunKeepsInv(s: State, events: seq<Event>)
    requires Inv(s)
    ensures Inv(Run(s, events))
    decreases |events|
  {
    if events != [] {
      ApplyKeepsInv(s, events[0]);
      RunKeepsInv(Apply(s, events[0]), events[1..]);
    }
  }

  /** Every state the page can reach satisfies Inv. */
  lemma Reachable(canvasWidth: nat, canvasHeight: nat, events: seq<Event>)
    ensures Inv(Run(Loaded(canvasWidth, canvasHeight), events))
  {
    RunKeepsInv(Loaded(canvasWidth, canvasHeight), events);
  }

  /** The camera after a frame that ran lies within [0, MaxCamera] on each axis
      when that bound is non-negative, and equals the bound when it is negative. */
  lemma CameraBoundsAfterFrame(s: State, timestamp: real)
    requires !s.isResizing
    ensures var t := Tick(s, timestamp);
      t.camX <= MaxCamera(MAP_WIDTH, t.canvasWidth) &&
      (MaxCamera(MAP_WIDTH, t.canvasWidth) >= 0.0 ==> t.camX >= 0.0) &&
      (MaxCamera(MAP_WIDTH, t.canvasWidth) < 0.0 ==> t.camX == MaxCamera(MAP_WIDTH, t.canvasWidth)) &&
      t.camY <= MaxCamera(MAP_HEIGHT, t.canvasHeight) &&
      (MaxCamera(MAP_HEIGHT, t.canvasHeight) >= 0.0 ==> t.camY >= 0.0) &&
      (MaxCamera(MAP_HEIGHT, t.canvasHeight) < 0.0 ==> t.camY == MaxCamera(MAP_HEIGHT, t.canvasHeight))
  {
  }

  /** The camera a step leaves behind does not depend on the camera it found. */
  lemma CameraForgetsHistory(s: State, c: State, dt: real)
    requires c == s.(camX := c.camX, camY := c.camY)
    ensures Update(c, dt) == Update(s, dt)
  {
  }

  /** Each axis moves at most MOVE_SPEED * dt in a step, from any position on the map. */
  lemma {:induction false} StepLength(s: State, dt: real)
    requires Inv(s) && dt >= 0.0
    ensures var t := Update(s, dt);
      -(MOVE_SPEED * dt) <= t.x - s.x <= MOVE_SPEED * dt &&
      -(MOVE_SPEED * dt) <= t.y - s.y <= MOVE_SPEED * dt
  {
    var dist := MOVE_SPEED * dt;
    var cx := AxisCandidate(s.x, dist, Keys.Held(s.keys, "a"), Keys.Held(s.keys, "d"));
    var cy := AxisCandidate(s.y, dist, Keys.Held(s.keys, "w"), Keys.Held(s.keys, "s"));
    ClampNonExpansive(cx, s.x, MaxPos(MAP_WIDTH));
    ClampNonExpansive(cy, s.y, MaxPos(MAP_HEIGHT));
  }

  /** A single held key moves its axis by MOVE_SPEED * dt in its direction,
      stopping at the edge of the map. */
  lemma UpdateMoves(s: State, dt: real)
    requires Inv(s) && dt >= 0.0
    ensures var t := Update(s, dt); var d := MOVE_SPEED * dt;
      (Keys.Held(s.keys, "d") && !Keys.Held(s.keys, "a") ==>
        t.x == if s.x + d > MaxPos(MAP_WIDTH) then MaxPos(MAP_WIDTH) else s.x + d) &&
      (Keys.Held(s.keys, "a") && !Keys.Held(s.keys, "d") ==>
        t.x == if s.x - d < 0.0 then 0.0 else s.x - d) &&
      (Keys.Held(s.keys, "s") && !Keys.Held(s.keys, "w") ==>
        t.y == if s.y + d > MaxPos(MAP_HEIGHT) then MaxPos(MAP_HEIGHT) else s.y + d) &&
      (Keys.Held(s.keys, "w") && !Keys.Held(s.keys, "s") ==>
        t.y == if s.y - d < 0.0 then 0.0 else s.y - d)
  {
  }

  /** Opposite keys cancel: holding both, or neither, leaves the axis where it was. */
  lemma OppositeKeysCancel(s: State, dt: real)
    requires Inv(s)
    ensures Keys.Held(s.keys, "a") == Keys.Held(s.keys, "d") ==> Update(s, dt).x == s.x
    ensures Keys.Held(s.keys, "w") == Keys.Held(s.keys, "s") ==> Update(s, dt).y == s.y
  {
  }

  /** Diagonal moves are not normalised: W with D, away from the edges,
      moves a full MOVE_SPEED * dt on both axes at once. */
  lemma DiagonalNotNormalised(s: State, dt: real)
    requires Inv(s) && dt >= 0.0
    requires Keys.Held(s.keys, "w") && Keys.Held(s.keys, "d")
    requires !Keys.Held(s.keys, "s") && !Keys.Held(s.keys, "a")
    requires s.x + MOVE_SPEED * dt <= MaxPos(MAP_WIDTH) && s.y - MOVE_SPEED * dt >= 0.0
    ensures Update(s, dt).x == s.x + MOVE_SPEED * dt
    ensures Update(s, dt).y == s.y - MOVE_SPEED * dt
  {
  }

  /** With no movement key held, a second step changes nothing more. */
  lemma IdleStepIdempotent(s: State, dt: real, dt': real)
    requires Inv(s)
    requires forall k :: k in Keys.MovementKeys ==> !Keys.Held(s.keys, k)
    ensures Update(Update(s, dt), dt') == Update(s, dt)
  {
  }

  /** A frame later than MAX_DT after the previous stamp moves the player exactly
      as far as a frame of MAX_DT. */
  lemma LongFrameCapped(s: State, timestamp: real)
    requires !s.isResizing && timestamp - s.lastMoveTime >= 100.0
    ensures Tick(s, timestamp) == Update(s.(lastMoveTime := timestamp), MAX_DT)
  {
  }

  predicate AllFrames(events: seq<Event>)
  {
    forall i :: 0 <= i < |events| ==> events[i].Frame?
  }

  /** Frames that arrive while resizing leave the whole state untouched. */
  lemma {:induction false} SuspendedFrames(s: State, frames: seq<Event>)
    requires s.isResizing && AllFrames(frames)
    ensures Run(s, frames) == s
    decreases |frames|
  {
    if frames != [] {
      assert Apply(s, frames[0]) == s;
      SuspendedFrames(s, frames[1..]);
    }
  }

  lemma {:induction false} RunAppend(s: State, a: seq<Event>, b: seq<Event>)
    ensures Run(s, a + b) == Run(Run(s, a), b)
    decreases |a|
  {
    if a != [] {
      assert (a + b)[0] == a[0];
      assert (a + b)[1..] == a[1..] + b;
      RunAppend(Apply(s, a[0]), a[1..], b);
    } else {
      assert a + b == b;
    }
  }

  /** A resize round trip does not re-stamp the baseline: the first frame after
      it measures from the last frame before the resize began, so after a pause
      of 100 ms or more it takes the full MAX_DT step. */
  lemma {:induction false} ResumeUsesStaleBaseline(
    s: State, frames: seq<Event>, width: nat, height: nat, timestamp: real)
    requires AllFrames(frames)
    ensures var r := Run(s, [ResizeStart] + frames + [ResizeEnd(width, height)]);
      r == s.(isResizing := false, canvasWidth := width, canvasHeight := height) &&
      Tick(r, timestamp) == Update(r.(lastMoveTime := timestamp), FrameDt(timestamp, s.lastMoveTime))
    ensures timestamp - s.lastMoveTime >= 100.0 ==>
      var r := Run(s, [ResizeStart] + frames + [ResizeEnd(width, height)]);
      Tick(r, timestamp) == Update(r.(lastMoveTime := timestamp), MAX_DT)
  {
    var b := BeginResize(s);
    RunAppend(s, [ResizeStart] + frames, [ResizeEnd(width, height)]);
    RunAppend(s, [ResizeStart], frames);
    assert Run(s, [ResizeStart]) == b by {
      assert Run(b, []) == b;
    }
    SuspendedFrames(b, frames);
    assert Run(b, [ResizeEnd(width, height)]) == EndResize(b, width, height) by {
      assert Run(EndResize(b, width, height), []) == EndResize(b, width, height);
    }
  }
}
