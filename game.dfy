/** The page's global state as an object whose fields the handlers and the
    game loop update in place. Each handler and the game loop are proved to
    perform the corresponding transition of module World on the object's
    fields; the two halves of `update`, MovePlayer and FollowCamera, are
    proved against the functions of module Motion. */
module Game {
  import opened Config
  import opened Motion
  import Keys
  import World

  class Game {
    var x: real
    var y: real
    var camX: real
    var camY: real
    var keys: Keys.KeyTable
    var lastMoveTime: real
    var isResizing: bool
    var canvasWidth: nat
    var canvasHeight: nat

    /** The object's fields as one World.State value. */
    function Snapshot(): World.State
      reads this
    {
      World.State(x, y, camX, camY, keys, lastMoveTime, isResizing, canvasWidth, canvasHeight)
    }

    ghost predicate Valid()
      reads this
    {
      World.Inv(Snapshot())
    }

    /** Script load: the declared initial values, then the initial resize call. */
    constructor (width: nat, height: nat)
      ensures Valid()
      ensures Snapshot() == World.Loaded(width, height)
    {
      x, y := 0.0, 0.0;
      camX, camY := 0.0, 0.0;
      keys := Keys.Initial;
      lastMoveTime := 0.0;
      isResizing := false;
      canvasWidth, canvasHeight := width, height;
      new;
      BeginResize();
    }

    /** `update(dt)`: move the player, then make the camera follow. */
    method Update(dt: real)
      requires Valid()
      modifies this`x, this`y, this`camX, this`camY
      ensures Valid()
      ensures Snapshot() == World.Update(old(Snapshot()), dt)
    {
      MovePlayer(dt);
      FollowCamera();
    }

    /** The first half of `update`: the locals newX/newY start at the player,
        each held key moves one of them by MOVE_SPEED * dt, both are clamped
        into the map, and the player takes them. */
    method MovePlayer(dt: real)
      modifies this`x, this`y
      ensures x == ClampAxis(AxisCandidate(old(x), MOVE_SPEED * dt, Keys.Held(keys, "a"), Keys.Held(keys, "d")), MaxPos(MAP_WIDTH))
      ensures y == ClampAxis(AxisCandidate(old(y), MOVE_SPEED * dt, Keys.Held(keys, "w"), Keys.Held(keys, "s")), MaxPos(MAP_HEIGHT))
    {
      var dist := MOVE_SPEED * dt;
      var newX := x;
      var newY := y;
      if Keys.Held(keys, "w") { newY := newY - dist; }
      if Keys.Held(keys, "s") { newY := newY + dist; }
      if Keys.Held(keys, "a") { newX := newX - dist; }
      if Keys.Held(keys, "d") { newX := newX + dist; }

      if newX < 0.0 { newX := 0.0; }
      if newX > (MAP_WIDTH - 1) as real { newX := (MAP_WIDTH - 1) as real; }
      if newY < 0.0 { newY := 0.0; }
      if newY > (MAP_HEIGHT - 1) as real { newY := (MAP_HEIGHT - 1) as real; }

      x := newX;
      y := newY;
    }

    /** The second half of `update`: centre the camera on the player's tile,
        then clamp it against 0 and, last, against the map's far edge. */
    method FollowCamera()
      modifies this`camX, this`camY
      ensures camX == CameraAxis(x, MAP_WIDTH, canvasWidth)
      ensures camY == CameraAxis(y, MAP_HEIGHT, canvasHeight)
    {
      var centerX := (canvasWidth as real / SCALE as real) / 2.0;
      var centerY := (canvasHeight as real / SCALE as real) / 2.0;
      camX := x * TILE_SIZE as real - centerX + TILE_SIZE as real / 2.0;
      camY := y * TILE_SIZE as real - centerY + TILE_SIZE as real / 2.0;
      if camX < 0.0 { camX := 0.0; }
      if camY < 0.0 { camY := 0.0; }

      var mapPixelWidth := MAP_WIDTH * TILE_SIZE;
      var mapPixelHeight := MAP_HEIGHT * TILE_SIZE;
      var maxCameraX := mapPixelWidth as real - canvasWidth as real / SCALE as real;
      var maxCameraY := mapPixelHeight as real - canvasHeight as real / SCALE as real;
      if camX > maxCameraX { camX := maxCameraX; }
      if camY > maxCameraY { camY := maxCameraY; }
    }

    /** `gameLoop(timestamp)`, without the drawing and the re-scheduling. */
    method Tick(timestamp: real)
      requires Valid()
      modifies this
      ensures Valid()
      ensures Snapshot() == World.Tick(old(Snapshot()), timestamp)
    {
      if !isResizing {
        var dt := (timestamp - lastMoveTime) / 1000.0;
        if dt > 0.1 { dt := 0.1; }
        lastMoveTime := timestamp;
        Update(dt);
      }
    }

    /** The first animation frame's callback. */
    method FirstFrame(timestamp: real)
      requires Valid()
      modifies this
      ensures Valid()
      ensures Snapshot() == World.FirstFrame(old(Snapshot()), timestamp)
    {
      lastMoveTime := timestamp;
      Tick(timestamp);
    }

    /** `keydownHandle`. */
    method KeyDown(key: string)
      requires Valid()
      modifies this
      ensures Valid()
      ensures Snapshot() == old(Snapshot()).(keys := Keys.KeyDown(old(keys), key))
    {
      var k := Keys.ToLower(key);
      if k !in Keys.ValidKeys { return; }
      if k == "escape" { return; }
      keys := keys[k := true];
    }

    /** `keyupHandle`. */
    method KeyUp(key: string)
      requires Valid()
      modifies this
      ensures Valid()
      ensures Snapshot() == old(Snapshot()).(keys := Keys.KeyUp(old(keys), key))
    {
      keys := keys[Keys.ToLower(key) := false];
    }

    /** The window's blur handler. */
    method Blur()
      requires Valid()
      modifies this
      ensures Valid()
      ensures Snapshot() == old(Snapshot()).(keys := Keys.Blur(old(keys)))
    {
      keys := keys["w" := false];
      keys := keys["a" := false];
      keys := keys["s" := false];
      keys := keys["d" := false];
    }

    /** `resizeHandle`, without the timer: enter resizing mode. */
    method BeginResize()
      requires Valid()
      modifies this
      ensures Valid()
      ensures Snapshot() == World.BeginResize(old(Snapshot()))
    {
      isResizing := true;
    }

    /** The resize timer's callback, with the window's size passed in. */
    method EndResize(width: nat, height: nat)
      requires Valid()
      modifies this
      ensures Valid()
      ensures Snapshot() == World.EndResize(old(Snapshot()), width, height)
    {
      canvasWidth := width;
      canvasHeight := height;
      isResizing := false;
    }
  }
}
