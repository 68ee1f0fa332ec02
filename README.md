# wasd_cat game loop, modelled in Dafny

`main.js` of wasd_cat runs a small browser tile-map prototype. A player stands on a
32 x 32 grid and moves with W/A/S/D. A camera follows the player and is clamped to the
map edges. The loop pauses while the window is being resized. This project models the
logic beneath the canvas and DOM calls, and proves its clamping and gating properties.

- `config.dfy`, module `Config`: the `CONFIG` constants and the `TILE_TYPE` codes.
- `tilemap.dfy`, module `TileMap`: the base layer `mapL1`. It is a comprehension, so it
  is modelled as a function: water within 3 tiles of an edge, grass elsewhere.
- `keys.dfy`, module `Keys`: the `keys` table (`map<string, bool>`) and what
  `keydownHandle`, `keyupHandle` and the blur handler do to it.
- `motion.dfy`, module `Motion`: the per-axis arithmetic of `update` and `gameLoop`. This
  covers the candidate move, the clamp into the map, the camera axis and the capped
  frame time.
- `world.dfy`, module `World`: the page's whole mutable state as one value, with one
  transition per event. It also defines event traces and the lemmas about them.
- `game.dfy`, module `Game`: class `Game`. Its fields are the page's globals
  (`userState`, `camera`, `keys`, `lastMoveTime`, `isResizing`, the canvas size). Its
  methods update them in place, as the source does. Each event handler and the game loop
  are proved to perform the matching `World` transition. `update` is split into two
  methods for its two halves: `MovePlayer` is proved against `Motion.AxisCandidate` and
  `Motion.ClampAxis`, and `FollowCamera` against `Motion.CameraAxis`.

Positions, the camera, timestamps and `dt` are `real`. Canvas width and height are `nat`.
The window size reaches the model as the arguments of `EndResize`.

`main.js` does not re-stamp `lastMoveTime` when a resize ends (main.js:85-97). The first
frame after a resize therefore measures dt from the last frame before it.
`World.ResumeUsesStaleBaseline` states this.

## Model

| member | source | states |
|---|---|---|
| `Config.Code` | main.js:40-46 | GRASS is code 0, WATER is code 1, and every code is below 5 |
| `Config.FromCode` | main.js:40-46 | a code names a tile exactly when it is in 0..4, and the tile it names has that code |
| `TileMap.Generate` | main.js:55-62 | a cell of the map is WATER iff fewer than 3 tiles separate it from the nearest edge (its distance to the edge, defined independently as a minimum), and GRASS otherwise; no other tile is generated |
| `TileMap.MapL1` | main.js:54-63 | the layer has exactly MAP_HEIGHT rows of MAP_WIDTH cells; each cell is WATER iff x < 3, x >= MAP_WIDTH-3, y < 3 or y >= MAP_HEIGHT-3, equivalently iff its distance to the nearest edge is below 3, and GRASS otherwise |
| `TileMap.OnlyGrassAndWater` | main.js:54-63 | only codes 0 and 1 are placed; BUSH, TREE and WALL never appear |
| `TileMap.MirrorSymmetric` | main.js:57 | the border rule is symmetric under point reflection and under transposition |
| `TileMap.GrassArea` | main.js:54-63 | exactly 676 cells, the 26 x 26 interior, are grass |
| `Keys.ToLower` | main.js:205 | lower-casing keeps the length and maps each character on its own |
| `Keys.ToLowerIdempotent` | main.js:205 | lower-casing a lower-cased key changes nothing |
| `Keys.KeyDown` | main.js:203-216 | keydown sets the entry to true for a lower-cased w, a, s or d, and leaves the table unchanged for `escape` and every other key |
| `Keys.KeyUp` | main.js:218-220 | keyup sets the lower-cased key to false, adds it if missing, and changes no other entry |
| `Keys.Blur` | main.js:198-201 | blur releases all four movement keys, adds any that are missing, and leaves other entries alone |
| `Keys.BlurIdempotent` | main.js:198-201 | blurring twice is the same as blurring once |
| `Keys.PressRelease` | main.js:203-220 | a key released in any letter case is not held; pressing it again holds it iff it is a movement key |
| `Keys.HandlersKeepMovementKeys` | main.js:198-220 | no handler removes one of the four movement keys from the table |
| `Motion.AxisCandidate` | main.js:103-112 | opposite keys held together, or neither, leave the axis unchanged; one key moves it by exactly dist; it never moves more than dist |
| `Motion.ClampAxis` | main.js:115-118 | the result lies in [0, hi]; a value already there is kept; a value below becomes 0; a value above becomes hi |
| `Motion.ClampNonExpansive` | main.js:115-118 | clamping never increases the distance between two positions |
| `Motion.CameraAxis` | main.js:125-145 | the camera never exceeds mapPixel - view; it is at least 0 when that bound is non-negative; it equals the bound when the bound is negative; it is centred on the player's tile when that fits; it is 0 when the centred offset is negative and the bound is not, and equals the bound when the centred offset exceeds it |
| `Motion.CameraMonotone` | main.js:129-145 | the camera offset grows with the player's position |
| `Motion.FrameDt` | main.js:228-229 | dt is at most 0.1; it equals 0.1 exactly when 100 ms or more have elapsed; otherwise it is the elapsed time in seconds |
| `World.Loaded` | main.js:18-36 | the loaded page has the player at (0, 0), the camera at (0, 0), the baseline at 0, the four movement keys present and released, and resizing already under way (main.js:242) |
| `World.Update` | main.js:101-147 | update (whose per-key moves `World.UpdateMoves` and `World.OppositeKeysCancel` give) leaves the player in [0, MAP_WIDTH-1] x [0, MAP_HEIGHT-1]; the camera is derived from the new position and canvas; keys, timestamps, canvas and the resize flag are untouched |
| `World.Tick` | main.js:223-235 | while resizing, a frame changes nothing; otherwise it stamps lastMoveTime, leaves the player on the map with the camera following it, and is the update with the capped dt |
| `World.FirstFrame` | main.js:245-248 | the first frame stamps the baseline; a running first frame sees dt = 0, leaves the player in place, derives the camera from it, and keeps the keys, canvas size and resize flag |
| `World.StartupFirstFrame` | main.js:242-248 | at load the first frame only stamps the baseline, because the initial resize is still pending |
| `World.BeginResize` | main.js:74-76 | resizing mode is entered, every frame is then a no-op, and nothing else changes |
| `World.EndResize` | main.js:85-97 | resizing mode ends with the new canvas size; the player, camera, keys and baseline are not touched |
| `World.ApplyKeepsInv` | main.js:101-248 | every event, the first-frame callback included, keeps the player on the map and the movement keys in the table |
| `World.RunKeepsInv` | main.js:101-239 | every sequence of events does the same |
| `World.Reachable` | main.js:18-248 | every state reached from the loaded page by any sequence of events, including the first-frame callback, satisfies the invariant |
| `World.CameraBoundsAfterFrame` | main.js:132-145 | after a frame that runs, each camera axis is at most mapPixel - view, at least 0 when that bound is non-negative, and equal to it when it is negative |
| `World.CameraForgetsHistory` | main.js:125-145 | the camera after a step does not depend on the camera before it |
| `World.StepLength` | main.js:103-118 | from any position on the map, each axis moves at most MOVE_SPEED * dt per step |
| `World.OppositeKeysCancel` | main.js:109-118 | with both or neither of a pair of opposite keys held, that axis does not move |
| `World.UpdateMoves` | main.js:109-118 | a single held key moves its axis by MOVE_SPEED * dt in its direction, stopping at 0 or at MAP_WIDTH-1 / MAP_HEIGHT-1 |
| `World.DiagonalNotNormalised` | main.js:109-112 | W with D moves a full MOVE_SPEED * dt on both axes at once |
| `World.IdleStepIdempotent` | main.js:101-147 | with no movement key held, a second update changes nothing |
| `World.LongFrameCapped` | main.js:228-233 | a frame 100 ms or more after the baseline moves the player as far as a 0.1 s frame |
| `World.SuspendedFrames` | main.js:225-235 | any number of frames during a resize leave the whole state unchanged |
| `World.ResumeUsesStaleBaseline` | main.js:223-235 | after a resize round trip, the first frame measures dt from the last stamp before the resize, so after 100 ms or more it takes the full 0.1 s step |
| `Game.Game.constructor` | main.js:18-36 | the object starts in the loaded state |
| `Game.Game.Update` | main.js:101-147 | the fields change exactly as `World.Update` says |
| `Game.Game.MovePlayer` | main.js:103-121 | the player becomes the clamped candidate position |
| `Game.Game.FollowCamera` | main.js:125-145 | the camera becomes the clamped, centred offset for the player |
| `Game.Game.Tick` | main.js:223-235 | the fields change exactly as `World.Tick` says |
| `Game.Game.FirstFrame` | main.js:245-248 | the fields change exactly as `World.FirstFrame` says |
| `Game.Game.KeyDown` | main.js:203-216 | only the key table changes, as `Keys.KeyDown` says |
| `Game.Game.KeyUp` | main.js:218-220 | only the key table changes, as `Keys.KeyUp` says |
| `Game.Game.Blur` | main.js:198-201 | only the key table changes, as `Keys.Blur` says |
| `Game.Game.BeginResize` | main.js:74-76 | only the resize flag changes, and it becomes true |
| `Game.Game.EndResize` | main.js:85-97 | only the canvas size and the resize flag change |

## Left out

- `draw()` and every canvas call (`clearRect`, `drawImage`, `scale`, `imageSmoothingEnabled`, the `blur-mode` class): pixel output through the browser.
- Sprite loading (`Image`, `src`): asset I/O.
- The `setTimeout`/`clearTimeout` debounce in `resizeHandle`: host timers. Resizing is modelled as its two flag transitions. The model does not enforce that only the last of several resize events leads to `EndResize`.
- `requestAnimationFrame` and `addEventListener`: host scheduling. Each frame is one call to `Tick`, and each handler is one method.
- `console.log`, including the `escape` branch's log: output only.
- `window.innerWidth`/`innerHeight` and the canvas's size before the first resize: these are the arguments of `EndResize` and of the constructor.
- Floating point: all quantities are exact reals. With doubles, `y - dist + dist` can round away from `y`. So `World.OppositeKeysCancel` holds exactly only in real arithmetic.
- Keys.ToLower: lower-cases ASCII A-Z only, because `toLowerCase` follows full Unicode case mapping.
- Keys of the `keys` object that collide with JavaScript's object machinery (such as `__proto__`) are treated as ordinary map entries.
