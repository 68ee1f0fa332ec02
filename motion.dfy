/** The per-axis arithmetic of one simulation step: the candidate move, the
    clamp into the map, the camera that follows the player, and the frame's
    elapsed time. Positions are in tiles, the camera in unscaled pixels,
    timestamps in milliseconds and elapsed time in seconds. */
module Motion {
  import opened Config

  /** One axis of the candidate position: the key for the negative direction
      (W or A) subtracts `dist`, then the key for the positive direction
      (S or D) adds it. */
  function AxisCandidate(p: real, dist: real, minus: bool, plus: bool): (c: real)
    ensures minus == plus ==> c == p
    ensures minus && !plus ==> c == p - dist
    ensures plus && !minus ==> c == p + dist
    ensures -(if dist < 0.0 then -dist else dist) <= c - p <= (if dist < 0.0 then -dist else dist)
  {
    var afterMinus := if minus then p - dist else p;
    if plus then afterMinus + dist else afterMinus
  }

  /** Lower bound first, then upper bound, as the step clamps the player. */
  function ClampAxis(v: real, hi: real): (r: real)
    requires 0.0 <= hi
    ensures 0.0 <= r <= hi
    ensures 0.0 <= v <= hi ==> r == v
    ensures v < 0.0 ==> r == 0.0
    ensures v > hi ==> r == hi
  {
    var low := if v < 0.0 then 0.0 else v;
    if low > hi then hi else low
  }

  /** Clamping never increases the distance between two values. */
  lemma ClampNonExpansive(u: real, v: real, hi: real)
    requires 0.0 <= hi
    ensures ClampAxis(u, hi) - ClampAxis(v, hi) <= (if u - v < 0.0 then v - u else u - v)
    ensures ClampAxis(v, hi) - ClampAxis(u, hi) <= (if u - v < 0.0 then v - u else u - v)
  {
  }

  /** The last position the player may take on an axis of `tiles` tiles. */
  function MaxPos(tiles: int): real
  {
    (tiles - 1) as real
  }

  /** The visible extent of a canvas side, in unscaled pixels (`canvas.width / SCALE`). */
  function View(canvasLen: nat): real
  {
    canvasLen as real / SCALE as real
  }

  /** The largest camera offset that still shows no space past the far edge
      (`mapPixel - viewport`); negative when the view is larger than the map. */
  function MaxCamera(tiles: int, canvasLen: nat): real
  {
    (tiles * TILE_SIZE) as real - View(canvasLen)
  }

  /** The offset that puts the centre of the player's tile in the middle of the view. */
  function Centred(p: real, canvasLen: nat): real
  {
    p * TILE_SIZE as real - View(canvasLen) / 2.0 + TILE_SIZE as real / 2.0
  }

  /** One axis of the camera: centre on the player, raise to 0, then lower to
      MaxCamera. The upper clamp runs last, so it wins when the bound is negative. */
  function CameraAxis(p: real, tiles: int, canvasLen: nat): (r: real)
    ensures r <= MaxCamera(tiles, canvasLen)
    ensures MaxCamera(tiles, canvasLen) >= 0.0 ==> 0.0 <= r
    ensures MaxCamera(tiles, canvasLen) < 0.0 ==> r == MaxCamera(tiles, canvasLen)
    ensures 0.0 <= Centred(p, canvasLen) <= MaxCamera(tiles, canvasLen) ==> r == Centred(p, canvasLen)
    ensures Centred(p, canvasLen) < 0.0 <= MaxCamera(tiles, canvasLen) ==> r == 0.0
    ensures Centred(p, canvasLen) > MaxCamera(tiles, canvasLen) ==> r == MaxCamera(tiles, canvasLen)
    ensures r == Centred(p, canvasLen) || r == 0.0 || r == MaxCamera(tiles, canvasLen)
  {
    var ideal := Centred(p, canvasLen);
    var low := if ideal < 0.0 then 0.0 else ideal;
    var hi := MaxCamera(tiles, canvasLen);
    if low > hi then hi else low
  }

  /** The camera never moves backwards when the player moves forwards. */
  lemma CameraMonotone(p: real, q: real, tiles: int, canvasLen: nat)
    requires p <= q
    ensures CameraAxis(p, tiles, canvasLen) <= CameraAxis(q, tiles, canvasLen)
  {
  }

  /** The longest frame the simulation accepts, in seconds. */
  const MAX_DT: real := 0.1

  /** Seconds elapsed since the previous stamp, capped at MAX_DT. */
  function FrameDt(timestamp: real, last: real): (dt: real)
    ensures dt <= MAX_DT
    ensures dt == MAX_DT <==> timestamp - last >= 100.0
    ensures timestamp - last <= 100.0 ==> dt == (timestamp - last) / 1000.0
    ensures timestamp >= last ==> dt >= 0.0
  {
    var dt := (timestamp - last) / 1000.0;
    if dt > MAX_DT then MAX_DT else dt
  }
}
