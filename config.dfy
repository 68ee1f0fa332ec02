/** The game's fixed configuration (the `CONFIG` record) and the tile codes
    (the `TILE_TYPE` dictionary). */
module Config {

  const TILE_SIZE: int := 16
  const MAP_WIDTH: int := 32
  const MAP_HEIGHT: int := 32
  const MOVE_SPEED: real := 4.0
  const SCALE: int := 4

  /** Width of the water border, in tiles. */
  const BORDER: int := 3

  /** The tile kinds of `TILE_TYPE`; only GRASS and WATER are ever placed. */
  datatype TileType = Grass | Water | Bush | Tree | Wall

  /** The numeric code each tile kind stands for in the map arrays. */
  function Code(t: TileType): (c: nat)
    ensures c < 5
    ensures t == Grass <==> c == 0
    ensures t == Water <==> c == 1
  {
    match t
    case Grass => 0
    case Water => 1
    case Bush => 2
    case Tree => 3
    case Wall => 4
  }

  /** Looks a code up in `TILE_TYPE`; codes outside 0..4 name no tile. */
  function FromCode(c: int): (t: Option<TileType>)
    ensures t.Some? <==> 0 <= c < 5
    ensures t.Some? ==> Code(t.value) == c
  {
    if c == 0 then Some(Grass)
    else if c == 1 then Some(Water)
    else if c == 2 then Some(Bush)
    else if c == 3 then Some(Tree)
    else if c == 4 then Some(Wall)
    else None
  }

  /** Every tile kind has its own code: decoding an encoded tile gives it back. */
  lemma CodeRoundTrip(t: TileType)
    ensures FromCode(Code(t)) == Some(t)
  {
  }

  datatype Option<T> = None | Some(value: T)
}
