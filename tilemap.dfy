/** The base tile layer `mapL1`: a MAP_HEIGHT x MAP_WIDTH grid, indexed
    row first (`map[y][x]`), with a water border around a grass interior. */
module TileMap {
  import opened Config

  /** True when cell (x, y) lies within BORDER tiles of some edge of the map. */
  predicate OnBorder(x: int, y: int)
  {
    x < BORDER || x >= MAP_WIDTH - BORDER || y < BORDER || y >= MAP_HEIGHT - BORDER
  }

  function Min(a: int, b: int): int
  {
    if a <= b then a else b
  }

  /** How many whole tiles separate cell (x, y) from the nearest edge of the
      map: 0 for a cell on the edge itself. */
  function EdgeDist(x: int, y: int): int
  {
    Min(Min(x, MAP_WIDTH - 1 - x), Min(y, MAP_HEIGHT - 1 - y))
  }

  /** The tile generated for column x of row y: on the map, a cell is water
      exactly when fewer than BORDER tiles lie between it and an edge. */
  function Generate(x: int, y: int): (t: TileType)
    ensures 0 <= x < MAP_WIDTH && 0 <= y < MAP_HEIGHT ==> (t == Water <==> EdgeDist(x, y) < BORDER)
    ensures 0 <= x < MAP_WIDTH && 0 <= y < MAP_HEIGHT ==> (t == Grass <==> EdgeDist(x, y) >= BORDER)
    ensures t == Water || t == Grass
  {
    if x < 3 || x >= MAP_WIDTH - 3 || y < 3 || y >= MAP_HEIGHT - 3 then Water else Grass
  }

  /** The whole layer, built row by row and cell by cell as one comprehension. */
  function MapL1(): (m: seq<seq<TileType>>)
    ensures |m| == MAP_HEIGHT
    ensures forall y :: 0 <= y < |m| ==> |m[y]| == MAP_WIDTH
    ensures forall y, x :: 0 <= y < |m| && 0 <= x < |m[y]| ==>
      (m[y][x] == Water <==> OnBorder(x, y)) && (m[y][x] == Grass <==> !OnBorder(x, y))
    ensures forall y, x :: 0 <= y < |m| && 0 <= x < |m[y]| ==> (m[y][x] == Water <==> EdgeDist(x, y) < BORDER)
  {
    seq(MAP_HEIGHT, y => seq(MAP_WIDTH, x => Generate(x, y)))
  }

  /** The map holds only GRASS and WATER: BUSH, TREE and WALL are declared but never placed. */
  lemma OnlyGrassAndWater(y: int, x: int)
    requires 0 <= y < MAP_HEIGHT && 0 <= x < MAP_WIDTH
    ensures MapL1()[y][x] in {Grass, Water}
    ensures Code(MapL1()[y][x]) <= 1
  {
  }

  /** The border is symmetric: mirroring a cell through the map's centre keeps its tile. */
  lemma MirrorSymmetric(y: int, x: int)
    requires 0 <= y < MAP_HEIGHT && 0 <= x < MAP_WIDTH
    ensures MapL1()[y][x] == MapL1()[MAP_HEIGHT - 1 - y][MAP_WIDTH - 1 - x]
    ensures MapL1()[y][x] == MapL1()[x][y]
  {
  }

  /** Number of grass cells in a row. */
  function GrassInRow(row: seq<TileType>): (n: nat)
    ensures n <= |row|
  {
    if row == [] then 0
    else (if row[0] == Grass then 1 else 0) + GrassInRow(row[1..])
  }

  /** Number of grass cells in a grid. */
  function GrassInRows(m: seq<seq<TileType>>): nat
  {
    if m == [] then 0 else GrassInRow(m[0]) + GrassInRows(m[1..])
  }

  /** A row whose cells are grass exactly at the columns lo..hi-1 holds hi - lo grass cells. */
  lemma {:induction false} GrassInBandedRow(row: seq<TileType>, lo: nat, hi: nat)
    requires lo <= hi <= |row|
    requires forall i :: 0 <= i < |row| ==> (row[i] == Grass <==> lo <= i < hi)
    ensures GrassInRow(row) == hi - lo
  {
    if row != [] {
      if lo == 0 && hi == 0 {
        GrassInBandedRow(row[1..], 0, 0);
      } else if lo == 0 {
        GrassInBandedRow(row[1..], 0, hi - 1);
      } else {
        GrassInBandedRow(row[1..], lo - 1, hi - 1);
      }
    }
  }

  /** Number of rows from k on that cross the grass interior. */
  function InteriorRowsFrom(k: int): int
  {
    if k >= MAP_HEIGHT - BORDER then 0
    else if k <= BORDER then MAP_HEIGHT - 2 * BORDER
    else MAP_HEIGHT - BORDER - k
  }

  lemma {:induction false} GrassFromRow(k: nat)
    requires k <= MAP_HEIGHT
    ensures GrassInRows(MapL1()[k..]) == InteriorRowsFrom(k) * (MAP_WIDTH - 2 * BORDER)
    decreases MAP_HEIGHT - k
  {
    var m := MapL1();
    if k < MAP_HEIGHT {
      assert m[k..][0] == m[k];
      assert m[k..][1..] == m[k + 1..];
      if BORDER <= k < MAP_HEIGHT - BORDER {
        GrassInBandedRow(m[k], BORDER, MAP_WIDTH - BORDER);
      } else {
        GrassInBandedRow(m[k], 0, 0);
      }
      GrassFromRow(k + 1);
    }
  }

  /** The grass is exactly the interior square: (MAP_WIDTH - 6) * (MAP_HEIGHT - 6)
      = 676 of the 1024 cells, the other 348 being water. */
  lemma GrassArea()
    ensures GrassInRows(MapL1()) == 676
  {
    var m := MapL1();
    calc {
      GrassInRows(m);
      { assert m[0..] == m; }
      GrassInRows(m[0..]);
      { GrassFromRow(0); }
      InteriorRowsFrom(0) * (MAP_WIDTH - 2 * BORDER);
    }
  }
}
