/** The single-floor map: a fixed 20 x 20 layout of type codes (0 grass, 1 wall,
    2 water), the tile grid built from it, and the walkability queries. */
module SingleFloorMap {
  import SingleFloorTile
  import MapHelpers

  type Grid = seq<seq<int>>

  /** The built-in layout: walls all around the edge, inner walls and two ponds. */
  const WorldMap: Grid := [
    [1, 1, 1, 1, 1, 1, 1, 1, 1, 1, 1, 1, 1, 1, 1, 1, 1, 1, 1, 1],
    [1, 0, 0, 0, 0, 0, 1, 0, 0, 0, 0, 0, 0, 0, 1, 0, 0, 0, 0, 1],
    [1, 0, 0, 0, 0, 0, 1, 0, 0, 0, 0, 0, 0, 0, 1, 0, 0, 0, 0, 1],
    [1, 0, 0, 1, 1, 0, 1, 0, 0, 1, 1, 1, 0, 0, 1, 0, 0, 0, 0, 1],
    [1, 0, 0, 1, 0, 0, 0, 0, 0, 1, 0, 0, 0, 0, 0, 0, 0, 0, 0, 1],
    [1, 0, 0, 1, 0, 0, 0, 0, 0, 1, 0, 0, 0, 0, 0, 0, 2, 2, 0, 1],
    [1, 0, 0, 1, 0, 0, 1, 1, 1, 1, 0, 0, 0, 0, 0, 0, 2, 2, 0, 1],
    [1, 0, 0, 0, 0, 0, 0, 0, 0, 0, 0, 0, 0, 0, 0, 0, 0, 0, 0, 1],
    [1, 0, 0, 0, 0, 0, 0, 0, 0, 0, 0, 0, 1, 1, 1, 0, 0, 0, 0, 1],
    [1, 0, 0, 2, 2, 2, 0, 0, 0, 0, 0, 0, 1, 0, 0, 0, 0, 0, 0, 1],
    [1, 0, 0, 2, 2, 2, 0, 0, 0, 0, 0, 0, 1, 0, 0, 0, 0, 0, 0, 1],
    [1, 0, 0, 2, 2, 2, 0, 0, 0, 0, 0, 0, 1, 0, 0, 0, 0, 1, 0, 1],
    [1, 0, 0, 0, 0, 0, 0, 0, 0, 0, 0, 0, 0, 0, 0, 0, 0, 1, 0, 1],
    [1, 0, 0, 0, 0, 0, 0, 0, 1, 0, 0, 0, 0, 0, 0, 0, 0, 1, 0, 1],
    [1, 0, 0, 0, 0, 0, 0, 0, 1, 0, 0, 0, 0, 0, 0, 0, 0, 0, 0, 1],
    [1, 0, 0, 1, 1, 1, 0, 0, 1, 1, 1, 0, 0, 0, 0, 0, 0, 0, 0, 1],
    [1, 0, 0, 0, 0, 0, 0, 0, 0, 0, 0, 0, 0, 0, 0, 0, 0, 0, 0, 1],
    [1, 0, 0, 0, 0, 0, 0, 0, 0, 0, 0, 0, 0, 0, 0, 0, 0, 0, 0, 1],
    [1, 0, 0, 0, 0, 0, 0, 0, 0, 0, 0, 0, 0, 0, 0, 0, 0, 0, 0, 1],
    [1, 1, 1, 1, 1, 1, 1, 1, 1, 1, 1, 1, 1, 1, 1, 1, 1, 1, 1, 1]
  ]

  /** The layout is 20 rows of 20 codes. */
  lemma WorldMapShape()
    ensures |WorldMap| == 20
    ensures forall y :: 0 <= y < 20 ==> |WorldMap[y]| == 20
  {
  }

  /** Type code to tile type; an unknown code is read as grass. */
  function DecodeTileType(code: int): (t: SingleFloorTile.TileType)
    ensures 0 <= code <= 2 ==> SingleFloorTile.Code(t) == code
    ensures !(0 <= code <= 2) ==> t == SingleFloorTile.Grass
  {
    if code == 0 then SingleFloorTile.Grass
    else if code == 1 then SingleFloorTile.Wall
    else if code == 2 then SingleFloorTile.Water
    else SingleFloorTile.Grass
  }

  /** Decoding undoes the type codes. */
  lemma DecodeCode(t: SingleFloorTile.TileType)
    ensures DecodeTileType(SingleFloorTile.Code(t)) == t
  {
  }

  /** A built tile: its grid cell and decoded type. */
  datatype PlacedTile = PlacedTile(gridX: int, gridY: int, kind: SingleFloorTile.TileType)

  /** The row of tiles built from row y of a layout. */
  function RowTiles(row: seq<int>, y: int): (r: seq<PlacedTile>)
    ensures |r| == |row|
    ensures forall x :: 0 <= x < |row| ==> r[x] == PlacedTile(x, y, DecodeTileType(row[x]))
  {
    seq(|row|, x requires 0 <= x < |row| => PlacedTile(x, y, DecodeTileType(row[x])))
  }

  /** The walkable cells: interior rows and columns of the layout. */
  predicate Interior(grid: Grid, x: int, y: int) {
    1 <= y < |grid| - 1 && 1 <= x < |grid[y]| - 1
  }

  /** Row-major order: (x1, y1) is visited before (x2, y2). */
  predicate Precedes(x1: int, y1: int, x2: int, y2: int) {
    y1 < y2 || (y1 == y2 && x1 < x2)
  }

  ghost predicate HasInteriorGrass(grid: Grid) {
    exists x, y :: Interior(grid, x, y) && grid[y][x] == 0
  }

  /** No interior cell visited before (x, y) is grass. */
  ghost predicate NoGrassBefore(grid: Grid, x: int, y: int) {
    forall x', y' :: Interior(grid, x', y') && Precedes(x', y', x, y) ==> grid[y'][x'] != 0
  }

  /** (x, y) is the first interior grass cell in row-major order. */
  ghost predicate IsFirstGrass(grid: Grid, x: int, y: int) {
    Interior(grid, x, y) && grid[y][x] == 0 && NoGrassBefore(grid, x, y)
  }

  lemma NoGrassStep(grid: Grid, x: int, y: int)
    requires NoGrassBefore(grid, x, y)
    requires 0 <= y < |grid| && 0 <= x < |grid[y]| && grid[y][x] != 0
    ensures NoGrassBefore(grid, x + 1, y)
  {
  }

  lemma NoGrassNextRow(grid: Grid, x: int, y: int)
    requires NoGrassBefore(grid, x, y)
    requires 0 <= y < |grid| && x >= |grid[y]| - 1
    ensures NoGrassBefore(grid, 0, y + 1)
  {
  }

  lemma NoGrassAnywhere(grid: Grid, y: int)
    requires NoGrassBefore(grid, 0, y) && y >= |grid| - 1
    ensures !HasInteriorGrass(grid)
  {
  }

  /** Tile (1, 1) is the first interior grass cell of the built-in layout. */
  lemma WorldMapStart()
    ensures IsFirstGrass(WorldMap, 1, 1)
  {
  }

  class Map {
    /** The layout this map is built from, fixed for the map's lifetime. */
    const worldMap: Grid
    /** Rows of built tiles; empty until the map is drawn. */
    var tiles: seq<seq<PlacedTile>>

    /** The layout has a first row, whose length the bounds test reads. */
    predicate Valid() {
      |worldMap| > 0
    }

    /** A new map holds the built-in layout and no tiles. */
    constructor ()
      ensures worldMap == WorldMap && Valid()
      ensures tiles == []
    {
      worldMap := WorldMap;
      tiles := [];
    }

    /** Builds the tiles; on a fresh map that is exactly one row per layout row. */
    method Draw()
      modifies this
      ensures |tiles| == if |old(tiles)| > |worldMap| then |old(tiles)| else |worldMap|
      ensures old(tiles) == [] ==> |tiles| == |worldMap|
      ensures forall y :: 0 <= y < |worldMap| ==> tiles[y] == RowTiles(worldMap[y], y)
      ensures forall y :: |worldMap| <= y < |old(tiles)| ==> tiles[y] == old(tiles)[y]
    {
      CreateTiles();
    }

    /** Builds one tile per layout cell, row by row; row y of the tiles replaces
        whatever that row held before and rows past the layout are kept. */
    method CreateTiles()
      modifies this
      ensures |tiles| == if |old(tiles)| > |worldMap| then |old(tiles)| else |worldMap|
      ensures forall y :: 0 <= y < |worldMap| ==> tiles[y] == RowTiles(worldMap[y], y)
      ensures forall y :: |worldMap| <= y < |old(tiles)| ==> tiles[y] == old(tiles)[y]
    {
      for y := 0 to |worldMap|
        invariant |tiles| == if |old(tiles)| > y then |old(tiles)| else y
        invariant forall y' :: 0 <= y' < y ==> tiles[y'] == RowTiles(worldMap[y'], y')
        invariant forall y' :: y <= y' < |old(tiles)| ==> tiles[y'] == old(tiles)[y']
      {
        var row: seq<PlacedTile> := [];
        for x := 0 to |worldMap[y]|
          invariant |row| == x
          invariant forall x' :: 0 <= x' < x ==> row[x'] == PlacedTile(x', y, DecodeTileType(worldMap[y][x']))
        {
          var code := worldMap[y][x];
          var tileType: SingleFloorTile.TileType;
          if code == 0 {
            tileType := SingleFloorTile.Grass;
          } else if code == 1 {
            tileType := SingleFloorTile.Wall;
          } else if code == 2 {
            tileType := SingleFloorTile.Water;
          } else {
            tileType := SingleFloorTile.Grass;
          }
          row := row + [PlacedTile(x, y, tileType)];
        }
        if y < |tiles| {
          tiles := tiles[y := row];
        } else {
          tiles := tiles + [row];
        }
      }
    }

    /** Whether a point of the grid lies on grass: points outside the layout's
        extents are blocked, otherwise the cell containing the point decides. */
    function IsWalkableTile(gridX: real, gridY: real): (walkable: bool)
      requires Valid()
      ensures walkable <==>
        && 0.0 <= gridX < |worldMap[0]| as real && 0.0 <= gridY < |worldMap| as real
        && 0 <= gridY.Floor < |worldMap| && 0 <= gridX.Floor < |worldMap[gridY.Floor]|
        && worldMap[gridY.Floor][gridX.Floor] == 0
    {
      if gridX < 0.0 || gridX >= |worldMap[0]| as real || gridY < 0.0 || gridY >= |worldMap| as real then
        false
      else
        var gridXDec, gridYDec := gridX.Floor, gridY.Floor;
        0 <= gridXDec < |worldMap[gridYDec]| && worldMap[gridYDec][gridXDec] == 0
    }

    /** The projection shared with the rest of the program. */
    function GridToIso(gridX: real, gridY: real): (p: MapHelpers.IsoPoint)
      ensures p == MapHelpers.GridToIso(gridX, gridY)
    {
      MapHelpers.GridToIso(gridX, gridY)
    }

    function IsoToGrid(x: real, y: real): (g: MapHelpers.GridPoint)
      ensures g == MapHelpers.IsoToGrid(x, y)
    {
      MapHelpers.IsoToGrid(x, y)
    }

    /** Scans the interior row by row, left to right, and returns the first grass
        cell; falls back to (1, 1) when there is none. */
    method FindFirstWalkableTile() returns (x: int, y: int)
      ensures HasInteriorGrass(worldMap) ==> IsFirstGrass(worldMap, x, y)
      ensures !HasInteriorGrass(worldMap) ==> x == 1 && y == 1
    {
      var row := 1;
      while row < |worldMap| - 1
        invariant 1 <= row
        invariant NoGrassBefore(worldMap, 0, row)
      {
        var col := 1;
        assert NoGrassBefore(worldMap, col, row);
        while col < |worldMap[row]| - 1
          invariant 1 <= col
          invariant NoGrassBefore(worldMap, col, row)
        {
          if worldMap[row][col] == 0 {
            return col, row;
          }
          NoGrassStep(worldMap, col, row);
          col := col + 1;
        }
        NoGrassNextRow(worldMap, col, row);
        row := row + 1;
      }
      NoGrassAnywhere(worldMap, row);
      return 1, 1;
    }
  }

  /** On the built-in layout the scan starts the player at (1, 1), a walkable point. */
  lemma StartIsCornerCell(m: Map, x: int, y: int)
    requires m.worldMap == WorldMap
    requires IsFirstGrass(WorldMap, x, y)
    ensures x == 1 && y == 1
    ensures m.IsWalkableTile(x as real, y as real)
  {
    WorldMapStart();
    assert WorldMap[1][1] == 0;
  }

  /** Walkability depends only on the cell: every point of a cell answers as its
      corner does, whatever the layout. */
  lemma WalkableByCell(m: Map, gridX: real, gridY: real)
    requires m.Valid()
    ensures m.IsWalkableTile(gridX, gridY) == m.IsWalkableTile(gridX.Floor as real, gridY.Floor as real)
  {
    var fx, fy := gridX.Floor, gridY.Floor;
    assert (fx as real).Floor == fx && (fy as real).Floor == fy;
    assert 0.0 <= gridX < |m.worldMap[0]| as real <==> 0 <= fx < |m.worldMap[0]|;
    assert 0.0 <= gridY < |m.worldMap| as real <==> 0 <= fy < |m.worldMap|;
  }

  /** The edge of the built-in layout is wall, so no point on or beyond it is walkable. */
  lemma BorderBlocked(m: Map, gridX: real, gridY: real)
    requires m.worldMap == WorldMap
    requires gridX < 1.0 || gridX >= 19.0 || gridY < 1.0 || gridY >= 19.0
    ensures !m.IsWalkableTile(gridX, gridY)
  {
    WorldMapShape();
    if 0.0 <= gridX < 20.0 && 0.0 <= gridY < 20.0 {
      var cx, cy := gridX.Floor, gridY.Floor;
      assert cx == 0 || cx == 19 || cy == 0 || cy == 19;
      assert WorldMap[0] == [1, 1, 1, 1, 1, 1, 1, 1, 1, 1, 1, 1, 1, 1, 1, 1, 1, 1, 1, 1];
      assert WorldMap[19] == WorldMap[0];
      assert forall r :: 0 <= r < 20 ==> WorldMap[r][0] == 1 && WorldMap[r][19] == 1;
    }
  }
}
