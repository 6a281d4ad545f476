/** Isometric coordinate mapping shared by every consumer of the tile grid.
    Grid coordinates are real (sub-tile positions); the inverse floors to tile indices. */
module MapHelpers {

  /** Tile geometry, in pixels. */
  const TileWidth: real := 64.0
  const TileHeight: real := 32.0
  const TileDepth: real := 32.0

  datatype IsoPoint = IsoPoint(x: real, y: real)

  datatype GridPoint = GridPoint(gridX: int, gridY: int)

  /** The 2:1 diamond projection: half a tile width per unit of (gx - gy),
      half a tile height per unit of (gx + gy). */
  function GridToIso(gridX: real, gridY: real): (p: IsoPoint)
    ensures p.x == (gridX - gridY) * 32.0
    ensures p.y == (gridX + gridY) * 16.0
  {
    IsoPoint((gridX - gridY) * (TileWidth / 2.0), (gridX + gridY) * (TileHeight / 2.0))
  }

  /** Screen-to-grid: undoes the projection and floors both axes to a tile index. */
  function IsoToGrid(x: real, y: real): (g: GridPoint)
    ensures g.gridX == ((x / 32.0 + y / 16.0) / 2.0).Floor
    ensures g.gridY == ((y / 16.0 - x / 32.0) / 2.0).Floor
  {
    GridPoint(((x / (TileWidth / 2.0) + y / (TileHeight / 2.0)) / 2.0).Floor,
              ((y / (TileHeight / 2.0) - x / (TileWidth / 2.0)) / 2.0).Floor)
  }

  /** Un-projecting a projected point recovers the continuous grid position exactly,
      so the inverse yields the tile that contains it. */
  lemma RoundTripFloors(gridX: real, gridY: real)
    ensures IsoToGrid(GridToIso(gridX, gridY).x, GridToIso(gridX, gridY).y)
         == GridPoint(gridX.Floor, gridY.Floor)
  {
    var p := GridToIso(gridX, gridY);
    assert p.x / 32.0 == gridX - gridY;
    assert p.y / 16.0 == gridX + gridY;
    assert (p.x / 32.0 + p.y / 16.0) / 2.0 == gridX;
    assert (p.y / 16.0 - p.x / 32.0) / 2.0 == gridY;
  }

  /** For whole tile indices the round trip is the identity. */
  lemma RoundTripTile(gridX: int, gridY: int)
    ensures IsoToGrid(GridToIso(gridX as real, gridY as real).x, GridToIso(gridX as real, gridY as real).y)
         == GridPoint(gridX, gridY)
  {
    RoundTripFloors(gridX as real, gridY as real);
  }

  /** The projection is linear: the image of a sum is the sum of the images. */
  lemma GridToIsoAdditive(ax: real, ay: real, dx: real, dy: real)
    ensures GridToIso(ax + dx, ay + dy).x == GridToIso(ax, ay).x + GridToIso(dx, dy).x
    ensures GridToIso(ax + dx, ay + dy).y == GridToIso(ax, ay).y + GridToIso(dx, dy).y
  {
  }

  /** One step along the grid diagonal keeps the screen column and drops one tile height. */
  lemma DiagonalStep(gridX: real, gridY: real)
    ensures GridToIso(gridX + 1.0, gridY + 1.0).x == GridToIso(gridX, gridY).x
    ensures GridToIso(gridX + 1.0, gridY + 1.0).y == GridToIso(gridX, gridY).y + TileHeight
  {
    GridToIsoAdditive(gridX, gridY, 1.0, 1.0);
  }
}
