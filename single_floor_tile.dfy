/** A tile of the single-floor map: grid cell, type and drawing extents, with the
    screen position fixed when the tile is created. */
module SingleFloorTile {
  import MapHelpers

  datatype TileType = Grass | Wall | Water

  /** Numeric codes of the tile types. */
  function Code(t: TileType): (c: int) {
    match t
    case Grass => 0
    case Wall => 1
    case Water => 2
  }

  datatype Tile = Tile(
    gridX: real, gridY: real, kind: TileType,
    width: real, height: real, depth: real,
    screenX: real, screenY: real)
  {
    /** Only grass can be walked on: a walkable tile is neither wall nor water,
        and its type code is 0. */
    predicate IsWalkable(): (w: bool)
      ensures w <==> kind != Wall && kind != Water
      ensures w <==> Code(kind) == 0
    {
      kind == Grass
    }
  }

  /** Builds a tile; its screen position is the isometric projection of its grid
      cell for a diamond of the given width and height. */
  function NewTile(gridX: real, gridY: real, kind: TileType, width: real, height: real, depth: real): (t: Tile)
    ensures t.gridX == gridX && t.gridY == gridY && t.kind == kind
    ensures t.width == width && t.height == height && t.depth == depth
    ensures t.screenX == (gridX - gridY) * (width / 2.0)
    ensures t.screenY == (gridX + gridY) * (height / 2.0)
  {
    Tile(gridX, gridY, kind, width, height, depth,
         (gridX - gridY) * (width / 2.0), (gridX + gridY) * (height / 2.0))
  }

  /** With the standard 64 x 32 diamond a tile sits where the shared projection puts its cell. */
  lemma StandardTileMatchesProjection(gridX: real, gridY: real, kind: TileType, depth: real)
    ensures var t := NewTile(gridX, gridY, kind, MapHelpers.TileWidth, MapHelpers.TileHeight, depth);
            t.screenX == MapHelpers.GridToIso(gridX, gridY).x && t.screenY == MapHelpers.GridToIso(gridX, gridY).y
  {
  }

  /** Only grass can be walked on. */
  lemma WalkableIffGrass(t: Tile)
    ensures t.IsWalkable() <==> Code(t.kind) == 0
  {
  }
}
