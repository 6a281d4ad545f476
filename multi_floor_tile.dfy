/** A placed tile of the multi-floor map: its grid cell, floor, type and stairs
    metadata, and its screen position lifted by the floor offset. A tile's fields
    are fixed when it is created. */
module MultiFloorTile {
  import MapHelpers
  import opened Wrappers
  import World

  /** Vertical gap, in pixels, added to the tile depth between stacked floors. */
  const FloorGap: real := 5.0

  /** Creation options; the optional ones may be left out. */
  datatype TileOptions = TileOptions(
    gridX: real, gridY: real, floor: int, kind: int,
    hasStairs: Option<bool>, stairsDirection: Option<int>, debug: Option<bool>)

  datatype Tile = Tile(
    gridX: real, gridY: real, floor: int, kind: int,
    hasStairs: bool, stairsDirection: int, debug: bool,
    screenX: real, screenY: real)
  {
    /** Only grass can be walked on; walls and water block. */
    predicate IsWalkable(): (w: bool)
      ensures w <==> kind == World.Grass
      ensures kind == World.Wall || kind == World.Water ==> !w
    {
      kind == World.Grass
    }
  }

  /** How far a floor is lifted on screen. */
  function FloorOffset(floor: int): (offset: real) {
    floor as real * (MapHelpers.TileDepth + FloorGap)
  }

  /** Reads an optional flag the way `value || fallback` does. */
  function OrElse<T>(o: Option<T>, fallback: T): (v: T) {
    match o
    case Some(v) => v
    case None => fallback
  }

  /** Builds a tile: missing stairs metadata and debug flag default to no stairs,
      direction 0 and off; the screen position is the projected grid cell shifted
      left by half a tile and lifted by 37 pixels per floor. */
  function NewTile(options: TileOptions): (t: Tile)
    ensures t.gridX == options.gridX && t.gridY == options.gridY
    ensures t.floor == options.floor && t.kind == options.kind
    ensures options.hasStairs.None? ==> !t.hasStairs
    ensures options.stairsDirection.None? ==> t.stairsDirection == 0
    ensures options.debug.None? ==> !t.debug
    ensures options.hasStairs.Some? ==> t.hasStairs == options.hasStairs.value
    ensures options.stairsDirection.Some? ==> t.stairsDirection == options.stairsDirection.value
    ensures options.debug.Some? ==> t.debug == options.debug.value
    ensures t.screenX == MapHelpers.GridToIso(options.gridX, options.gridY).x - 32.0
    ensures t.screenY == MapHelpers.GridToIso(options.gridX, options.gridY).y - options.floor as real * 37.0
  {
    var iso := MapHelpers.GridToIso(options.gridX, options.gridY);
    Tile(options.gridX, options.gridY, options.floor, options.kind,
         OrElse(options.hasStairs, false), OrElse(options.stairsDirection, 0), OrElse(options.debug, false),
         iso.x - MapHelpers.TileWidth / 2.0, iso.y - FloorOffset(options.floor))
  }
}
