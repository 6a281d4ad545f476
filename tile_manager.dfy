/** Builds the tile objects of every floor from the world document and writes
    stairs pairs into the shared world. */
module TileManagement {
  import opened World
  import MultiFloorTile
  import Wrappers
  import Collision

  /** Tiles are addressed as (floor, y, x). */
  type TileKey = (int, int, int)

  predicate ValidCell(floors: seq<Floor>, f: int, y: int, x: int) {
    0 <= f < |floors| && 0 <= y < |floors[f]| && 0 <= x < |floors[f][y]|
  }

  /** Upper-floor cells of type 0 without stairs are empty space and get no tile. */
  predicate Skipped(floors: seq<Floor>, f: int, y: int, x: int)
    requires ValidCell(floors, f, y, x)
  {
    f > 0 && floors[f][y][x].kind == 0 && !floors[f][y][x].hasStairs
  }

  /** The creation options the tile manager passes for a world cell. */
  function OptionsFor(f: int, y: int, x: int, cell: Cell): MultiFloorTile.TileOptions {
    MultiFloorTile.TileOptions(x as real, y as real, f, cell.kind,
      Wrappers.Some(cell.hasStairs), Wrappers.Some(cell.stairsDirection), Wrappers.Some(true))
  }

  function TileFor(floors: seq<Floor>, f: int, y: int, x: int): (t: MultiFloorTile.Tile)
    requires ValidCell(floors, f, y, x)
  {
    MultiFloorTile.NewTile(OptionsFor(f, y, x, floors[f][y][x]))
  }

  /** (f, y, x) comes before the loop position (cf, cy, cx) of the floor/row/column scan. */
  predicate Done(k: TileKey, cf: int, cy: int, cx: int) {
    k.0 < cf || (k.0 == cf && (k.1 < cy || (k.1 == cy && k.2 < cx)))
  }

  /** The addresses of all cells of the world. */
  ghost function CellKeys(floors: seq<Floor>): set<TileKey> {
    set f, y, x | 0 <= f < |floors| && 0 <= y < |floors[f]| && 0 <= x < |floors[f][y]| :: (f, y, x)
  }

  lemma CellKeysMember(floors: seq<Floor>, f: int, y: int, x: int)
    ensures (f, y, x) in CellKeys(floors) <==> ValidCell(floors, f, y, x)
  {
  }

  /** The tiles created once the scan has reached (cf, cy, cx). */
  ghost function BuiltBefore(floors: seq<Floor>, cf: int, cy: int, cx: int): map<TileKey, MultiFloorTile.Tile> {
    map k | k in CellKeys(floors) && !Skipped(floors, k.0, k.1, k.2) && Done(k, cf, cy, cx)
          :: TileFor(floors, k.0, k.1, k.2)
  }

  /** Every tile a full scan creates: one per cell, except upper-floor empty space. */
  ghost function BuiltTiles(floors: seq<Floor>): map<TileKey, MultiFloorTile.Tile> {
    BuiltBefore(floors, |floors|, 0, 0)
  }

  /** A full scan creates a tile exactly for the cells that are not upper-floor
      empty space, built from that cell's triple. */
  lemma BuiltTilesDomain(floors: seq<Floor>, f: int, y: int, x: int)
    ensures (f, y, x) in BuiltTiles(floors) <==> ValidCell(floors, f, y, x) && !Skipped(floors, f, y, x)
    ensures (f, y, x) in BuiltTiles(floors) ==> BuiltTiles(floors)[(f, y, x)] == TileFor(floors, f, y, x)
  {
    CellKeysMember(floors, f, y, x);
  }

  /** Visiting one cell adds its tile, unless the cell is skipped. */
  lemma BuiltBeforeStep(floors: seq<Floor>, f: int, y: int, x: int)
    requires ValidCell(floors, f, y, x)
    ensures BuiltBefore(floors, f, y, x + 1) ==
      if Skipped(floors, f, y, x) then BuiltBefore(floors, f, y, x)
      else BuiltBefore(floors, f, y, x)[(f, y, x) := TileFor(floors, f, y, x)]
  {
    CellKeysMember(floors, f, y, x);
  }

  lemma BuiltStep(prior: map<TileKey, MultiFloorTile.Tile>, floors: seq<Floor>, f: int, y: int, x: int)
    requires ValidCell(floors, f, y, x)
    ensures prior + BuiltBefore(floors, f, y, x + 1) ==
      if Skipped(floors, f, y, x) then prior + BuiltBefore(floors, f, y, x)
      else (prior + BuiltBefore(floors, f, y, x))[(f, y, x) := TileFor(floors, f, y, x)]
  {
    BuiltBeforeStep(floors, f, y, x);
  }

  lemma BuiltNextRow(floors: seq<Floor>, f: int, y: int)
    requires 0 <= f < |floors| && 0 <= y < |floors[f]|
    ensures BuiltBefore(floors, f, y, |floors[f][y]|) == BuiltBefore(floors, f, y + 1, 0)
  {
  }

  lemma BuiltNextFloor(floors: seq<Floor>, f: int)
    requires 0 <= f < |floors|
    ensures BuiltBefore(floors, f, |floors[f]|, 0) == BuiltBefore(floors, f + 1, 0, 0)
  {
  }

  /** Direction written on the departure floor: up when the target is higher, else down. */
  function StairsDirection(fromFloor: int, toFloor: int): (d: int) {
    if toFloor > fromFloor then 1 else -1
  }

  /** The floors and cell a stairs pair may be written at: both floors exist and
      (x, y) lies inside the departure floor. */
  predicate StairsArgsValid(floors: seq<Floor>, x: int, y: int, fromFloor: int, toFloor: int) {
    && 0 <= fromFloor < |floors| && 0 <= toFloor < |floors|
    && |floors[fromFloor]| > 0
    && 0 <= x < |floors[fromFloor][0]| && 0 <= y < |floors[fromFloor]|
  }

  /** The world with cell (f, y, x) replaced by c; every other cell and every
      dimension is unchanged. */
  function SetCell(floors: seq<Floor>, f: int, y: int, x: int, c: Cell): (r: seq<Floor>)
    requires ValidCell(floors, f, y, x)
    ensures |r| == |floors|
    ensures forall g :: 0 <= g < |r| ==> |r[g]| == |floors[g]|
    ensures forall g, j :: 0 <= g < |r| && 0 <= j < |r[g]| ==> |r[g][j]| == |floors[g][j]|
    ensures r[f][y][x] == c
    ensures forall g, j, i :: ValidCell(floors, g, j, i) && (g, j, i) != (f, y, x) ==> r[g][j][i] == floors[g][j][i]
  {
    floors[f := floors[f][y := floors[f][y][x := c]]]
  }

  /** The world after writing a stairs pair at (x, y) between two floors. */
  function WithStairs(floors: seq<Floor>, x: int, y: int, fromFloor: int, toFloor: int): (r: seq<Floor>)
    requires Uniform(floors) && StairsArgsValid(floors, x, y, fromFloor, toFloor)
    ensures Uniform(r)
  {
    var d := StairsDirection(fromFloor, toFloor);
    var once := SetCell(floors, fromFloor, y, x, Cell(0, true, d));
    SetCell(once, toFloor, y, x, Cell(0, true, -d))
  }

  /** Between two distinct floors the pair is mirrored: grass with stairs, the
      departure cell pointing towards the target and the target cell pointing back. */
  lemma StairsMirrored(floors: seq<Floor>, x: int, y: int, fromFloor: int, toFloor: int)
    requires Uniform(floors) && StairsArgsValid(floors, x, y, fromFloor, toFloor)
    requires fromFloor != toFloor
    ensures WithStairs(floors, x, y, fromFloor, toFloor)[fromFloor][y][x]
         == Cell(0, true, if toFloor > fromFloor then 1 else -1)
    ensures WithStairs(floors, x, y, fromFloor, toFloor)[toFloor][y][x]
         == Cell(0, true, if toFloor > fromFloor then -1 else 1)
  {
  }

  /** Stairs to the same floor: the second write overwrites the first, so the
      cell ends as grass with stairs pointing up. */
  lemma StairsSameFloor(floors: seq<Floor>, x: int, y: int, f: int)
    requires Uniform(floors) && StairsArgsValid(floors, x, y, f, f)
    ensures WithStairs(floors, x, y, f, f)[f][y][x] == Cell(0, true, 1)
  {
  }

  /** Writing a stairs pair changes no cell other than the two it targets. */
  lemma StairsTouchesOnlyPair(floors: seq<Floor>, x: int, y: int, fromFloor: int, toFloor: int, g: int, j: int, i: int)
    requires Uniform(floors) && StairsArgsValid(floors, x, y, fromFloor, toFloor)
    requires ValidCell(floors, g, j, i)
    requires (g, j, i) != (fromFloor, y, x) && (g, j, i) != (toFloor, y, x)
    ensures WithStairs(floors, x, y, fromFloor, toFloor)[g][j][i] == floors[g][j][i]
  {
    var d := StairsDirection(fromFloor, toFloor);
    var once := SetCell(floors, fromFloor, y, x, Cell(0, true, d));
    assert once[g][j][i] == floors[g][j][i];
  }

  /** After a stairs pair between distinct floors, the stairs lookup at the cell
      gives opposite, nonzero directions on the two floors. */
  lemma StairsLookupSymmetric(floors: seq<Floor>, x: int, y: int, fromFloor: int, toFloor: int)
    requires Uniform(floors) && StairsArgsValid(floors, x, y, fromFloor, toFloor)
    requires fromFloor != toFloor
    ensures var r := WithStairs(floors, x, y, fromFloor, toFloor);
            && Collision.CheckForStairs(r, x as real, y as real, fromFloor)
               == -Collision.CheckForStairs(r, x as real, y as real, toFloor)
            && Collision.CheckForStairs(r, x as real, y as real, fromFloor) != 0
  {
    var r := WithStairs(floors, x, y, fromFloor, toFloor);
    StairsMirrored(floors, x, y, fromFloor, toFloor);
    assert (x as real).Floor == x && (y as real).Floor == y;
    assert InFloor(r[fromFloor], x, y) && InFloor(r[toFloor], x, y);
  }

  /** A built tile is walkable exactly when the collision test treats its cell as clear. */
  lemma TileWalkableMatchesCell(floors: seq<Floor>, f: int, y: int, x: int)
    requires 0 <= f < |floors| && Rectangular(floors[f]) && ValidCell(floors, f, y, x)
    ensures TileFor(floors, f, y, x).IsWalkable() <==> Collision.CellClear(floors[f], x, y)
  {
  }

  class TileManager {
    /** The shared world document. */
    const world: WorldMap
    var tiles: map<TileKey, MultiFloorTile.Tile>

    constructor (world: WorldMap)
      ensures this.world == world && tiles == map[]
    {
      this.world := world;
      tiles := map[];
    }

    /** Creates the tile of every cell of every floor, skipping upper-floor empty space. */
    method CreateTiles()
      modifies this
      ensures tiles == old(tiles) + BuiltTiles(world.floors)
    {
      var floors: seq<Floor> := world.floors;
      for floor := 0 to |floors|
        invariant tiles == old(tiles) + BuiltBefore(floors, floor, 0, 0)
      {
        for y := 0 to |floors[floor]|
          invariant tiles == old(tiles) + BuiltBefore(floors, floor, y, 0)
        {
          for x := 0 to |floors[floor][y]|
            invariant tiles == old(tiles) + BuiltBefore(floors, floor, y, x)
          {
            BuiltStep(old(tiles), floors, floor, y, x);
            if floor > 0 && floors[floor][y][x].kind == 0 && !floors[floor][y][x].hasStairs {
              continue;
            }
            tiles := tiles[(floor, y, x) := TileFor(floors, floor, y, x)];
          }
          BuiltNextRow(floors, floor, y);
        }
        BuiltNextFloor(floors, floor);
      }
    }

    /** Validates the floors and the cell against the departure floor, then writes
        the mirrored stairs pair into the world and rebuilds the two tiles. */
    method CreateStairs(x: int, y: int, fromFloor: int, toFloor: int) returns (ok: bool)
      requires world.Valid()
      modifies this, world
      ensures world.Valid()
      ensures ok == StairsArgsValid(old(world.floors), x, y, fromFloor, toFloor)
      ensures !ok ==> world.floors == old(world.floors) && tiles == old(tiles)
      ensures ok ==> world.floors == WithStairs(old(world.floors), x, y, fromFloor, toFloor)
      ensures ok ==> tiles == old(tiles)
        [(fromFloor, y, x) := TileFor(world.floors, fromFloor, y, x)]
        [(toFloor, y, x) := TileFor(world.floors, toFloor, y, x)]
    {
      var floors: seq<Floor> := world.floors;
      if fromFloor < 0 || fromFloor >= |floors| || toFloor < 0 || toFloor >= |floors|
         || x < 0 || x >= |floors[fromFloor][0]| || y < 0 || y >= |floors[fromFloor]| {
        return false;
      }
      var direction := if toFloor > fromFloor then 1 else -1;
      world.floors := SetCell(world.floors, fromFloor, y, x, Cell(0, true, direction));
      world.floors := SetCell(world.floors, toFloor, y, x, Cell(0, true, -direction));
      tiles := tiles[(fromFloor, y, x) := MultiFloorTile.NewTile(MultiFloorTile.TileOptions(
        x as real, y as real, fromFloor, 0, Wrappers.Some(true), Wrappers.Some(direction), Wrappers.Some(true)))];
      tiles := tiles[(toFloor, y, x) := MultiFloorTile.NewTile(MultiFloorTile.TileOptions(
        x as real, y as real, toFloor, 0, Wrappers.Some(true), Wrappers.Some(-direction), Wrappers.Some(true)))];
      return true;
    }
  }
}
