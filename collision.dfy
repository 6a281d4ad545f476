/** Collision queries against the multi-floor world: footprint walkability,
    stairs lookup and the start-tile search. The collision manager keeps no state,
    so its operations take the world's floors as a parameter. */
module Collision {
  import opened World

  /** Side length of the player's square footprint when the caller gives none. */
  const DefaultPlayerSize: real := 0.5

  datatype Point = Point(x: real, y: real)

  /** A grid position together with the floor it is on. */
  datatype Position = Position(x: real, y: real, floor: int)

  /** The cell at tile index (cx, cy) exists and is grass. */
  predicate CellClear(fl: Floor, cx: int, cy: int)
    requires Rectangular(fl)
  {
    InFloor(fl, cx, cy) && fl[cy][cx].kind == Grass
  }

  /** A point, floored to its tile, lands on a grass cell of the floor. */
  predicate CornerClear(fl: Floor, px: real, py: real)
    requires Rectangular(fl)
  {
    CellClear(fl, px.Floor, py.Floor)
  }

  /** Reference definition: all four corners of the square of side `size`
      centred on (gridX, gridY) land on grass cells of floor `f`. */
  predicate FootprintWalkable(floors: seq<Floor>, gridX: real, gridY: real, f: int, size: real)
    requires 0 <= f < |floors| && Rectangular(floors[f])
  {
    var fl, h := floors[f], size / 2.0;
    && CornerClear(fl, gridX - h, gridY - h)
    && CornerClear(fl, gridX + h, gridY - h)
    && CornerClear(fl, gridX - h, gridY + h)
    && CornerClear(fl, gridX + h, gridY + h)
  }

  /** Walks the four corners (top-left, top-right, bottom-left, bottom-right) and
      stops at the first one that is out of bounds or not grass. */
  method IsWalkableTile(floors: seq<Floor>, gridX: real, gridY: real, currentFloor: int, playerSize: real)
    returns (walkable: bool)
    requires 0 <= currentFloor < |floors| && Rectangular(floors[currentFloor])
    ensures walkable == FootprintWalkable(floors, gridX, gridY, currentFloor, playerSize)
  {
    var fl := floors[currentFloor];
    var halfSize := playerSize / 2.0;
    var corners := [Point(gridX - halfSize, gridY - halfSize), Point(gridX + halfSize, gridY - halfSize),
                    Point(gridX - halfSize, gridY + halfSize), Point(gridX + halfSize, gridY + halfSize)];
    for i := 0 to |corners|
      invariant forall j :: 0 <= j < i ==> CornerClear(fl, corners[j].x, corners[j].y)
    {
      var checkX := corners[i].x.Floor;
      var checkY := corners[i].y.Floor;
      if checkX < 0 || checkX >= |fl[0]| || checkY < 0 || checkY >= |fl| {
        return false;
      }
      var tileType := fl[checkY][checkX].kind;
      if tileType != Grass {
        return false;
      }
    }
    assert CornerClear(fl, corners[0].x, corners[0].y) && CornerClear(fl, corners[1].x, corners[1].y);
    assert CornerClear(fl, corners[2].x, corners[2].y) && CornerClear(fl, corners[3].x, corners[3].y);
    return true;
  }

  /** The stairs direction of the tile containing (gridX, gridY), or 0 when that
      tile has no stairs or lies outside the floor. */
  function CheckForStairs(floors: seq<Floor>, gridX: real, gridY: real, currentFloor: int): (d: int)
    requires 0 <= currentFloor < |floors| && Rectangular(floors[currentFloor])
    ensures d != 0 ==> InFloor(floors[currentFloor], gridX.Floor, gridY.Floor)
                       && floors[currentFloor][gridY.Floor][gridX.Floor].hasStairs
    ensures InFloor(floors[currentFloor], gridX.Floor, gridY.Floor)
            && floors[currentFloor][gridY.Floor][gridX.Floor].hasStairs
            ==> d == floors[currentFloor][gridY.Floor][gridX.Floor].stairsDirection
  {
    var fl := floors[currentFloor];
    var tileX := gridX.Floor;
    var tileY := gridY.Floor;
    if tileX < 0 || tileX >= |fl[0]| || tileY < 0 || tileY >= |fl| then
      0
    else
      var cell: Cell := fl[tileY][tileX];
      if cell.hasStairs then cell.stairsDirection else 0
  }

  /** (x, y) is a cell of the scanned interior: not in the first or last row,
      not in the first or last column of its row. */
  predicate Interior(fl: Floor, x: int, y: int) {
    1 <= y < |fl| - 1 && 1 <= x < |fl[y]| - 1
  }

  /** Row-major order: (x1, y1) is visited before (x2, y2). */
  predicate Precedes(x1: int, y1: int, x2: int, y2: int) {
    y1 < y2 || (y1 == y2 && x1 < x2)
  }

  ghost predicate HasInteriorGrass(fl: Floor) {
    exists x, y :: Interior(fl, x, y) && fl[y][x].kind == Grass
  }

  /** No interior cell visited before (x, y) is grass. */
  ghost predicate NoGrassBefore(fl: Floor, x: int, y: int) {
    forall x', y' :: Interior(fl, x', y') && Precedes(x', y', x, y) ==> fl[y'][x'].kind != Grass
  }

  /** (x, y) is the first interior grass cell in row-major order. */
  ghost predicate IsFirstGrass(fl: Floor, x: int, y: int) {
    Interior(fl, x, y) && fl[y][x].kind == Grass && NoGrassBefore(fl, x, y)
  }

  lemma NoGrassStep(fl: Floor, x: int, y: int)
    requires NoGrassBefore(fl, x, y)
    requires 0 <= y < |fl| && 0 <= x < |fl[y]| && fl[y][x].kind != Grass
    ensures NoGrassBefore(fl, x + 1, y)
  {
  }

  lemma NoGrassNextRow(fl: Floor, x: int, y: int)
    requires NoGrassBefore(fl, x, y)
    requires 0 <= y < |fl| && x >= |fl[y]| - 1
    ensures NoGrassBefore(fl, 0, y + 1)
  {
  }

  lemma NoGrassAnywhere(fl: Floor, y: int)
    requires NoGrassBefore(fl, 0, y) && y >= |fl| - 1
    ensures !HasInteriorGrass(fl)
  {
  }

  /** Scans the interior row by row, left to right, and centres the start on the
      first grass cell; falls back to tile (1, 1) when there is none. */
  method FindFirstWalkableTile(floors: seq<Floor>, floor: int) returns (pos: Position)
    requires 0 <= floor < |floors|
    ensures pos.floor == floor
    ensures HasInteriorGrass(floors[floor]) ==>
      && IsFirstGrass(floors[floor], pos.x.Floor, pos.y.Floor)
      && pos.x == pos.x.Floor as real + 0.5 && pos.y == pos.y.Floor as real + 0.5
    ensures !HasInteriorGrass(floors[floor]) ==> pos == Position(1.5, 1.5, floor)
  {
    var fl := floors[floor];
    var returnX, returnY := 1, 1;
    var found := false;
    var y := 1;
    while y < |fl| - 1
      invariant 1 <= y
      invariant found ==> IsFirstGrass(fl, returnX, returnY)
      invariant !found ==> returnX == 1 && returnY == 1 && NoGrassBefore(fl, 0, y)
      decreases |fl| - y
    {
      var x := 1;
      assert NoGrassBefore(fl, x, y);
      while x < |fl[y]| - 1
        invariant 1 <= x
        invariant !found && returnX == 1 && returnY == 1
        invariant NoGrassBefore(fl, x, y)
        decreases |fl[y]| - x
      {
        if fl[y][x].kind == Grass {
          returnX, returnY := x, y;
          found := true;
          break;
        }
        NoGrassStep(fl, x, y);
        x := x + 1;
      }
      if found {
        break;
      }
      NoGrassNextRow(fl, x, y);
      y := y + 1;
    }
    if !found {
      NoGrassAnywhere(fl, y);
    }
    pos := Position(returnX as real + 0.5, returnY as real + 0.5, floor);
  }

  /** The start-tile search is deterministic: at most one cell is the first interior
      grass cell, so two scans of an unchanged floor agree. */
  lemma FirstGrassUnique(fl: Floor, x1: int, y1: int, x2: int, y2: int)
    requires IsFirstGrass(fl, x1, y1) && IsFirstGrass(fl, x2, y2)
    ensures x1 == x2 && y1 == y2
  {
  }

  /** A start position centred on an interior grass cell passes the default
      footprint test: all four corners floor to that same cell. */
  lemma StartTileWalkable(floors: seq<Floor>, f: int, x: int, y: int)
    requires 0 <= f < |floors| && Rectangular(floors[f])
    requires IsFirstGrass(floors[f], x, y)
    ensures FootprintWalkable(floors, x as real + 0.5, y as real + 0.5, f, DefaultPlayerSize)
  {
    var cx, cy := x as real + 0.5, y as real + 0.5;
    assert (cx - 0.25).Floor == x && (cx + 0.25).Floor == x;
    assert (cy - 0.25).Floor == y && (cy + 0.25).Floor == y;
    assert CellClear(floors[f], x, y);
  }

  /** A zero-size footprint is a plain centre-point test. */
  lemma ZeroFootprintIsCentre(floors: seq<Floor>, gridX: real, gridY: real, f: int)
    requires 0 <= f < |floors| && Rectangular(floors[f])
    ensures FootprintWalkable(floors, gridX, gridY, f, 0.0) == CornerClear(floors[f], gridX, gridY)
  {
  }

  /** A corner that floors outside the floor blocks the position, whatever the centre. */
  lemma OutOfBoundsCornerBlocks(floors: seq<Floor>, gridX: real, gridY: real, f: int, size: real)
    requires 0 <= f < |floors| && Rectangular(floors[f])
    requires !InFloor(floors[f], (gridX - size / 2.0).Floor, (gridY - size / 2.0).Floor)
          || !InFloor(floors[f], (gridX + size / 2.0).Floor, (gridY + size / 2.0).Floor)
    ensures !FootprintWalkable(floors, gridX, gridY, f, size)
  {
  }

  /** A point between a and b, at most one apart, floors to a's tile or to b's. */
  lemma FloorBetween(a: real, b: real, c: real)
    requires a <= c <= b && b - a <= 1.0
    ensures c.Floor == a.Floor || c.Floor == b.Floor
  {
    assert a.Floor <= c.Floor <= b.Floor;
    assert b.Floor <= a.Floor + 1;
  }

  /** Shrinking a footprint of side at most 1 at the same centre never turns a
      walkable position unwalkable: the smaller square's corners floor into the
      same (at most two) columns and rows that the larger square's corners do. */
  lemma ShrinkFootprint(floors: seq<Floor>, gridX: real, gridY: real, f: int, size: real, smaller: real)
    requires 0 <= f < |floors| && Rectangular(floors[f])
    requires 0.0 <= smaller <= size <= 1.0
    requires FootprintWalkable(floors, gridX, gridY, f, size)
    ensures FootprintWalkable(floors, gridX, gridY, f, smaller)
  {
    var fl, h, k := floors[f], size / 2.0, smaller / 2.0;
    var loX, hiX, loY, hiY := (gridX - h).Floor, (gridX + h).Floor, (gridY - h).Floor, (gridY + h).Floor;
    assert CellClear(fl, loX, loY) && CellClear(fl, hiX, loY) && CellClear(fl, loX, hiY) && CellClear(fl, hiX, hiY);
    FloorBetween(gridX - h, gridX + h, gridX - k);
    FloorBetween(gridX - h, gridX + h, gridX + k);
    FloorBetween(gridY - h, gridY + h, gridY - k);
    FloorBetween(gridY - h, gridY + h, gridY + k);
  }

  /** Beyond side 1 the shrinking property fails: a 2.5-wide footprint centred on a
      wall surrounded by grass has all four corners on grass, while the centre
      point alone is on the wall. */
  lemma WideFootprintSkipsMiddle()
    ensures var g, w := Cell(Grass, false, 0), Cell(1, false, 0);
            var floors := [[[g, g, g], [g, w, g], [g, g, g]]];
            FootprintWalkable(floors, 1.5, 1.5, 0, 2.5) && !FootprintWalkable(floors, 1.5, 1.5, 0, 0.0)
  {
    var g, w := Cell(Grass, false, 0), Cell(1, false, 0);
    var fl := [[g, g, g], [g, w, g], [g, g, g]];
    assert Rectangular(fl);
    assert (1.5 - 1.25).Floor == 0 && (1.5 + 1.25).Floor == 2 && (1.5).Floor == 1;
    assert CellClear(fl, 0, 0) && CellClear(fl, 2, 0) && CellClear(fl, 0, 2) && CellClear(fl, 2, 2);
    assert !CellClear(fl, 1, 1);
  }
}
