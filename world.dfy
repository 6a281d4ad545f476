/** The multi-floor world document: floors of rows of `[type, hasStairs, stairsDirection]`
    cells, indexed `[floor][y][x]`. Its contents are a parameter of the model. */
module World {

  /** Tile type codes of the world document; grass is the only walkable kind. */
  const Grass: int := 0
  const Wall: int := 1
  const Water: int := 2

  /** One `[type, hasStairs, stairsDirection]` triple of the world document. */
  datatype Cell = Cell(kind: int, hasStairs: bool, stairsDirection: int)

  type Floor = seq<seq<Cell>>

  /** A floor has at least one row, and every row is as long as row 0
      (row 0's length is what the bounds checks use as the width). */
  predicate Rectangular(fl: Floor) {
    |fl| > 0 && forall r :: 0 <= r < |fl| ==> |fl[r]| == |fl[0]|
  }

  function Width(fl: Floor): (w: nat)
    requires Rectangular(fl)
  {
    |fl[0]|
  }

  function Height(fl: Floor): nat {
    |fl|
  }

  /** Every floor is rectangular and all floors share the extents of floor 0. */
  predicate Uniform(floors: seq<Floor>) {
    forall f :: 0 <= f < |floors| ==>
      Rectangular(floors[f]) && |floors[f]| == |floors[0]| && |floors[f][0]| == |floors[0][0]|
  }

  predicate InFloor(fl: Floor, x: int, y: int)
    requires Rectangular(fl)
  {
    0 <= x < Width(fl) && 0 <= y < Height(fl)
  }

  /** The shared, mutable world document that every manager reads and the tile manager writes. */
  class WorldMap {
    var floors: seq<Floor>

    predicate Valid()
      reads this
    {
      Uniform(floors)
    }

    constructor (initial: seq<Floor>)
      requires Uniform(initial)
      ensures Valid() && floors == initial
    {
      floors := initial;
    }
  }
}
