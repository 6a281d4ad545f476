/** The multi-floor map facade: owns the floor manager and the tile manager, shares
    the world document with them, and forwards the collision queries. */
module MultiFloorMap {
  import opened World
  import Collision
  import FloorManagement
  import TileManagement

  class Map {
    const world: WorldMap
    const floorManager: FloorManagement.FloorManager
    const tileManager: TileManagement.TileManager

    /** The tile manager writes the same world document that the queries read. */
    ghost predicate Valid()
      reads this, world
    {
      world.Valid() && tileManager.world == world
    }

    constructor (world: WorldMap)
      requires world.Valid()
      ensures Valid() && this.world == world
      ensures fresh(floorManager) && fresh(tileManager)
      ensures |floorManager.floorContainers| == |world.floors|
      ensures forall f :: 0 <= f < |world.floors| ==> floorManager.floorContainers[f] == FloorManagement.NewContainers
      ensures floorManager.currentFloor == 0
      ensures tileManager.tiles == map[]
    {
      this.world := world;
      floorManager := new FloorManagement.FloorManager(|world.floors|);
      tileManager := new TileManagement.TileManager(world);
    }

    /** Creates every floor's tiles, then shows floor 0 only: all higher floors hidden. */
    method Draw()
      requires Valid()
      modifies tileManager, floorManager
      ensures tileManager.tiles == old(tileManager.tiles) + TileManagement.BuiltTiles(world.floors)
      ensures |floorManager.floorContainers| == |old(floorManager.floorContainers)|
      ensures FloorManagement.Shows(floorManager.floorContainers, 0)
      ensures floorManager.currentFloor == 0
    {
      tileManager.CreateTiles();
      floorManager.SetFloorVisibility(0);
    }

    /** Rejects a target outside the world's floors, leaving the visibility state
        alone; otherwise shows the target floor and makes it current. */
    method ChangeFloor(newFloor: int) returns (ok: bool)
      modifies floorManager
      ensures ok <==> 0 <= newFloor < |world.floors|
      ensures !ok ==> unchanged(floorManager)
      ensures ok ==> |floorManager.floorContainers| == |old(floorManager.floorContainers)|
      ensures ok ==> FloorManagement.Shows(floorManager.floorContainers, newFloor)
      ensures ok ==> floorManager.currentFloor == newFloor
    {
      if newFloor < 0 || newFloor >= |world.floors| {
        return false;
      }
      floorManager.SetFloorVisibility(newFloor);
      return true;
    }

    function CheckForStairs(gridX: real, gridY: real, currentFloor: int): (d: int)
      reads world
      requires world.Valid() && 0 <= currentFloor < |world.floors|
      ensures d == Collision.CheckForStairs(world.floors, gridX, gridY, currentFloor)
    {
      Collision.CheckForStairs(world.floors, gridX, gridY, currentFloor)
    }

    method IsWalkableTile(gridX: real, gridY: real, currentFloor: int, playerSize: real) returns (walkable: bool)
      requires world.Valid() && 0 <= currentFloor < |world.floors|
      ensures walkable == Collision.FootprintWalkable(world.floors, gridX, gridY, currentFloor, playerSize)
    {
      walkable := Collision.IsWalkableTile(world.floors, gridX, gridY, currentFloor, playerSize);
    }

    method FindFirstWalkableTile(floor: int) returns (pos: Collision.Position)
      requires 0 <= floor < |world.floors|
      ensures pos.floor == floor
      ensures Collision.HasInteriorGrass(world.floors[floor]) ==>
        && Collision.IsFirstGrass(world.floors[floor], pos.x.Floor, pos.y.Floor)
        && pos.x == pos.x.Floor as real + 0.5 && pos.y == pos.y.Floor as real + 0.5
      ensures !Collision.HasInteriorGrass(world.floors[floor]) ==> pos == Collision.Position(1.5, 1.5, floor)
    {
      pos := Collision.FindFirstWalkableTile(world.floors, floor);
    }

    function GetCurrentFloor(): (f: int)
      reads floorManager
      ensures f == floorManager.GetCurrentFloor()
    {
      floorManager.currentFloor
    }

    method CreateStairs(x: int, y: int, fromFloor: int, toFloor: int) returns (ok: bool)
      requires Valid()
      modifies tileManager, world
      ensures Valid()
      ensures ok == TileManagement.StairsArgsValid(old(world.floors), x, y, fromFloor, toFloor)
      ensures !ok ==> world.floors == old(world.floors) && tileManager.tiles == old(tileManager.tiles)
      ensures ok ==> world.floors == TileManagement.WithStairs(old(world.floors), x, y, fromFloor, toFloor)
      ensures ok ==> tileManager.tiles == old(tileManager.tiles)
        [(fromFloor, y, x) := TileManagement.TileFor(world.floors, fromFloor, y, x)]
        [(toFloor, y, x) := TileManagement.TileFor(world.floors, toFloor, y, x)]
    {
      ok := tileManager.CreateStairs(x, y, fromFloor, toFloor);
    }
  }
}
