/** The multi-floor player: grid position and floor, screen position, facing,
    held-key flags and the stairs cooldown, advanced once per frame. */
module MultiFloorPlayer {
  import opened World
  import MapHelpers
  import Collision
  import FloorManagement
  import MultiFloorMap
  import MultiFloorTile
  import opened Movement
  import opened Wrappers

  /** Frames during which the stairs cannot be used again after a floor change. */
  const InteractionCooldownMax: int := 30

  /** Grid units moved per frame on each active axis. */
  const PlayerSpeed: real := 0.1

  /** Held-key flags. */
  datatype Keys = Keys(up: bool, down: bool, left: bool, right: bool, interact: bool)

  const NoKeys: Keys := Keys(false, false, false, false, false)

  function FlagValue(keys: Keys, flag: Flag): bool {
    match flag
    case Up => keys.up
    case Down => keys.down
    case Left => keys.left
    case Right => keys.right
    case Interact => keys.interact
  }

  /** Sets one flag to value and leaves the other four as they were. */
  function WithFlag(keys: Keys, flag: Flag, value: bool): (k: Keys)
    ensures FlagValue(k, flag) == value
    ensures forall other :: other != flag ==> FlagValue(k, other) == FlagValue(keys, other)
  {
    match flag
    case Up => keys.(up := value)
    case Down => keys.(down := value)
    case Left => keys.(left := value)
    case Right => keys.(right := value)
    case Interact => keys.(interact := value)
  }

  /** The key flags after a key event: the key's flag takes value, every other
      flag is kept; a key that drives no flag changes nothing. */
  function KeysAfter(keys: Keys, key: string, value: bool): (k: Keys)
    ensures KeyFlag(key).Some? ==> FlagValue(k, KeyFlag(key).value) == value
    ensures forall other :: KeyFlag(key) != Some(other) ==> FlagValue(k, other) == FlagValue(keys, other)
  {
    match KeyFlag(key)
    case Some(flag) => WithFlag(keys, flag, value)
    case None => keys
  }

  /** One frame of cooldown: a positive count drops by one. */
  function CooledDown(cooldown: int): (c: int)
    requires 0 <= cooldown <= InteractionCooldownMax
    ensures 0 <= c <= InteractionCooldownMax
    ensures cooldown > 0 ==> c == cooldown - 1
    ensures cooldown == 0 ==> c == 0
  {
    if cooldown > 0 then cooldown - 1 else cooldown
  }

  /** Vertical screen lift of a floor as the player applies it. */
  function PlayerFloorOffset(floor: int): real {
    floor as real * (32.0 + 5.0)
  }

  /** The player lifts its sprite by exactly the offset tiles of the same floor use. */
  lemma FloorOffsetMatchesTiles(floor: int)
    ensures PlayerFloorOffset(floor) == MultiFloorTile.FloorOffset(floor)
  {
  }

  class Player {
    const gameMap: MultiFloorMap.Map

    var gridX: real
    var gridY: real
    var floor: int
    var x: real
    var y: real
    var isMoving: bool
    var direction: Direction
    var animationFrame: int

    var keys: Keys
    var interactionCooldown: int

    /** The player stands on an existing floor of the map, and the cooldown and the
        animation frame are in range. */
    ghost predicate Valid()
      reads this, gameMap, gameMap.world
    {
      && gameMap.Valid()
      && 0 <= floor < |gameMap.world.floors|
      && 0 <= interactionCooldown <= InteractionCooldownMax
      && 0 <= animationFrame < 4
    }

    /** The screen position is the projection of the grid position. */
    ghost predicate Synced()
      reads this
    {
      x == MapHelpers.GridToIso(gridX, gridY).x && y == MapHelpers.GridToIso(gridX, gridY).y
    }

    constructor (gameMap: MultiFloorMap.Map)
      requires gameMap.Valid() && |gameMap.world.floors| > 0
      ensures Valid() && this.gameMap == gameMap
      ensures gridX == 5.0 && gridY == 5.0 && floor == 0 && x == 0.0 && y == 0.0
      ensures !isMoving && direction == South && animationFrame == 0
      ensures keys == NoKeys && interactionCooldown == 0
    {
      this.gameMap := gameMap;
      gridX, gridY, floor := 5.0, 5.0, 0;
      x, y := 0.0, 0.0;
      isMoving, direction, animationFrame := false, South, 0;
      keys := NoKeys;
      interactionCooldown := 0;
    }

    /** Places the player on the start tile of floor 0 and projects it to the screen;
        when floor 0 has an interior grass cell the start passes the default
        footprint test. */
    method Init()
      requires Valid()
      modifies this
      ensures Valid() && Synced()
      ensures floor == 0
      ensures Collision.HasInteriorGrass(gameMap.world.floors[0]) ==>
        && Collision.IsFirstGrass(gameMap.world.floors[0], gridX.Floor, gridY.Floor)
        && gridX == gridX.Floor as real + 0.5 && gridY == gridY.Floor as real + 0.5
        && Collision.FootprintWalkable(gameMap.world.floors, gridX, gridY, 0, Collision.DefaultPlayerSize)
      ensures !Collision.HasInteriorGrass(gameMap.world.floors[0]) ==> gridX == 1.5 && gridY == 1.5
      ensures isMoving == old(isMoving) && direction == old(direction) && animationFrame == old(animationFrame)
      ensures keys == old(keys) && interactionCooldown == old(interactionCooldown)
    {
      var validPosition := gameMap.FindFirstWalkableTile(0);
      gridX := validPosition.x;
      gridY := validPosition.y;
      floor := validPosition.floor;
      var isoPos := MapHelpers.GridToIso(gridX, gridY);
      x := isoPos.x;
      y := isoPos.y;
      if Collision.HasInteriorGrass(gameMap.world.floors[0]) {
        Collision.StartTileWalkable(gameMap.world.floors, 0, gridX.Floor, gridY.Floor);
      }
    }

    method HandleKeyDown(key: string)
      modifies this`keys
      ensures keys == KeysAfter(old(keys), key, true)
    {
      match KeyFlag(key)
      case Some(flag) => keys := WithFlag(keys, flag, true);
      case None =>
    }

    method HandleKeyUp(key: string)
      modifies this`keys
      ensures keys == KeysAfter(old(keys), key, false)
    {
      match KeyFlag(key)
      case Some(flag) => keys := WithFlag(keys, flag, false);
      case None =>
    }

    /** One frame. The cooldown ticks down; held arrow keys choose a direction per
        axis and the facing; with interact held and the cooldown at 0, stairs
        under the pre-move position take the player to the next floor if the map
        accepts it, restarting the cooldown; then the 0.1-tile step is committed
        only if the footprint is walkable on the (possibly new) floor.
        `tick` stands for the frame-time test that advances the animation. */
    method Update(tick: bool)
      requires Valid()
      modifies this, gameMap.floorManager
      ensures Valid()
      ensures old(Synced()) ==> Synced()
      ensures keys == old(keys)
      // interaction
      ensures var c := CooledDown(old(interactionCooldown));
              var d := Collision.CheckForStairs(gameMap.world.floors, old(gridX), old(gridY), old(floor));
              var climbs := keys.interact && c == 0 && d != 0 && 0 <= old(floor) + d < |gameMap.world.floors|;
              && floor == (if climbs then old(floor) + d else old(floor))
              && interactionCooldown == (if climbs then InteractionCooldownMax else c)
              && (climbs ==> FloorManagement.Shows(gameMap.floorManager.floorContainers, floor)
                             && gameMap.floorManager.currentFloor == floor
                             && |gameMap.floorManager.floorContainers| == |old(gameMap.floorManager.floorContainers)|)
              && (!climbs ==> unchanged(gameMap.floorManager))
      // movement
      ensures direction == Facing(keys.up, keys.down, keys.left, keys.right, old(direction))
      ensures var mx, my := MoveX(keys.left, keys.right), MoveY(keys.up, keys.down);
              var nx, ny := old(gridX) + Displacement(PlayerSpeed, mx), old(gridY) + Displacement(PlayerSpeed, my);
              var commits := (mx != 0 || my != 0)
                && Collision.FootprintWalkable(gameMap.world.floors, nx, ny, floor, Collision.DefaultPlayerSize);
              && isMoving == commits
              && gridX == (if commits then nx else old(gridX))
              && gridY == (if commits then ny else old(gridY))
              && x == (if commits then MapHelpers.GridToIso(nx, ny).x else old(x))
              && y == (if commits then MapHelpers.GridToIso(nx, ny).y else old(y))
              && animationFrame == (if commits && tick then (old(animationFrame) + 1) % 4 else old(animationFrame))
    {
      if interactionCooldown > 0 {
        interactionCooldown := interactionCooldown - 1;
      }
      var moveX, moveY := ChooseMove();
      UseStairs();
      Advance(moveX, moveY, tick);
    }

    /** The key-driven part of a frame: a step sign per axis, the facing, and
        whether the frame moves. */
    method ChooseMove() returns (moveX: int, moveY: int)
      modifies this`direction, this`isMoving
      ensures moveX == MoveX(keys.left, keys.right) && moveY == MoveY(keys.up, keys.down)
      ensures direction == Facing(keys.up, keys.down, keys.left, keys.right, old(direction))
      ensures isMoving == (moveX != 0 || moveY != 0)
    {
      isMoving := false;
      moveX, moveY := 0, 0;

      if keys.up {
        moveY := -1;
        direction := North;
        isMoving := true;
      } else if keys.down {
        moveY := 1;
        direction := South;
        isMoving := true;
      }

      if keys.left {
        moveX := -1;
        direction := West;
        isMoving := true;
      } else if keys.right {
        moveX := 1;
        direction := East;
        isMoving := true;
      }
    }

    /** The stairs part of a frame: with interact held and no cooldown left, stairs
        at the current cell move the player one floor if the map accepts the
        target, and the cooldown restarts. */
    method UseStairs()
      requires Valid()
      modifies this`floor, this`interactionCooldown, gameMap.floorManager
      ensures Valid()
      ensures var d := Collision.CheckForStairs(gameMap.world.floors, gridX, gridY, old(floor));
              var climbs := keys.interact && old(interactionCooldown) == 0 && d != 0
                && 0 <= old(floor) + d < |gameMap.world.floors|;
              && floor == (if climbs then old(floor) + d else old(floor))
              && interactionCooldown == (if climbs then InteractionCooldownMax else old(interactionCooldown))
              && (climbs ==> FloorManagement.Shows(gameMap.floorManager.floorContainers, floor)
                             && gameMap.floorManager.currentFloor == floor
                             && |gameMap.floorManager.floorContainers| == |old(gameMap.floorManager.floorContainers)|)
              && (!climbs ==> unchanged(gameMap.floorManager))
    {
      if keys.interact && interactionCooldown == 0 {
        var stairsDirection := gameMap.CheckForStairs(gridX, gridY, floor);
        if stairsDirection != 0 {
          var newFloor := floor + stairsDirection;
          var success := gameMap.ChangeFloor(newFloor);
          if success {
            floor := newFloor;
            interactionCooldown := InteractionCooldownMax;
          }
        }
      }
    }

    /** The movement part of a frame: the 0.1-tile step is taken, and the screen
        position reprojected, only when the default footprint at the candidate
        position is walkable on the current floor; a blocked step stops the player. */
    method Advance(moveX: int, moveY: int, tick: bool)
      requires Valid()
      requires isMoving == (moveX != 0 || moveY != 0)
      modifies this`gridX, this`gridY, this`x, this`y, this`isMoving, this`animationFrame
      ensures var nx := old(gridX) + Displacement(PlayerSpeed, moveX);
              var ny := old(gridY) + Displacement(PlayerSpeed, moveY);
              var commits := (moveX != 0 || moveY != 0)
                && Collision.FootprintWalkable(gameMap.world.floors, nx, ny, floor, Collision.DefaultPlayerSize);
              && isMoving == commits
              && gridX == (if commits then nx else old(gridX))
              && gridY == (if commits then ny else old(gridY))
              && x == (if commits then MapHelpers.GridToIso(nx, ny).x else old(x))
              && y == (if commits then MapHelpers.GridToIso(nx, ny).y else old(y))
              && animationFrame == (if commits && tick then (old(animationFrame) + 1) % 4 else old(animationFrame))
    {
      if isMoving {
        var newGridX, newGridY := gridX, gridY;
        if moveX > 0 { newGridX := newGridX + PlayerSpeed; }
        if moveX < 0 { newGridX := newGridX - PlayerSpeed; }
        if moveY > 0 { newGridY := newGridY + PlayerSpeed; }
        if moveY < 0 { newGridY := newGridY - PlayerSpeed; }

        var walkable := gameMap.IsWalkableTile(newGridX, newGridY, floor, Collision.DefaultPlayerSize);
        if walkable {
          gridX := newGridX;
          gridY := newGridY;
          var isoPos := MapHelpers.GridToIso(gridX, gridY);
          x := isoPos.x;
          y := isoPos.y;
          if tick {
            animationFrame := (animationFrame + 1) % 4;
          }
        } else {
          isMoving := false;
        }
      }
    }

    function GetScreenX(): real
      reads this
    {
      x
    }

    /** The camera's vertical target: the projected position lifted by the floor offset. */
    function GetScreenY(): (sy: real)
      reads this
      ensures sy == y - floor as real * 37.0
    {
      y - PlayerFloorOffset(floor)
    }

    function GetCurrentFloor(): int
      reads this
    {
      floor
    }
  }
}
