/** The single-floor player: keyboard steering at 0.1 tile per frame with a
    centre-point walkability test, and a click target that is recorded but never
    steered towards. */
module SingleFloorPlayer {
  import MapHelpers
  import SingleFloorMap
  import opened Movement
  import opened Wrappers

  /** Grid units moved per frame on each active axis. */
  const PlayerSpeed: real := 0.1

  /** Held steering keys; this player has no interact key. */
  datatype Keys = Keys(up: bool, down: bool, left: bool, right: bool)

  const NoKeys: Keys := Keys(false, false, false, false)

  /** The steering keys after a key event: the key's flag takes value, every other
      flag is kept; the interact key and unknown keys change nothing. */
  function KeysAfter(keys: Keys, key: string, value: bool): (k: Keys)
    ensures k.up == (if key == "w" || key == "arrowup" then value else keys.up)
    ensures k.down == (if key == "s" || key == "arrowdown" then value else keys.down)
    ensures k.left == (if key == "a" || key == "arrowleft" then value else keys.left)
    ensures k.right == (if key == "d" || key == "arrowright" then value else keys.right)
  {
    match KeyFlag(key)
    case Some(Up) => keys.(up := value)
    case Some(Down) => keys.(down := value)
    case Some(Left) => keys.(left := value)
    case Some(Right) => keys.(right := value)
    case Some(Interact) => keys
    case None => keys
  }

  class Player {
    const gameMap: SingleFloorMap.Map

    var gridX: real
    var gridY: real
    var x: real
    var y: real
    var targetGridX: real
    var targetGridY: real
    var isMoving: bool
    var direction: Direction
    var animationFrame: int

    var keys: Keys

    /** The player stands on a walkable point of the layout. */
    predicate OnGrass()
      requires gameMap.Valid()
      reads this
    {
      gameMap.IsWalkableTile(gridX, gridY)
    }

    /** The screen position is the projection of the grid position. */
    ghost predicate Synced()
      reads this
    {
      x == MapHelpers.GridToIso(gridX, gridY).x && y == MapHelpers.GridToIso(gridX, gridY).y
    }

    constructor (gameMap: SingleFloorMap.Map)
      ensures this.gameMap == gameMap
      ensures gridX == 5.0 && gridY == 5.0 && x == 0.0 && y == 0.0
      ensures targetGridX == 5.0 && targetGridY == 5.0
      ensures !isMoving && direction == South && animationFrame == 0 && keys == NoKeys
    {
      this.gameMap := gameMap;
      gridX, gridY, x, y := 5.0, 5.0, 0.0, 0.0;
      targetGridX, targetGridY := 5.0, 5.0;
      isMoving, direction, animationFrame := false, South, 0;
      keys := NoKeys;
    }

    /** Starts the player, and its target, on tile (1, 1) of the built-in layout,
        which is walkable. */
    method Init()
      requires gameMap.worldMap == SingleFloorMap.WorldMap
      modifies this
      ensures gridX == 1.0 && gridY == 1.0
      ensures targetGridX == gridX && targetGridY == gridY
      ensures OnGrass() && Synced()
      ensures isMoving == old(isMoving) && direction == old(direction)
      ensures animationFrame == old(animationFrame) && keys == old(keys)
    {
      var validX, validY := gameMap.FindFirstWalkableTile();
      SingleFloorMap.WorldMapStart();
      SingleFloorMap.StartIsCornerCell(gameMap, validX, validY);
      gridX := validX as real;
      gridY := validY as real;
      targetGridX := gridX;
      targetGridY := gridY;
      var isoPos := gameMap.GridToIso(gridX, gridY);
      x := isoPos.x;
      y := isoPos.y;
    }

    method HandleKeyDown(key: string)
      modifies this`keys
      ensures keys == KeysAfter(old(keys), key, true)
    {
      match KeyFlag(key)
      case Some(Up) => keys := keys.(up := true);
      case Some(Down) => keys := keys.(down := true);
      case Some(Left) => keys := keys.(left := true);
      case Some(Right) => keys := keys.(right := true);
      case Some(Interact) =>
      case None =>
    }

    method HandleKeyUp(key: string)
      modifies this`keys
      ensures keys == KeysAfter(old(keys), key, false)
    {
      match KeyFlag(key)
      case Some(Up) => keys := keys.(up := false);
      case Some(Down) => keys := keys.(down := false);
      case Some(Left) => keys := keys.(left := false);
      case Some(Right) => keys := keys.(right := false);
      case Some(Interact) =>
      case None =>
    }

    /** A click at a global screen point, with the world container at
        (containerX, containerY): the clicked cell becomes the target only when it
        is walkable. */
    method HandlePointerDown(globalX: real, globalY: real, containerX: real, containerY: real)
      requires gameMap.Valid()
      modifies this`targetGridX, this`targetGridY
      ensures var g := MapHelpers.IsoToGrid(globalX - containerX, globalY - containerY);
              if gameMap.IsWalkableTile(g.gridX as real, g.gridY as real)
              then targetGridX == g.gridX as real && targetGridY == g.gridY as real
              else targetGridX == old(targetGridX) && targetGridY == old(targetGridY)
    {
      var worldX := globalX - containerX;
      var worldY := globalY - containerY;
      var cell := gameMap.IsoToGrid(worldX, worldY);
      assert cell == MapHelpers.IsoToGrid(globalX - containerX, globalY - containerY);
      if gameMap.IsWalkableTile(cell.gridX as real, cell.gridY as real) {
        targetGridX := cell.gridX as real;
        targetGridY := cell.gridY as real;
      }
    }

    /** One frame: held keys choose a step sign per axis and the facing; the
        0.1-tile step is committed only if its end point is walkable, so a player
        on grass stays on grass. The click target is left alone. `tick` stands for
        the frame-time test that advances the animation. */
    method Update(tick: bool)
      requires gameMap.Valid()
      requires 0 <= animationFrame < 4
      modifies this
      ensures 0 <= animationFrame < 4
      ensures keys == old(keys) && targetGridX == old(targetGridX) && targetGridY == old(targetGridY)
      ensures old(OnGrass()) ==> OnGrass()
      ensures old(Synced()) ==> Synced()
      ensures direction == Facing(keys.up, keys.down, keys.left, keys.right, old(direction))
      ensures var mx, my := MoveX(keys.left, keys.right), MoveY(keys.up, keys.down);
              var nx, ny := old(gridX) + PlayerSpeed * mx as real, old(gridY) + PlayerSpeed * my as real;
              var commits := (mx != 0 || my != 0) && gameMap.IsWalkableTile(nx, ny);
              && isMoving == commits
              && gridX == (if commits then nx else old(gridX))
              && gridY == (if commits then ny else old(gridY))
              && x == (if commits then MapHelpers.GridToIso(nx, ny).x else old(x))
              && y == (if commits then MapHelpers.GridToIso(nx, ny).y else old(y))
              && animationFrame == (if commits && tick then (old(animationFrame) + 1) % 4 else old(animationFrame))
    {
      var moveX, moveY := ChooseMove();
      Advance(moveX, moveY, tick);
    }

    /** The key-driven part of a frame: a step sign per axis, the facing, and
        whether the frame moves. */
    method ChooseMove() returns (moveX: int, moveY: int)
      modifies this`direction, this`isMoving
      ensures moveX == MoveX(keys.left, keys.right) && moveY == MoveY(keys.up, keys.down)
      ensures direction == Facing(keys.up, keys.down, keys.left, keys.right, old(direction))
      ensures isMoving == (moveX != 0 || moveY != 0)
    {
      isMoving := false;
      moveX, moveY := 0, 0;

      if keys.up {
        moveY := -1;
        direction := North;
        isMoving := true;
      } else if keys.down {
        moveY := 1;
        direction := South;
        isMoving := true;
      }

      if keys.left {
        moveX := -1;
        direction := West;
        isMoving := true;
      } else if keys.right {
        moveX := 1;
        direction := East;
        isMoving := true;
      }
    }

    /** The movement part of a frame: the step is taken, and the screen position
        reprojected, only when its end point is walkable; a blocked step stops the
        player. */
    method Advance(moveX: int, moveY: int, tick: bool)
      requires gameMap.Valid()
      requires isMoving == (moveX != 0 || moveY != 0)
      requires 0 <= animationFrame < 4
      modifies this`gridX, this`gridY, this`x, this`y, this`isMoving, this`animationFrame
      ensures var nx := old(gridX) + (if moveX > 0 then PlayerSpeed else if moveX < 0 then -PlayerSpeed else 0.0);
              var ny := old(gridY) + (if moveY > 0 then PlayerSpeed else if moveY < 0 then -PlayerSpeed else 0.0);
              var commits := (moveX != 0 || moveY != 0) && gameMap.IsWalkableTile(nx, ny);
              && isMoving == commits
              && gridX == (if commits then nx else old(gridX))
              && gridY == (if commits then ny else old(gridY))
              && x == (if commits then MapHelpers.GridToIso(nx, ny).x else old(x))
              && y == (if commits then MapHelpers.GridToIso(nx, ny).y else old(y))
              && animationFrame == (if commits && tick then (old(animationFrame) + 1) % 4 else old(animationFrame))
    {
      if isMoving {
        var newGridX, newGridY := gridX, gridY;
        if moveX > 0 { newGridX := newGridX + PlayerSpeed; }
        if moveX < 0 { newGridX := newGridX - PlayerSpeed; }
        if moveY > 0 { newGridY := newGridY + PlayerSpeed; }
        if moveY < 0 { newGridY := newGridY - PlayerSpeed; }
        assert newGridX == old(gridX) + (if moveX > 0 then PlayerSpeed else if moveX < 0 then -PlayerSpeed else 0.0);
        assert newGridY == old(gridY) + (if moveY > 0 then PlayerSpeed else if moveY < 0 then -PlayerSpeed else 0.0);

        var walkable := gameMap.IsWalkableTile(newGridX, newGridY);
        if walkable {
          gridX := newGridX;
          gridY := newGridY;
          var isoPos := gameMap.GridToIso(gridX, gridY);
          x := isoPos.x;
          y := isoPos.y;
          if tick {
            animationFrame := (animationFrame + 1) % 4;
          }
        } else {
          isMoving := false;
        }
      }
    }

    function GetScreenX(): real
      reads this
    {
      x
    }

    function GetScreenY(): real
      reads this
    {
      y
    }
  }
}
