/** The standalone top-down demo: a 10 x 10 grid of 50-pixel cells (0 open,
    1 obstacle), a 40 x 40 player box moved in pixel space by held keys, and a
    four-corner test that gates every move. */
module Demo {

  type Grid = seq<seq<int>>

  const Layout: Grid := [
    [0, 0, 0, 1, 0, 0, 0, 0, 0, 0],
    [0, 1, 0, 1, 0, 1, 1, 1, 1, 0],
    [0, 1, 0, 1, 0, 0, 0, 0, 0, 0],
    [0, 1, 0, 1, 1, 1, 1, 0, 1, 1],
    [0, 1, 0, 0, 0, 0, 0, 0, 0, 0],
    [0, 1, 1, 1, 1, 1, 1, 0, 1, 0],
    [0, 0, 0, 0, 0, 0, 0, 0, 1, 0],
    [1, 1, 1, 1, 1, 1, 1, 1, 1, 0],
    [0, 0, 0, 0, 0, 0, 0, 0, 0, 0],
    [0, 1, 1, 1, 1, 0, 1, 1, 1, 0]
  ]

  const TileSize: real := 50.0
  const PlayerSpeed: real := 5.0

  /** The player box is drawn 10 pixels smaller than a cell on each axis. */
  const PlayerWidth: real := TileSize - 10.0
  const PlayerHeight: real := TileSize - 10.0

  /** Whether a pixel lies on an open cell: the cell containing it must be inside
      the layout and hold 0. */
  function IsValidPosition(x: real, y: real): (valid: bool)
    ensures valid <==>
      var gx, gy := (x / TileSize).Floor, (y / TileSize).Floor;
      0 <= gy < |Layout| && 0 <= gx < |Layout[0]| && Layout[gy][gx] == 0
  {
    var gridX := (x / TileSize).Floor;
    var gridY := (y / TileSize).Floor;
    if gridX < 0 || gridX >= |Layout[0]| || gridY < 0 || gridY >= |Layout| then
      false
    else
      Layout[gridY][gridX] == 0
  }

  /** The move gate: all four corners of the box with top-left (x, y) are valid. */
  predicate BoxValid(x: real, y: real, width: real, height: real): (valid: bool)
    ensures valid ==> 0.0 <= x < TileSize * 10.0 && 0.0 <= y < TileSize * 10.0
    ensures valid ==> 0.0 <= x + width < TileSize * 10.0 && 0.0 <= y + height < TileSize * 10.0
  {
    && IsValidPosition(x, y)
    && IsValidPosition(x + width, y)
    && IsValidPosition(x, y + height)
    && IsValidPosition(x + width, y + height)
  }

  /** Whether a key is currently held; a key never pressed is not. */
  predicate Held(keys: map<string, bool>, key: string) {
    key in keys && keys[key]
  }

  /** The signed displacement along one axis in one frame: each held key of the
      pair contributes its speed times delta in its own direction. */
  function AxisStep(negative: bool, positive: bool, delta: real): (d: real)
    ensures negative == positive ==> d == 0.0
    ensures negative && !positive ==> d == -PlayerSpeed * delta
    ensures !negative && positive ==> d == PlayerSpeed * delta
  {
    (if positive then PlayerSpeed * delta else 0.0) - (if negative then PlayerSpeed * delta else 0.0)
  }

  /** Row-major order: (x1, y1) is visited before (x2, y2). */
  predicate Precedes(x1: int, y1: int, x2: int, y2: int) {
    y1 < y2 || (y1 == y2 && x1 < x2)
  }

  predicate InGrid(grid: Grid, x: int, y: int) {
    0 <= y < |grid| && 0 <= x < |grid[y]|
  }

  ghost predicate HasOpenCell(grid: Grid) {
    exists x, y :: InGrid(grid, x, y) && grid[y][x] == 0
  }

  /** No cell visited before (x, y), border included, is open. */
  ghost predicate NoOpenBefore(grid: Grid, x: int, y: int) {
    forall x', y' :: InGrid(grid, x', y') && Precedes(x', y', x, y) ==> grid[y'][x'] != 0
  }

  /** (x, y) is the first open cell of the whole grid in row-major order. */
  ghost predicate IsFirstOpen(grid: Grid, x: int, y: int) {
    InGrid(grid, x, y) && grid[y][x] == 0 && NoOpenBefore(grid, x, y)
  }

  lemma NoOpenStep(grid: Grid, x: int, y: int)
    requires NoOpenBefore(grid, x, y)
    requires InGrid(grid, x, y) && grid[y][x] != 0
    ensures NoOpenBefore(grid, x + 1, y)
  {
  }

  lemma NoOpenNextRow(grid: Grid, x: int, y: int)
    requires NoOpenBefore(grid, x, y)
    requires 0 <= y < |grid| && x >= |grid[y]|
    ensures NoOpenBefore(grid, 0, y + 1)
  {
  }

  lemma NoOpenAnywhere(grid: Grid, y: int)
    requires NoOpenBefore(grid, 0, y) && y >= |grid|
    ensures !HasOpenCell(grid)
  {
  }

  /** The top-left cell of the layout is open, so the scan stops there. */
  lemma LayoutStart()
    ensures IsFirstOpen(Layout, 0, 0)
  {
  }

  /** The start the scan picks on this layout is pixel (5, 5), and a 40 x 40 box
      placed there passes the move gate. */
  lemma StartPassesGate(x: int, y: int)
    requires IsFirstOpen(Layout, x, y)
    ensures TileSize * x as real + 5.0 == 5.0 && TileSize * y as real + 5.0 == 5.0
    ensures BoxValid(TileSize * x as real + 5.0, TileSize * y as real + 5.0, PlayerWidth, PlayerHeight)
  {
    assert Layout[0][0] == 0;
    assert x == 0 && y == 0;
    assert (5.0 / TileSize).Floor == 0;
    assert (45.0 / TileSize).Floor == 0;
  }

  class Game {
    var playerX: real
    var playerY: real
    /** Held state by lower-cased key name. */
    var keys: map<string, bool>

    /** The player starts at the centre of cell (0, 0) with no key recorded. */
    constructor ()
      ensures playerX == TileSize / 2.0 && playerY == TileSize / 2.0
      ensures keys == map[]
    {
      playerX, playerY := TileSize / 2.0, TileSize / 2.0;
      keys := map[];
    }

    /** A key event records the key's held state, for any key. */
    method SetKey(key: string, held: bool)
      modifies this`keys
      ensures keys == old(keys)[key := held]
      ensures Held(keys, key) == held
      ensures forall k :: k != key ==> Held(keys, k) == Held(old(keys), k)
    {
      keys := keys[key := held];
    }

    /** One ticker frame: every held key shifts the candidate position by
        PlayerSpeed * delta on its axis, and the candidate is taken only when the
        player box there passes the four-corner gate. */
    method Tick(delta: real)
      modifies this`playerX, this`playerY
      ensures var nx := old(playerX)
                + AxisStep(Held(keys, "a") || Held(keys, "arrowleft"), Held(keys, "d") || Held(keys, "arrowright"), delta);
              var ny := old(playerY)
                + AxisStep(Held(keys, "w") || Held(keys, "arrowup"), Held(keys, "s") || Held(keys, "arrowdown"), delta);
              if BoxValid(nx, ny, PlayerWidth, PlayerHeight)
              then playerX == nx && playerY == ny
              else playerX == old(playerX) && playerY == old(playerY)
    {
      var newX, newY := playerX, playerY;

      if Held(keys, "w") || Held(keys, "arrowup") {
        newY := newY - PlayerSpeed * delta;
      }
      if Held(keys, "s") || Held(keys, "arrowdown") {
        newY := newY + PlayerSpeed * delta;
      }
      if Held(keys, "a") || Held(keys, "arrowleft") {
        newX := newX - PlayerSpeed * delta;
      }
      if Held(keys, "d") || Held(keys, "arrowright") {
        newX := newX + PlayerSpeed * delta;
      }

      if && IsValidPosition(newX, newY)
         && IsValidPosition(newX + PlayerWidth, newY)
         && IsValidPosition(newX, newY + PlayerHeight)
         && IsValidPosition(newX + PlayerWidth, newY + PlayerHeight)
      {
        playerX := newX;
        playerY := newY;
      }
    }

    /** Places the player 5 pixels inside the first open cell of the whole grid,
        border included; with no open cell the position is left as it was. */
    method Init()
      modifies this`playerX, this`playerY
      ensures HasOpenCell(Layout) ==>
        exists x, y :: IsFirstOpen(Layout, x, y)
          && playerX == TileSize * x as real + 5.0 && playerY == TileSize * y as real + 5.0
      ensures !HasOpenCell(Layout) ==> playerX == old(playerX) && playerY == old(playerY)
    {
      var y := 0;
      while y < |Layout|
        invariant 0 <= y <= |Layout|
        invariant NoOpenBefore(Layout, 0, y)
        invariant playerX == old(playerX) && playerY == old(playerY)
      {
        var x := 0;
        while x < |Layout[y]|
          invariant 0 <= x <= |Layout[y]|
          invariant NoOpenBefore(Layout, x, y)
          invariant playerX == old(playerX) && playerY == old(playerY)
        {
          if Layout[y][x] == 0 {
            playerX := TileSize * x as real + 5.0;
            playerY := TileSize * y as real + 5.0;
            assert IsFirstOpen(Layout, x, y);
            assert HasOpenCell(Layout);
            return;
          }
          NoOpenStep(Layout, x, y);
          x := x + 1;
        }
        NoOpenNextRow(Layout, x, y);
        y := y + 1;
      }
      NoOpenAnywhere(Layout, y);
    }
  }

  /** Holding both keys of a pair leaves that axis where it was. */
  lemma OppositeKeysCancel(delta: real)
    ensures AxisStep(true, true, delta) == 0.0
  {
  }
}
