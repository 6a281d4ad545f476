# Isometric tile demo: grid navigation and collision, in Dafny

This project models the navigation core of a small PixiJS isometric tile demo:

- the grid/screen projection shared by every part of the demo;
- the multi-floor world: a sequence of rectangular floors of `[type, hasStairs, stairsDirection]` cells;
- the multi-floor collision manager: the four-corner footprint test, the stairs lookup and the start-tile search;
- the tile manager, which builds one tile per cell and writes mirrored stairs pairs into the shared world;
- the floor manager's visibility bookkeeping and the multi-floor map facade around all of these;
- the multi-floor player's per-frame state machine: cooldown, key priority, stairs use, collision-gated 0.1-tile steps;
- the earlier single-floor snapshot: a fixed 20 x 20 map, its tiles and its player;
- the standalone pixel-space demo script with its four-corner move gate.

Files whose names differ only in case are different programs in the repository, so they are separate modules here:

| source | module | file |
|---|---|---|
| src/lib/map-helpers.ts | `MapHelpers` | map_helpers.dfy |
| world document (src/data/world.json) | `World` | world.dfy |
| optional values, shared | `Wrappers` | wrappers.dfy |
| src/collision.ts | `Collision` | collision.dfy |
| src/tile-manager.ts | `TileManagement` | tile_manager.dfy |
| src/floor-manager.ts | `FloorManagement` | floor_manager.dfy |
| src/map.ts | `MultiFloorMap` | multi_floor_map.dfy |
| src/tile.ts | `MultiFloorTile` | multi_floor_tile.dfy |
| src/player.ts | `MultiFloorPlayer` | multi_floor_player.dfy |
| key priority, shared by src/player.ts and src/Player.ts | `Movement` | movement.dfy |
| src/Map.ts | `SingleFloorMap` | single_floor_map.dfy |
| src/Tile.ts | `SingleFloorTile` | single_floor_tile.dfy |
| src/Player.ts | `SingleFloorPlayer` | single_floor_player.dfy |
| src/demo.ts | `Demo` | demo.dfy |

Positions are exact reals and `Math.floor` is `.Floor`.

The world document is not part of this model. Its contents are a parameter: a `WorldMap` object holding `seq<Floor>`. The multi-floor code requires the `Uniform` invariant: every floor is rectangular and all floors have floor 0's extents. The bounds checks use row 0's length as the width of every row, which is why rows must agree. The floor index is used without a guard, so the collision queries require `0 <= floor < |floors|`.

Objects whose fields the source updates in place are classes: `WorldMap`, `FloorManager`, `TileManager`, both `Map`s, both `Player`s and the demo's `Game`. Every mutating method states the whole new state in terms of the old one.

The single-floor map's `private readonly WORLD_MAP` is the `const` field `worldMap`, which the constructor sets to the built-in layout `WorldMap`. The walkability query and the single-floor player's per-frame contracts hold for any layout with a first row. Only the start-position facts depend on the built-in layout.

The frame-time test `time.deltaTime % 10 < 1`, which advances the walk animation, is a boolean parameter `tick`.

## Model

| member | source | states |
|---|---|---|
| MapHelpers.GridToIso | src/lib/map-helpers.ts:13-21 | screen x is 32 per unit of gx - gy and screen y is 16 per unit of gx + gy, for 64 x 32 tiles |
| MapHelpers.IsoToGrid | src/lib/map-helpers.ts:26-37 | the inverse of the projection, floored on both axes to integer tile indices |
| MapHelpers.RoundTripFloors | src/lib/map-helpers.ts:13-37 | un-projecting a projected real position gives the tile that contains it, `(Floor gx, Floor gy)` |
| MapHelpers.RoundTripTile | src/lib/map-helpers.ts:13-37 | for integer tile indices the round trip is the identity |
| MapHelpers.GridToIsoAdditive | src/lib/map-helpers.ts:17-20 | the projection is linear: the image of a sum is the sum of the images |
| MapHelpers.DiagonalStep | src/lib/map-helpers.ts:18-19 | one step along the grid diagonal keeps screen x and moves one tile height down the screen, y + 32 |
| Collision.IsWalkableTile | src/collision.ts:7-49 | the corner loop with early exits returns true iff all four corners of the square of side `playerSize`, floored, lie inside the floor on grass (`FootprintWalkable`) |
| Collision.CheckForStairs | src/collision.ts:51-76 | a nonzero result means the floored cell is on the floor and has stairs; such a cell's own direction is returned; so the result is 0 with no stairs or out of bounds |
| Collision.FindFirstWalkableTile | src/collision.ts:78-108 | with interior grass present: the centre (x+0.5, y+0.5) of the first interior grass cell in row-major order, on the floor asked for; with none: (1.5, 1.5) |
| Collision.FirstGrassUnique | src/collision.ts:87-105 | at most one cell is the first interior grass cell, so the search result is determined by the floor |
| Collision.StartTileWalkable | src/collision.ts:93-107 | the start position found passes the footprint test with the default size 0.5 |
| Collision.ZeroFootprintIsCentre | src/collision.ts:14-22 | with size 0 the footprint test is the centre-point test |
| Collision.OutOfBoundsCornerBlocks | src/collision.ts:30-37 | a corner that floors outside the floor makes the position unwalkable, wherever the centre is |
| Collision.ShrinkFootprint | src/collision.ts:14-45 | for sizes up to 1, a position walkable with one size stays walkable with any smaller size at the same centre |
| Collision.WideFootprintSkipsMiddle | src/collision.ts:14-45 | above size 1 that fails: a 2.5 footprint over a wall framed by grass is walkable, the centre point is not |
| TileManagement.BuiltTilesDomain | src/tile-manager.ts:22-40 | a full tile build has a tile exactly for the cells that are not upper-floor empty space (type 0, no stairs), each built from its own cell |
| TileManagement.TileManager.constructor | src/tile-manager.ts:10-20 | a new tile manager shares the world and holds no tiles |
| TileManagement.TileManager.CreateTiles | src/tile-manager.ts:22-59 | the triple loop with `continue` adds exactly `BuiltTiles(world)` to the tiles |
| TileManagement.SetCell | src/tile-manager.ts:85-86 | one cell write: that cell takes the new triple; every other cell and every dimension is unchanged |
| TileManagement.WithStairs | src/tile-manager.ts:81-86 | writing a stairs pair keeps the world uniform |
| TileManagement.StairsMirrored | src/tile-manager.ts:81-86 | between distinct floors: departure cell `[0, true, d]`, target cell `[0, true, -d]`, d = 1 upwards and -1 downwards |
| TileManagement.StairsSameFloor | src/tile-manager.ts:85-86 | with the same floor twice, the second write wins and the cell ends as `[0, true, 1]` |
| TileManagement.StairsTouchesOnlyPair | src/tile-manager.ts:85-86 | no cell other than the two targets changes |
| TileManagement.StairsLookupSymmetric | src/tile-manager.ts:85-86 | afterwards the stairs lookups at that cell on the two floors are nonzero and opposite |
| TileManagement.TileWalkableMatchesCell | src/tile.ts:244-246 | a built tile is walkable exactly when the collision test treats its cell as clear |
| TileManagement.TileManager.CreateStairs | src/tile-manager.ts:61-120 | true iff both floors exist and (x, y) lies in the departure floor; false changes neither world nor tiles; true writes `WithStairs` and rebuilds exactly the two tiles |
| FloorManagement.ShowsIsDeterministic | src/floor-manager.ts:36-61 | the visibility layout for a floor is unique, so showing a floor twice leaves the state that showing it once does |
| FloorManagement.FloorManager.constructor | src/floor-manager.ts:10-27 | one visible, opaque container pair per world floor, and floor 0 current |
| FloorManagement.FloorManager.SetFloorVisibility | src/floor-manager.ts:36-61 | floor f is visible iff f <= active and dimmed to 0.5 iff f < active, for both containers; the active floor becomes current without a range check |
| FloorManagement.FloorManager.AddNewFloor | src/floor-manager.ts:67-84 | returns the old floor count, appends one fresh pair, keeps every existing entry and the current floor |
| MultiFloorMap.Map.constructor | src/map.ts:19-29 | fresh floor and tile managers over the shared world, one container pair per floor, floor 0 current, no tiles |
| MultiFloorMap.Map.Draw | src/map.ts:31-37 | builds every floor's tiles, then leaves floor 0 current with every higher floor hidden |
| MultiFloorMap.Map.ChangeFloor | src/map.ts:40-48 | true iff the target floor exists; false leaves the floor manager untouched; true shows the target and makes it current |
| MultiFloorMap.Map.CheckForStairs | src/map.ts:50-60 | exactly the collision manager's stairs lookup |
| MultiFloorMap.Map.IsWalkableTile | src/map.ts:62-74 | exactly the collision manager's footprint test |
| MultiFloorMap.Map.FindFirstWalkableTile | src/map.ts:76-82 | exactly the collision manager's start search |
| MultiFloorMap.Map.GetCurrentFloor | src/map.ts:84-86 | the floor manager's current floor |
| MultiFloorMap.Map.CreateStairs | src/map.ts:92-99 | exactly the tile manager's stairs write and result |
| MultiFloorTile.Tile.IsWalkable | src/tile.ts:244-246 | a tile is walkable iff its type code is grass (0); in particular walls and water never are |
| MultiFloorTile.NewTile | src/tile.ts:42-59 | missing stairs and debug options default to false, 0 and false, and given ones are taken as they are; screen x is the projected x shifted left by half a tile; screen y is lifted 37 pixels per floor |
| Movement.KeyFlag | src/player.ts:121-144 | w/arrowup drive up, s/arrowdown down, a/arrowleft left, d/arrowright right, e/space interact, and no other key drives a flag |
| Movement.MoveY | src/player.ts:185-193 | up gives -1, down alone gives +1, neither gives 0: up wins over down |
| Movement.MoveX | src/player.ts:195-203 | left gives -1, right alone gives +1, neither gives 0: left wins over right |
| Movement.Facing | src/player.ts:185-203 | a held horizontal key decides the facing over a vertical one; with no key held the facing is kept |
| Movement.MovesIffKeyHeld | src/player.ts:185-203 | a frame moves exactly when some arrow key is held |
| MultiFloorPlayer.WithFlag | src/player.ts:121-169 | sets the one flag named and keeps the other four |
| MultiFloorPlayer.KeysAfter | src/player.ts:121-169 | a key event sets or clears exactly the flag its key drives; every other flag is kept |
| MultiFloorPlayer.CooledDown | src/player.ts:172-175 | a positive cooldown drops by one, zero stays zero, and the result stays in [0, 30] |
| MultiFloorPlayer.FloorOffsetMatchesTiles | src/player.ts:276-279 | the player lifts its sprite per floor by the same offset as tiles of that floor |
| MultiFloorPlayer.Player.constructor | src/player.ts:27-61 | grid (5, 5) on floor 0, screen (0, 0), not moving, facing south, frame 0, no keys, cooldown 0 |
| MultiFloorPlayer.Player.Init | src/player.ts:63-92 | when floor 0 has interior grass, the start is the centre of its first interior grass cell and passes the default footprint test; with none, the start is (1.5, 1.5) and no footprint claim is made; the screen position is the start's projection |
| MultiFloorPlayer.Player.HandleKeyDown | src/player.ts:121-144 | the pressed key's flag is set; nothing else changes |
| MultiFloorPlayer.Player.HandleKeyUp | src/player.ts:146-169 | the released key's flag is cleared; nothing else changes |
| MultiFloorPlayer.Player.Update | src/player.ts:171-283 | the whole frame: cooldown decrement; stairs use at the pre-move position only with interact held, cooldown 0 and an existing target floor, which then becomes current with cooldown 30; the 0.1 step is committed iff the footprint is walkable on the post-interaction floor; facing, animation frame and screen position follow; the player stays on an existing floor with the cooldown in [0, 30] and the animation frame in [0, 4) |
| MultiFloorPlayer.Player.ChooseMove | src/player.ts:177-203 | the key-priority block: step signs per axis, the facing, and whether the frame moves |
| MultiFloorPlayer.Player.UseStairs | src/player.ts:205-227 | the interaction block: climbs by the stairs direction exactly when interact, no cooldown, stairs and an existing target all hold; otherwise floor, cooldown and visibility stay |
| MultiFloorPlayer.Player.Advance | src/player.ts:229-268 | the movement block: commit iff moving and the candidate footprint is walkable; a blocked step clears `isMoving` |
| MultiFloorPlayer.Player.GetScreenY | src/player.ts:326-330 | the projected y lifted by 37 pixels per floor |
| SingleFloorTile.NewTile | src/Tile.ts:19-37 | screen x is (gx - gy) * width/2 and screen y is (gx + gy) * height/2 |
| SingleFloorTile.Tile.IsWalkable | src/Tile.ts:117-119 | a tile is walkable iff it is neither wall nor water, that is iff its type code is 0 |
| SingleFloorTile.StandardTileMatchesProjection | src/Tile.ts:35-36 | with a 64 x 32 diamond the tile sits where the shared projection puts its cell |
| SingleFloorTile.WalkableIffGrass | src/Tile.ts:117-119 | a tile is walkable iff its type is grass (code 0) |
| SingleFloorMap.WorldMapShape | src/Map.ts:12-33 | the built-in layout is 20 rows of 20 codes |
| SingleFloorMap.DecodeTileType | src/Map.ts:57-70 | codes 0, 1, 2 decode to grass, wall, water; any other code decodes to grass |
| SingleFloorMap.DecodeCode | src/Map.ts:57-70 | decoding undoes the type codes |
| SingleFloorMap.RowTiles | src/Map.ts:55-80 | one tile per code of a row, at its column and row, with the decoded type |
| SingleFloorMap.WorldMapStart | src/Map.ts:130-135 | (1, 1) is the first interior grass cell of the built-in layout |
| SingleFloorMap.Map.IsWalkableTile | src/Map.ts:101-117 | the raw coordinates must lie inside the layout's extents (row 0's length and the row count) before flooring; then the cell containing the point must hold 0, and a column past the end of a shorter row reads as undefined, which is not 0 |
| SingleFloorMap.WalkableByCell | src/Map.ts:101-117 | for any layout, every point of a cell answers as the cell's corner does |
| SingleFloorMap.BorderBlocked | src/Map.ts:12-33 | on a map holding the built-in layout, nothing on or beyond the layout's edge is walkable, because the edge is all wall |
| SingleFloorMap.Map.constructor | src/Map.ts:9-45 | a new map holds the built-in layout as its fixed `WORLD_MAP` and has no tiles |
| SingleFloorMap.Map.Draw | src/Map.ts:47-50 | afterwards every layout row has its tile row and rows past the layout are kept; a fresh map has exactly one row per layout row, 20 for the built-in layout |
| SingleFloorMap.Map.CreateTiles | src/Map.ts:52-82 | row y becomes `RowTiles` of layout row y; rows past the layout are kept |
| SingleFloorMap.Map.GridToIso | src/Map.ts:85-90 | exactly the shared projection |
| SingleFloorMap.Map.IsoToGrid | src/Map.ts:93-98 | exactly the shared inverse |
| SingleFloorMap.Map.FindFirstWalkableTile | src/Map.ts:130-140 | the first interior grass cell of the map's layout in row-major order, or (1, 1) when there is none |
| SingleFloorMap.StartIsCornerCell | src/Map.ts:130-139 | on a map holding the built-in layout the search gives (1, 1), a walkable point |
| SingleFloorPlayer.KeysAfter | src/Player.ts:80-120 | a key event sets or clears exactly the steering flag its key drives; interact and unknown keys change nothing |
| SingleFloorPlayer.Player.constructor | src/Player.ts:18-47 | grid and target (5, 5), screen (0, 0), not moving, facing south, frame 0, no keys |
| SingleFloorPlayer.Player.Init | src/Player.ts:49-78 | on a map holding the built-in layout, the player and its target start on (1, 1), a walkable point, with the screen position its projection |
| SingleFloorPlayer.Player.HandleKeyDown | src/Player.ts:80-99 | the pressed key's steering flag is set; nothing else changes |
| SingleFloorPlayer.Player.HandleKeyUp | src/Player.ts:101-120 | the released key's steering flag is cleared; nothing else changes |
| SingleFloorPlayer.Player.HandlePointerDown | src/Player.ts:122-135 | the clicked cell, un-projected from the world point, becomes the target iff it is walkable; otherwise the target stays |
| SingleFloorPlayer.Player.Update | src/Player.ts:137-210 | the 0.1 step is committed iff its end point is walkable, so a player on grass stays on grass; facing, frame and screen position follow; keys and target are untouched; the animation frame stays in [0, 4) |
| SingleFloorPlayer.Player.ChooseMove | src/Player.ts:141-164 | the key-priority block: step signs per axis, the facing, and whether the frame moves |
| SingleFloorPlayer.Player.Advance | src/Player.ts:166-197 | commit iff moving and the end point is walkable; a blocked step clears `isMoving` |
| Demo.IsValidPosition | src/demo.ts:88-105 | a pixel is valid iff its 50-pixel cell lies in the 10 x 10 layout and is open |
| Demo.BoxValid | src/demo.ts:126-131 | the four-corner gate: a box that passes it lies, all four corners, inside the 500 x 500 pixel layout |
| Demo.AxisStep | src/demo.ts:112-124 | each held key of a pair moves 5 * delta its own way; both or neither held cancel |
| Demo.OppositeKeysCancel | src/demo.ts:112-124 | holding both keys of an axis leaves that axis where it was |
| Demo.LayoutStart | src/demo.ts:4-15 | cell (0, 0) is the first open cell of the layout, border included |
| Demo.StartPassesGate | src/demo.ts:139-151 | the start the scan picks is pixel (5, 5), and a 40 x 40 box there passes the four-corner gate |
| Demo.Game.constructor | src/demo.ts:54-77 | the player starts at (25, 25) with no key recorded |
| Demo.Game.SetKey | src/demo.ts:79-85 | a key event records exactly that key's held state |
| Demo.Game.Tick | src/demo.ts:108-136 | the candidate is the position moved by every held key; it is taken iff all four box corners are valid, otherwise nothing moves |
| Demo.Game.Init | src/demo.ts:139-151 | the player is placed 5 pixels inside the first open cell of the whole grid, border included; with no open cell it stays put |

## Left out

- Rendering and the PixiJS library: every `draw*` method, `updateGraphics`, `addDebugIndicator`, `sortObjectsByDepth`, text labels, colours, layer containers, `getPlayerLayer`, `getFloorContainers`, sprite positions. These are calls into a library that is not part of this model.
- DOM and event wiring: `window.addEventListener`, canvas attachment, pointer event objects. The key and pointer handlers take the key name or the pointer coordinates directly.
- Lower-casing of key names (`toLowerCase`): the handlers take the already lower-cased name. There is no Unicode case folding here.
- `console.log` output.
- IEEE-754 rounding: positions are exact reals, so 5.5 + 0.1 = 5.6 holds here but not bit-exactly in JavaScript.
- The frame time: the animation test `time.deltaTime % 10 < 1` is the boolean parameter `tick`, and the demo's ticker `delta` is a real parameter.
- The contents of src/data/world.json: the world is a parameter with the `Uniform` invariant.
- src/main.ts, src/helpers.ts, src/Game.ts, src/main2.ts and vite.config.ts: the slot-reel demo, bootstrap, camera wiring and build configuration are not navigation logic.
- TileManagement.TileManager.CreateStairs: requires a uniform world, because the source validates (x, y) against the departure floor only, so the model does not capture what happens with a differently shaped target floor. If the target floor has y or fewer rows, src/tile-manager.ts:86 reads an undefined row and throws. That is after line 85 has already written the departure cell, so a partial write stays behind. If the target floor's row y is merely shorter than x + 1, the write at line 86 silently lengthens that JavaScript row, the tile writes succeed, and the call returns true with a ragged floor.
- Collision.IsWalkableTile: requires the current floor to be rectangular and in range, because the source indexes it without a guard and uses row 0's length as the width.
- TileManagement.TileManager: the link to the floor manager is not modelled, because it is used only to fetch drawing containers. The tiles are a map keyed by (floor, y, x) instead of nested arrays.
- MultiFloorTile.NewTile: the floor always comes from a caller. `options.floor || 0` is the identity on an integer floor.
- SingleFloorMap.Map.CreateTiles: the model builds the intended tiles, keeping only grid position and decoded type. The source cannot build them. src/Map.ts:2 imports `./tile`, the multi-floor src/tile.ts. The call at src/Map.ts:73-79 passes the number `x` where that constructor expects its options object. So src/tile.ts:61 calls `draw(undefined, undefined)`, and `groundLayer.addChild` at src/tile.ts:93 throws a TypeError at cell (0, 0), right after `tiles[0] = []`. The model does not capture that throw, and it gives no screen position for these tiles.
- SingleFloorMap.Map.Draw: only calls `createTiles`, so in the source it throws the same TypeError at cell (0, 0). The model finishes the full 20 x 20 build that the code evidently intends.
- SingleFloorPlayer.Player.Update: requires the animation frame to be in [0, 4) and keeps it there. The constructor starts it at 0. Outside that range Dafny's Euclidean `%` would differ from JavaScript's truncating `%`; for example, frame -2 gives 3 here and -1 in JavaScript.
- Getters that only return a field (`FloorManager.getCurrentFloor`, `Player.getScreenX`, `Player.getCurrentFloor`, the single-floor `getScreenX`/`getScreenY`) are plain reads with no contract.
- FloorManagement: a container's visibility and alpha start as PixiJS's defaults for a new `Container`, visible with alpha 1 (`NewLayer`). The source never sets them before the first visibility change.
- The `TILE_HEIGHT` pass-through getter of src/Map.ts and the player sprite's width and height constants are used only for drawing.

## Notes on the code

- Key priority: when a vertical and a horizontal key are both held, the horizontal key decides the facing, because its assignment runs second (`Movement.Facing`).
- Footprint shrinking: for footprint sizes up to 1, shrinking the footprint at the same centre never makes a walkable position unwalkable (`Collision.ShrinkFootprint`). Above size 1 that fails: the corners of a footprint of size 2.5 can step over a wall that the centre point hits (`Collision.WideFootprintSkipsMiddle`).
- Stairs use reads the position before this frame's step. The step's collision test uses the floor after the interaction (`MultiFloorPlayer.Player.Update`).
- The single-floor player's click target is recorded but never used by `update`.
