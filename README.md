# eager-omega: tile world and character animation, modelled in Dafny

eager-omega is a small top-down game. A world is drawn from a 64-column sprite
atlas (the "sunnyside world" tileset). It is built from stacked tile layers:
an ocean layer filled with a repeating 4 x 4 block of water sprites, and above
it generated island, beach and grass layers. Each terrain layer gives its edge,
corner and centre roles to particular sprites. The world map answers two
questions: does a box collide with the terrain, and which tiles does the camera
see. Characters animate through sprite strips, one strip per action and hair
style, and step a frame counter on a timer.

This project models the parts of that code that are deterministic, and proves
what they promise:

- `Tileset`: the tile catalogue, with discriminants equal to atlas ids. The
  discriminants are injective, and the edge classifiers are exclusive.
- `Terrain`, `Island`, `Beach`, `Grass`: the terrain layers over grids of
  optional tiles. Covered are lookup, bounds, the island's one-cell collision
  test, the grass altitude rule and each layer's edge, corner and centre
  catalogue.
- `Ocean`: the construction of the ocean layer. It is a method with nested
  loops that overwrite a grid of empty cells, proved to produce the periodic
  fill.
- `Atlas`: the `tile_uv` arithmetic shared by the two prototypes. `WorldMapGrid`
  is the composed world map: the `is_collision` scan (a method with three
  nested loops), the draw loop, the atlas lookup that treats id 0 as empty, and
  the clamped visible-tile range.
- `PrototypeMap` and `GameLoop`: the two earlier prototypes. They cover the
  random 32 x 18 map, its row-major index and the `+129` id offset, the player
  strip rectangle, and the main loop's frame counter.
- `Hair`, `Decimal`, `Input`, `Paths`: shared pieces. These are the hair-style
  stems, the decimal rendering `format!` uses for frame counts, the two-key
  direction axis, the strip file suffix, and reading a built path back into
  its parts.
- `Human` and `Player`: the two character classes. They cover the action
  tables, sprite paths and the per-frame `update`, which is a method on a class
  whose invariant keeps the frame inside the current strip.
- `Animation`: the engine-based demo's animation component, as a class with
  `update_timer` and `update_state`. It also covers the state and facing chosen
  from the movement intent, and the step-sound condition.

The files come from different revisions of the repository and do not fit
together (the composed world map refers to an `Ocean` type and an `Island`
with a `layer` field that the layer files do not have). Each file is modelled
on its own terms; they share only the tile catalogue.

Some behaviour of the code that a caller could easily expect otherwise:
- The layers' `get_tile` index their grid directly and panic out of range, so
  the model requires an in-range cell.
- The visible rectangle of the world map's draw uses the full view width as
  its horizontal half-extent (src/world_map/world_map.rs:77), and
  `WorldMapGrid.ViewRect` reproduces that.
- The composed map stores raw u32 ids and treats id 0 as an empty cell. It takes
  each layer's width from that layer's first row and its height from the row
  count.
- The ocean layer ignores its seed (`Ocean.FillIsUnique`), and the terrain
  generator is not in the modelled files.

## Model

| member | source | states |
|---|---|---|
| Tileset.Value | src/world_map/tileset.rs:2-51 | every variant's discriminant is an atlas id inside the 64 x 64 atlas, and decodes back to that variant |
| Tileset.ValueInjective | src/world_map/tileset.rs:2-51 | two variants share a discriminant exactly when they are the same variant |
| Tileset.AtlasColumn | src/world_map/tileset.rs:39-50 | a discriminant splits into an atlas row and column, each in 0..64, with row * 64 + column equal to the discriminant |
| Tileset.EdgeClassifiersExclusive | src/world_map/tileset.rs:54-68 | no tile satisfies two of is_bottom/top/right/left_edge; one of them holds exactly for the four straight sand edges; none holds for corners or ocean tiles |
| Tileset.EdgeAtlasGeometry | src/world_map/tileset.rs:39-42 | SandEdgeTop = 1799, SandEdgeBottom = 2055, SandEdgeLeft = 1925, SandEdgeRight = 1929; top and bottom share column 7, left and right share row 30 |
| Terrain.TileCoord | src/world_map/island.rs:18-19 | the tile coordinate c of a world coordinate p satisfies 16c <= p < 16(c + 1); src/world_map/world_map.rs:49-53 converts the same way |
| Island.IsCollision | src/world_map/island.rs:17-30 | only the cell holding the position is examined; past the grid's width or height it collides (also for a negative other coordinate); inside, it collides exactly when get_tile is None |
| Island.EdgeTile | src/world_map/island.rs:37-62 | every edge role gets a sand edge on the side of the sand ring it faces; top/bottom/left/right are exactly the roles the matching is_*_edge accepts |
| Island.CornerTile | src/world_map/island.rs:64-77 | every corner role gets a sand corner on the side it faces |
| Island.CenterTiles | src/world_map/island.rs:79-88 | four distinct centre tiles, none a sand edge or corner |
| Island.CatalogDistinct | src/world_map/island.rs:37-88 | eight distinct edge tiles and four distinct corner tiles; edge, corner and centre tiles are pairwise disjoint |
| Beach.GetBounds | src/world_map/beach.rs:21-29 | the bounds start at (0, 0) and enclose exactly the cells of row 0's width and the grid's height |
| Beach.TilesWithinBounds | src/world_map/beach.rs:17-29 | in a rectangular beach every cell get_tile accepts lies inside get_bounds |
| Beach.EdgeTile | src/world_map/beach.rs:40-65 | every edge role gets a sand edge facing its side; straight roles match their is_*_edge classifier |
| Beach.CornerTile | src/world_map/beach.rs:67-80 | every corner role gets a sand corner facing its side |
| Beach.CenterTiles | src/world_map/beach.rs:82-91 | four distinct centre tiles, none a sand edge or corner |
| Beach.SameCatalogAsIsland | src/world_map/beach.rs:40-91 | the beach catalogue equals the island's, role for role |
| Grass.Altitude | src/world_map/grass.rs:37-41 | one above the previous layer's altitude when that layer is grass; 0 otherwise, including when there is none |
| Grass.PushKeepsAltitudes | src/world_map/grass.rs:33-49 | stacking a new grass layer keeps every grass layer's altitude equal to the number of grass layers directly beneath it |
| Grass.GetBounds | src/world_map/grass.rs:23-31 | the bounds start at (0, 0) and enclose exactly the cells of row 0's width and the grid's height |
| Grass.EdgeTile | src/world_map/grass.rs:52-77 | no grass edge tile satisfies any is_*_edge classifier or is a sand edge |
| Grass.CornerTile | src/world_map/grass.rs:79-92 | no grass corner tile is a sand corner |
| Grass.CenterTiles | src/world_map/grass.rs:94-103 | four distinct centre tiles, none the dark grass outline tile, none an edge |
| Grass.OutlineIsUniform | src/world_map/grass.rs:52-103 | every edge and corner role shares one tile, which differs from every centre tile |
| Ocean.New | src/world_map/ocean.rs:13-52 | the result has exactly height rows of width cells, and cell (x, y) is Some of the block's sprite at row y mod 4, column x mod 4 |
| Ocean.GetTileOfFill | src/world_map/ocean.rs:9-49 | on a layer new built, get_tile of any in-range cell is the block sprite for (x mod 4, y mod 4), the same as get_tile of that cell in the first block |
| Ocean.PatternInAtlas | src/world_map/ocean.rs:17-42 | the block is the 4 x 4 atlas square whose top-left sprite is Ocean1 (row 18, column 12) |
| Ocean.OceanFillProperties | src/world_map/ocean.rs:44-49 | every cell holds an ocean sprite, (0, 0) holds Ocean1, and the fill repeats every 4 cells across and down |
| Ocean.FillIsUnique | src/world_map/ocean.rs:13-49 | two fills of the same size are equal, so the seed does not affect the layer |
| Atlas.TileUv | src/main.rs:120-128 | for an id of at least 1 (tile - 1 underflows at 0), a 16 x 16 rectangle on the sprite grid with x in [0, 1008], whose origin gives the id back; src/world_map.rs:49-57 is the same function |
| Atlas.TileUvInjective | src/world_map.rs:49-57 | distinct ids of at least 1 get distinct rectangles |
| WorldMapGrid.IsCollision | src/world_map/world_map.rs:48-73 | true exactly when some layer after the first has a cell in the inclusive tile range that is off that layer or holds 0 |
| WorldMapGrid.OceanNeverConsulted | src/world_map/world_map.rs:55-72 | replacing the first layer never changes the answer, and a map of one layer never collides |
| WorldMapGrid.OutOfMapCollides | src/world_map/world_map.rs:59-63 | a range reaching past the second layer's edges always collides |
| WorldMapGrid.TileUv | src/world_map/world_map.rs:115-127 | None exactly for id 0; any other id gets a 16 x 16 rectangle on the sprite grid (x and y multiples of 16, x in [0, 1008], y >= 0) whose origin gives the id back, which fixes the rectangle |
| WorldMapGrid.DrawnRect | src/world_map/world_map.rs:92-97 | a cell is skipped exactly when its u32 id truncated to u16 is 0; otherwise its sprite has the truncated id |
| WorldMapGrid.ViewRect | src/world_map/world_map.rs:77-81 | the visible rectangle is centred on the target, twice the view width over zoom across and the view height over zoom down |
| WorldMapGrid.TileSpan | src/world_map/world_map.rs:84-87 | the clamped range never passes the map size and holds exactly the in-map tiles that show part of the interval |
| WorldMapGrid.VisibleTileRange | src/world_map/world_map.rs:77-87 | start >= 0 and end <= 64 on both axes; the range is exactly the map tiles overlapping the visible rectangle |
| WorldMapGrid.Draw | src/world_map/world_map.rs:89-110 | on layers covering the map every index is in bounds; a sprite is drawn exactly for each layer's non-empty cell inside the visible range |
| PrototypeMap.NewTiles | src/world_map.rs:20-23 | exactly 32 * 18 = 576 tiles, each in 1..=5; src/main.rs:29-32 builds the same map |
| PrototypeMap.CellIndex | src/world_map.rs:29-31 | y * 32 + x is below 576, and its remainder and quotient by 32 give x and y back; src/main.rs:81-83 uses the same index |
| PrototypeMap.EveryIndexDrawn | src/world_map.rs:29-31 | every index of the vector is the index of exactly one cell of the loop |
| PrototypeMap.DrawnTileId | src/world_map.rs:32 | the drawn id is the stored id plus 129 and lies in 130..134; src/main.rs:84 adds the same offset |
| PrototypeMap.DrawnSpritesInOneRow | src/world_map.rs:28-57 | every drawn sprite lies in atlas row y = 32, with x between 16 and 80 |
| GameLoop.PlayerUv | src/main.rs:130-135 | a 96 x 64 rectangle at y = 0 whose x is the frame times 96 |
| GameLoop.Advance | src/main.rs:70-74 | the frame moves, one step round the 9-frame strip, exactly when timer + dt reaches FRAME_TIME, and the timer then restarts at 0; otherwise the timer becomes timer + dt; the frame stays below 9 and the timer in [0, 0.15) |
| GameLoop.RunAnimation | src/main.rs:47-74 | each loop pass applies one animation step, and current_frame stays below FRAME_COUNT = 9 on every pass |
| Hair.ToStr | src/characters/human.rs:18-28 | every stem is non-empty, has no underscore, and reads back to its style; src/player.rs:14-26 has the same stems |
| Hair.ToStrInjective | src/characters/human.rs:18-28 | distinct styles have distinct stems |
| Decimal.ValueOfToDecimal | src/characters/human.rs:68-74 | the decimal digits written for a frame count read back to that count |
| Decimal.ToDecimalInjective | src/player.rs:118-124 | different frame counts are written differently |
| Input.KeyAxis | src/player.rs:174-187 | the axis lies in -1..1 and is non-zero exactly when one key of the pair is held and the other is not |
| Human.Dirname | src/characters/human.rs:43-49 | every directory name is non-empty, free of '/', and reads back to its action |
| Human.FrameCount | src/characters/human.rs:59-65 | every strip has between 1 and 10 frames, so stepping modulo it is defined |
| Human.GetPath | src/characters/human.rs:67-75 | the path starts with the character folder and the action's directory, and ends with "_strip" + frame count + ".png" |
| Human.GetPathInjective | src/characters/human.rs:67-75 | two paths are equal exactly when action and hair style are |
| Paths.StripSuffixRecordsFrames | src/characters/human.rs:67-75 | the digits in a strip suffix read back to the frame count it was built from; src/player.rs:117-125 builds the same suffix |
| Human.IdleBasePath | src/characters/human.rs:67-75 | IDLE with the base style gives assets/Characters/Human/IDLE/base_idle_strip9.png |
| Human.GetSpeed | src/characters/human.rs:77-83 | 0 exactly for IDLE, 60 for WALKING, and 120 (twice walking) for ROLL |
| Human.Steer | src/characters/human.rs:135-151 | right wins the facing over left; a roll under way pushes in the facing direction; right during a leftward roll cancels the horizontal motion; vertical follows up/down |
| Human.ChosenAction | src/characters/human.rs:184-198 | ROLL exactly when rolling; WALKING exactly when not rolling, moving and walkable; IDLE otherwise |
| Human.Human.constructor | src/characters/human.rs:99-126 | a new human idles on frame 0 facing right at walking speed, and satisfies the invariant |
| Human.Human.Update | src/characters/human.rs:128-213 | keeps frame < frame_count, timer in [0, 0.15) and speed 120 exactly when rolling (else 60); facing and action follow Steer and ChosenAction; a roll start or an action change restarts frame and timer; the timer then steps the frame round the strip |
| Human.Human.SteerStep | src/characters/human.rs:135-151 | the direction flags give Steer's dx, dy and facing |
| Human.Human.StepAnimation | src/characters/human.rs:207-212 | on reaching FRAME_TIME the timer restarts and the frame steps round the strip; otherwise the timer accumulates dt |
| Player.Dirname | src/player.rs:55-78 | every directory name is non-empty, free of '/', and reads back to its action |
| Player.FileComponent | src/player.rs:80-103 | the file part equals the directory name exactly for the actions other than IDLE, ROLL, RUN and WALKING |
| Player.FrameCount | src/player.rs:105-115 | at least 1 for every action, and above 1 exactly for IDLE, WALKING, RUN, JUMP, ATTACK and ROLL |
| Player.GetPath | src/player.rs:117-125 | the path starts with the character folder and the action's directory, and ends with "_strip" + frame count + ".png" |
| Player.GetPathInjective | src/player.rs:117-125 | two paths are equal exactly when action and hair style are |
| Player.IdleBasePath | src/player.rs:117-125 | IDLE with the base style gives assets/Characters/Human/IDLE/base_idle_strip9.png |
| Player.AxeCurlyPath | src/player.rs:117-125 | an action without animation uses its directory name as file name and a one-frame strip |
| Player.LoadedTextures | src/player.rs:141-155 | new loads exactly the base and own-hair strips of IDLE and WALKING |
| Player.MoveAction | src/player.rs:189-195 | ROLL exactly when the keys give a net direction, IDLE otherwise |
| Player.MovedActionNotLoaded | src/player.rs:189-216 | once the player moves, draw looks up a (base, ROLL) texture that new never loaded |
| Player.Player.constructor | src/player.rs:141-168 | a new player idles on frame 0 facing right at the given speed |
| Player.Player.Update | src/player.rs:170-210 | keeps frame < frame_count and timer in [0, 0.15); right sets facing right, else left sets it left, else it is kept; the action is MoveAction; an action change restarts frame and timer; the timer then steps the frame |
| Animation.NewClipIgnoresHairPath | src/demo/animation.rs:115-137 | the clip does not depend on the hair path |
| Animation.MovementState | src/demo/animation.rs:56-60 | Idling exactly when the intent is zero |
| Animation.NewFlip | src/demo/animation.rs:51-54 | a leftward intent flips, a rightward one unflips, none keeps the facing |
| Animation.StepSound | src/demo/animation.rs:86-101 | a step sounds exactly when walking on a changed tick at frame 2 or 5, and the sound is one of the available steps |
| Animation.PlayerAnimation.constructor | src/demo/animation.rs:158-165 | frame 0, Idling, a copy of the start clip, and a fresh timer of its period |
| Animation.PlayerAnimation.UpdateTimer | src/demo/animation.rs:168-174 | the frame moves one step round the clip exactly on a finishing tick, changed() then holds, and frame < frames is kept |
| Animation.PlayerAnimation.UpdateState | src/demo/animation.rs:177-192 | a new state with a clip resets to frame 0 with that state, clip and a fresh timer; otherwise nothing changes |
| Animation.PlayerAnimation.UpdateMovement | src/demo/animation.rs:46-70 | the facing follows NewFlip; when the assets hold a clip for the state the intent calls for, a new state installs that clip and restarts frame and timer, and the same state changes nothing; without a clip nothing changes; the sprite shows the clip's base image |
| Animation.UpdateStateTwice | src/demo/animation.rs:177-192 | two update_state calls with the same arguments do what one does |

## Left out

- Terrain generator: the layers' constructors call `generate_layer` from a trait that none of the modelled files defines. The random walk, gap filling and edge/corner autotiling are not modelled. `Beach.New` and `Grass.New` take the generator's result as a parameter, and `Island::new` (which only seeds the random source first) is not modelled.
- Rendering and asset loading: texture loading, `draw_texture_ex`, camera set-up and the `draw` methods of the characters are I/O through the graphics library. `WorldMapGrid.Draw` records which sprites are drawn, but not their screen positions or the order of the calls.
- Input: key state is a `Keys` value of booleans. The demo's movement intent is two reals.
- Walkability: `Human::update` asks the tile map whether the target tile is walkable. That lookup is an outside call, so the model takes its answer as the boolean `walkable`. Positions and velocities are not modelled, so neither is the target tile's coordinate.
- Floating point: f32 values are ideal reals. This covers frame timers, speeds, the view rectangle and tile coordinates. Positions, velocities and `normalize` are left out. Rounding in `frame_timer += dt` is not modelled.
- WorldMapGrid.IsCollision: the f32-to-i32 casts after `floor` saturate in the source; the model uses unbounded integers.
- WorldMapGrid.VisibleTileRange: requires non-zero zoom, because the model cannot represent the infinities f32 division would give.
- WorldMapGrid.Draw: requires every layer to cover the 64 x 64 map, the size the map's constructor builds. That constructor loads a texture and calls constructors of another revision, so it is not modelled.
- Randomness: `gen_range` draws are a function parameter folded into 1..=5. The random step sound is an index parameter.
- Engine timer: how `Timer::tick` turns a duration into "finished" belongs to the engine. `UpdateTimer` takes that flag as input.
- Engine plumbing: the demo's player bundle, movement controller, level spawning, audio and debug drawing hold no logic beyond engine calls. The sprite's texture-atlas index update is also left out.
- Layer kinds: `LayerType` has only the grass variant plus one stand-in for the others, which are not defined in the modelled files. The plain `Layer` struct of src/world_map/layer.rs appears in `WorldMapGrid.Layer`.
- Island.IsCollision: the `_size` argument is ignored by the source and is not a parameter. A position with a negative tile coordinate that passes the range test is excluded, because the source's `as usize` index panics on it; a negative coordinate with the other one past the grid returns true and is modelled.
- Animation.PlayerAnimation.UpdateTimer: a finishing tick on a clip of zero frames is excluded, because the source's `% frames` panics there (src/demo/animation.rs:173).
- Animation.StepSound: a due step with no step sounds is excluded, because the source's `choose(rng).unwrap()` panics there (src/demo/animation.rs:97).
- Beach.New: it stores the generator's centre and tiles unchanged; with the generator outside the model, nothing more is promised about the layer.
- Texture lookups: the texture lookups of `Player::draw` are not modelled. `Player.MovedActionNotLoaded` shows that once the player moves, draw looks up a key that new never loaded.
