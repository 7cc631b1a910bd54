# A verified model of a browser raycasting shooter

This project is a Dafny model of the game core of a small browser
first-person shooter. It renders a grid level by ray casting, one ray per
screen column, and runs a fixed-step simulation of the player, weapon,
projectiles and enemies. The model covers these parts:

- **Level grid** (`GameMap`): a raw cell packs a wall texture id in its
  units digit and a block height in its tens digit. Every off-grid cell
  reads as a solid wall.
- **Ray caster** (`Raycaster`): a grid DDA per column. It writes a hit
  record and a depth-buffer entry for every column.
- **Wall renderer** (`Renderer`): for each column it computes the wall
  slice, its texture column, the colour fallback, the stacked blocks and
  their ledge lines. A second pass draws the side faces. Then it
  assembles the sprite list and hands it to the sprite stage.
- **Floor, ceiling and sky filler** (`FloorCeiling`): a cached pixel
  buffer and packed 32-bit texel tables, filled row by row with masked
  texture lookups or a wrapped sky column, with fog overlays on top.
- **Sprites** (`Sprites`): projection into camera space, the far-to-near
  sort, and column-by-column drawing hidden behind nearer walls. This
  includes the per-type silhouettes, the health bar and hex colour
  darkening.
- **Texture bytes** (`Textures`): the in-place darkening and noise loops
  over RGBA bytes, the texture size, and the sky gradient.
- **Simulation**:
  - the projectile pool (`Projectiles`);
  - the entity lifecycle (`Entities`);
  - the weapon state machine (`Weapon`);
  - the player update with axis-separated collision (`Player`);
  - the input handlers and intent polling (`Input`);
  - the frame loop with its fixed-step accumulator and adaptive
    resolution (`GameLoop`).

Shared modules:

- `Js` states the JavaScript number conventions the source relies on:
  - `Math.floor`;
  - `|0` as truncation toward zero;
  - `%` with the sign of the dividend;
  - `& (size - 1)` on power-of-two sizes;
  - `Infinity` as `Ext.Inf`.
- `Canvas` records 2D-canvas calls as values.
- `Config` holds the configuration constants.

Geometry is `real`; pixels, tiles and bytes are `int`. Code that changes
state step by step is modelled as methods with loops, proved equal to a
recursive specification function. The properties are then proved as
lemmas about that function. Objects whose fields are updated in place
are classes:

- `Player.Player`;
- `Weapon.Weapon`;
- `Input.InputState`;
- `FloorCeiling.FloorCaster`;
- `GameLoop.FrameLoop`.

Fixed pools and entity lists are arrays of record values.

## Model

| member | source | states |
|---|---|---|
| GameMap.TileMap.IsWall | src/game/map.js:14-17 | Every off-grid cell is a wall, and a wall stands at least one block high. |
| GameMap.TileMap.GetTile | src/game/map.js:18-21 | Off the grid the id is 1. On the grid, a non-negative raw value gives its units digit (`raw % 10`) and a negative one a truncated remainder in -9..0. A positive id means the cell is a wall. |
| GameMap.TileMap.GetHeight | src/game/map.js:22-28 | Off the grid the height is 1. Raw 0 gives 0. Any other raw value gives its tens part (`raw / 10`), raised to 1 when that is below 1. |
| GameMap.Load | src/game/map.js:4-13 | Width and height come from the first row and the row count. Missing entities become `[]`. `sky` defaults to true. The result is a valid rectangular map. |
| GameMap.TensPart | src/game/map.js:26 | `Math.floor((10h + id) / 10)` is h for a units digit 0..9. |
| GameMap.DecodeEncode | src/game/map.js:16-27 | Decoding inverts encoding. A cell written as id 1..9 at height h >= 1 is a wall with that id and that height. |
| GameMap.SingleDigitIsOneBlock | src/game/map.js:20-27 | A raw value 1..9 is its own id, one block high. |
| GameMap.MultipleOfTenIsInvisibleWall | src/game/map.js:16-20 | A positive multiple of 10 blocks movement but has texture id 0. |
| GameMap.EmptyTileIsInGrid | src/game/map.js:18-20 | A non-positive id can only come from inside the grid. |
| Raycaster.CameraBasis | src/raycaster.js:4-9 | The camera plane is perpendicular to the facing vector: (-dirY, dirX) scaled by the plane length. |
| Raycaster.CameraX | src/raycaster.js:14 | The camera-plane coordinate of every column lies in [-1, 1). |
| Raycaster.DeltaDist | src/raycaster.js:21-22 | `abs(1/rayDir)` is Infinity exactly for a zero component. Otherwise it is the positive reciprocal. |
| Raycaster.AxisStep | src/raycaster.js:24-40 | The step is -1 exactly when the ray component is negative, else +1. |
| Raycaster.InitialSide | src/raycaster.js:24-40 | The first side distance is the distance to the next grid line in the step direction times delta. It lies in [0, delta] and is infinite exactly when delta is. |
| Raycaster.Advance | src/raycaster.js:46-54 | One DDA step moves exactly one of mapX and mapY, by the step. It crosses x when sideX < sideY, ties step y, sets `side` to match, and adds one delta to that accumulator. The walk invariant is kept. |
| Raycaster.Frac | src/raycaster.js:66-72 | `v - Math.floor(v)` lies in [0, 1). |
| Raycaster.Walk | src/raycaster.js:45-63 | A hit comes from a cell ahead of the start and never from the start cell. It records that cell's positive tile id and its height, a wallX in [0, 1), a non-negative distance and a side of 0 or 1. The walk always ends, because the grid is finite and off-grid cells are solid. |
| Raycaster.RayNonZero | src/raycaster.js:15-16 | No camera ray from a unit facing vector is the zero vector. |
| Raycaster.StartSane | src/raycaster.js:15-40 | Every column's ray setup satisfies the walk invariant. |
| Raycaster.CastColumn | src/raycaster.js:13-86 | The imperative DDA loop of one column returns the hit of the `Walk` specification. Its depth is the hit distance, or `maxRayDist` on a miss. |
| Raycaster.Cast | src/raycaster.js:3-92 | There is one hit per column, each the column's specified hit. Every depth-buffer entry is written, with the hit distance or the cutoff. The returned basis uses the facing (cos, sin) and the plane length. |
| Renderer.Blocks | src/renderer.js:39 | `height \|\| 1` is never 0 and keeps any non-zero height. |
| Renderer.WallSpan | src/renderer.js:38-45 | A slice's bottom is the one-block bottom shifted by eye height, rounded down to a pixel, and the slice is `Blocks` base heights tall, up to the one-pixel rounding of `floor`. |
| Renderer.SpanBottomIgnoresHeight | src/renderer.js:43 | The slice bottom does not depend on the wall's height: taller walls grow upward. |
| Renderer.TexX | src/renderer.js:52 | The masked texture column lies in [0, 64). |
| Renderer.TexXOfFraction | src/renderer.js:52 | For wallX in [0, 1), the mask changes nothing: the column is `floor(wallX * 64)`. |
| Renderer.WallColor | src/renderer.js:65-66 | Side 1 takes the dark colour and side 0 the light one. A tile missing from the colour table falls back to tile 1's pair. |
| Renderer.SegmentsUpTo | src/renderer.js:59-61 | Block t is a blit of the chosen source and texture column at row drawStart + t*seg, seg pixels tall, on this column. |
| Renderer.SegmentsTile | src/renderer.js:58-61 | The blocks tile the slice exactly. The first starts at drawStart, each ends where the next starts, and the last ends at drawEnd. |
| Renderer.LedgesUpTo | src/renderer.js:78-81 | There are height-1 ledge lines, 2 pixels tall, at `floor(drawStart + t*seg)` for t = 1..height-1. |
| Renderer.BoundaryInsideSpan | src/renderer.js:79 | Every block boundary row lies between drawStart and drawEnd. |
| Renderer.LedgesInsideSpan | src/renderer.js:78-81 | Every ledge line starts inside the slice. |
| Renderer.DrawSegments | src/renderer.js:59-61 | The segment loop emits exactly `SegmentsUpTo`. |
| Renderer.DrawLedges | src/renderer.js:78-81 | The ledge loop emits exactly `LedgesUpTo`. |
| Renderer.SliceOps | src/renderer.js:50-68 | A textured tile with a positive slice height gives one blit per block, from the dark texture on side 1. Otherwise there is one solid fill of the slice in `WallColor`. Everything lands on this column. |
| Renderer.TallOps | src/renderer.js:71-82 | Only walls taller than one block get shading. A darkening fill runs from the slice top down to the top of the bottom block (one block height above the slice bottom); after it come exactly the `LedgesUpTo` ledges, one per block boundary. All of it is on this column. |
| Renderer.ColumnOf | src/renderer.js:31-83 | A miss draws nothing and records top h and depth Infinity. A hit draws something and records the slice top and the hit distance. |
| Renderer.DrawSlice | src/renderer.js:50-68 | The slice drawing emits exactly `SliceOps`. |
| Renderer.DrawTall | src/renderer.js:71-82 | The tall-wall shading emits exactly `TallOps`. |
| Renderer.DrawColumn | src/renderer.js:31-83 | One column of the loop equals `ColumnOf`. |
| Renderer.HitAt | src/renderer.js:31 | `hits[col]` past the end is a miss. A hit read from the list is in front of the camera. |
| Renderer.WallsOnScreen | src/renderer.js:30-83 | The wall pass draws only on columns 0..w-1. |
| Renderer.Tops | src/renderer.js:33-47 | There is one recorded top row per column: the screen height where the ray missed, the slice's top row where it hit. |
| Renderer.Depths | src/renderer.js:34-48 | There is one depth per column: Infinity exactly where the ray missed, the hit's distance where it hit. |
| Renderer.DrawWalls | src/renderer.js:26-83 | The column loop emits `WallsUpTo` and fills `colTop` and `colDepth` with `Tops` and `Depths`. |
| Renderer.FaceAt | src/renderer.js:87-98 | A face is drawn iff the neighbouring depths are within 1.5 and the tops differ by more than 2. It is one 1-pixel fill in the face colour spanning the two tops. It sits on the current column when that top is lower, and on the previous column otherwise. |
| Renderer.FacesUpTo | src/renderer.js:87-98 | Side faces are fills on columns 0..k-1. |
| Renderer.DrawSideFaces | src/renderer.js:86-98 | The side-face loop emits exactly `FacesUpTo`. |
| Renderer.SpriteListOrder | src/renderer.js:101 | The sprite list holds every entity sprite, then exactly one sprite per active projectile slot. |
| Renderer.Background | src/renderer.js:20-23 | There are two full-width fills: the ceiling colour from row 0 to the horizon, then the floor colour from the horizon to h. |
| Renderer.Draw | src/renderer.js:14-105 | `draw` up to the HUD emits, in order: the background, the wall columns, the side faces, then the projected sprites drawn with no fog function. |
| FloorCeiling.ByteOf | src/rendering/floorceiling.js:22-29 | Byte k of a packed texel is in [0, 256). |
| FloorCeiling.PackLayout | src/rendering/floorceiling.js:26-27 | For bytes r, g, b, the packed word is a 32-bit unsigned value. Bytes 0, 1 and 2 are r, g and b, and byte 3 is 255. |
| FloorCeiling.PackedUpTo | src/rendering/floorceiling.js:22-29 | The table holds one packed texel per pixel index, in order. |
| FloorCeiling.PackedTexelLayout | src/rendering/floorceiling.js:22-29 | Every packed texel of byte data carries that pixel's R, G and B in bytes 0..2 and opaque alpha in byte 3, whatever the source alpha. |
| FloorCeiling.PackTexture | src/rendering/floorceiling.js:22-29 | The packing loop returns exactly `PackedUpTo` of the data. |
| FloorCeiling.Clamped | src/rendering/floorceiling.js:62 | The clamped horizon lies in [0, h] and equals the horizon whenever the horizon is strictly inside. |
| FloorCeiling.AlongNext | src/rendering/floorceiling.js:74-81 | The running floorX/floorY starts at the row start and advances by one step per column. |
| FloorCeiling.TexelIndexInside | src/rendering/floorceiling.js:78-80 | An index ty*width+tx of an in-range pair lies in [0, width*height). |
| FloorCeiling.TexelAtInTable | src/rendering/floorceiling.js:76-81 | A masked floor or ceiling lookup in a size*size table never reads outside it. |
| FloorCeiling.SkyFraction | src/rendering/floorceiling.js:96 | The sky row fraction above the horizon lies in (0, 1]. |
| FloorCeiling.WrappedSkyColumn | src/rendering/floorceiling.js:102-103 | `((su % W) + W) % W` lies in [0, W). |
| FloorCeiling.SkyUWraps | src/rendering/floorceiling.js:99-104 | The wrapped sky column is the mathematical remainder of the unwrapped column. |
| FloorCeiling.SkyVInRange | src/rendering/floorceiling.js:96 | The sky row lies in [0, skyH-1]. |
| FloorCeiling.SkyVNonIncreasing | src/rendering/floorceiling.js:96 | The sky row does not increase as screen rows approach the horizon. |
| FloorCeiling.SkyTopRow | src/rendering/floorceiling.js:96 | The top screen row shows the sky image's last row. |
| FloorCeiling.SkyTexelInTable | src/rendering/floorceiling.js:96-106 | Every sky lookup reads inside the sky table. |
| FloorCeiling.CeilingSkipped | src/rendering/floorceiling.js:108-115 | Ceiling rows lie above the horizon. A ceiling row is left blank exactly when the eye height is above 0.5. |
| FloorCeiling.FloorPixelSource | src/rendering/floorceiling.js:64-83 | A row at or above the horizon gets no floor. A floor pixel is a texel of the floor table. |
| FloorCeiling.FogOps | src/rendering/floorceiling.js:136-153 | Floor fog is drawn iff fogMaxAlpha > 0 and the clamped horizon is below h. Ceiling fog is drawn iff there is no sky, fogMaxAlpha > 0 and the clamped horizon is above 0. Nothing else is drawn, and every fill is a fog ramp starting at the horizon. |
| FloorCeiling.Clear | src/rendering/floorceiling.js:59 | Every pixel of the buffer becomes 0. |
| FloorCeiling.FlatRow | src/rendering/floorceiling.js:74-82 | Row y becomes the table texels at the running floor coordinates. Every other row is unchanged. |
| FloorCeiling.SkyRow | src/rendering/floorceiling.js:99-106 | Row y becomes the sky texels at row v and the wrapped column of each column's angle. Every other row is unchanged. |
| FloorCeiling.FloorRows | src/rendering/floorceiling.js:64-83 | On a cleared buffer, rows above the clamped horizon stay 0 and every other pixel is its `FloorPixel`. |
| FloorCeiling.UpperRows | src/rendering/floorceiling.js:86-131 | Rows above the clamped horizon get the sky, the ceiling or 0. Rows from the horizon down are unchanged. |
| FloorCeiling.FloorCaster.constructor | src/rendering/floorceiling.js:3-11 | The caster starts with no buffer content and no packed tables. |
| FloorCeiling.FloorCaster.EnsureBuffer | src/rendering/floorceiling.js:13-20 | A fresh zeroed w*h buffer is allocated iff the size differs from the cached one. Otherwise the same buffer is kept. |
| FloorCeiling.FloorCaster.EnsurePacked | src/rendering/floorceiling.js:31-39 | The first call packs the floor, ceiling and sky tables. Every later call changes nothing, even with another bundle. |
| FloorCeiling.FloorCaster.DrawFloorAndSky | src/rendering/floorceiling.js:41-154 | After the call every pixel is the specified `Pixel` of the pass, the buffer and tables are cached, and the emitted fills are `FogOps`. |
| Sprites.CameraBasisInvertible | src/rendering/sprites.js:6 | The camera matrix of the caster's basis has determinant -planeLen*\|dir\|^2, so it is invertible. |
| Sprites.DepthInvertsBasis | src/rendering/sprites.js:6-16 | The camera transform inverts the basis: a point at `along` facing units and `across` plane units has depth `along` and lateral `across`. |
| Sprites.Project | src/rendering/sprites.js:11-40 | A sprite yields a record iff its depth is beyond 0.1. The record keeps the sprite, its colour, its list index and its depth, and has the span geometry. A non-negative scale gives a non-negative size and drawStartY <= drawEndY. |
| Sprites.SpanWidth | src/rendering/sprites.js:24-25 | The horizontal span is `size` columns wide, up to rounding. |
| Sprites.ClippedSpanHasSize | src/rendering/sprites.js:21-57 | A sprite with a non-empty span has a positive size. |
| Sprites.ProjectUpTo | src/rendering/sprites.js:8-41 | The records of the first k sprites appear in list order. Each is its sprite's projection, and every sprite beyond the near plane is present. |
| Sprites.Insert | src/rendering/sprites.js:43 | Insertion adds exactly one record: the multiset grows by it. |
| Sprites.InsertFarFirst | src/rendering/sprites.js:43 | Inserting a record with a new index into a far-first list keeps it far-first. |
| Sprites.SortFarFirst | src/rendering/sprites.js:43 | The sort is a permutation of its input. |
| Sprites.SortIsFarFirst | src/rendering/sprites.js:43 | The sort output is far-first: depth non-increasing, with list order among equal depths. |
| Sprites.ProjectSprites | src/rendering/sprites.js:1-45 | The output is a permutation of the projected records. |
| Sprites.ProjectSpritesSorted | src/rendering/sprites.js:43 | Records come out farthest first, and in list order among equal depths. |
| Sprites.ProjectSpritesSound | src/rendering/sprites.js:10-41 | Every output record is the projection of the sprite at its own index, beyond the near plane. |
| Sprites.ProjectSpritesComplete | src/rendering/sprites.js:10-41 | Every sprite beyond the near plane has its record in the output. |
| Sprites.ProjectSpritesSpanned | src/rendering/sprites.js:20-27 | Every output record has the span geometry the drawing stage relies on. |
| Sprites.HexValue | src/rendering/sprites.js:201-203 | `parseInt(c, 16)` is a number iff c is a hex digit, and then lies in 0..15. |
| Sprites.Darken | src/rendering/sprites.js:200-205 | `darken` always produces an `rgb(...)` paint. |
| Sprites.DarkChannelInRange | src/rendering/sprites.js:201-204 | A darkened digit `floor(d*17*f)` lies in [0, 255] and at most d*17. |
| Sprites.DarkenShortHex | src/rendering/sprites.js:200-205 | A '#rgb' colour darkened by f in [0, 1] gives three numeric channels, each at most its digit times 17. |
| Sprites.DarkenDyingColor | src/rendering/sprites.js:200-205 | A dying entity's 'rgb(...)' colour darkens to NaN red and blue and a numeric green of `floor(187*f)`. |
| Sprites.Columns | src/rendering/sprites.js:71-110 | Every fill lands on a column in range where the sprite is in front of the wall. |
| Sprites.ColumnsNonEmpty | src/rendering/sprites.js:60-75 | When each column draws something, the column loop draws something iff some column in range shows the sprite. |
| Sprites.ColumnsHidden | src/rendering/sprites.js:60-64 | When no column in range shows the sprite, nothing is drawn. |
| Sprites.DrawColumns | src/rendering/sprites.js:109-164 | The occlusion-gated column loop emits exactly `Columns`. |
| Sprites.AnyInFront | src/rendering/sprites.js:60-64 | The visibility scan is true iff some column in range has the sprite nearer than the wall. |
| Sprites.Profile | src/rendering/sprites.js:112-144 | Each silhouette fraction pair lies in [0, 1]. A column draws iff it is not a health pickup column outside 0.2 < lx < 0.8. |
| Sprites.ProfileMirrored | src/rendering/sprites.js:115-144 | Every silhouette is symmetric about the sprite's centre line. |
| Sprites.BodyColumn | src/rendering/sprites.js:110-163 | A body column's fills lie on that column and inside the canvas height. A health pickup only draws in its middle band. |
| Sprites.EdgeOps | src/rendering/sprites.js:166-179 | There are at most two outline fills, on the first and last drawn column, each only where the sprite is unoccluded. |
| Sprites.BarFill | src/rendering/sprites.js:187-195 | For 0 <= hp <= maxHp, the bar fill width lies in [0, barW]. |
| Sprites.HealthyMeans | src/rendering/sprites.js:187-194 | The green bar colour means more than 30% of the health is left. |
| Sprites.CenterCol | src/rendering/sprites.js:190 | The clamped centre column lies on screen. |
| Sprites.HealthBar | src/rendering/sprites.js:181-197 | A bar is drawn iff maxHp > 0, 0 < hp < maxHp and the centre column is unoccluded. It is a half-black background and a fill no wider than it, green above 30% health and red otherwise. |
| Sprites.BodyDraw | src/rendering/sprites.js:109-164 | The per-column body drawing stays on its column. |
| Sprites.DrawEntitySprite | src/rendering/sprites.js:97-198 | `drawEntitySprite` emits the body columns, the outline edges, then the health bar. |
| Sprites.ProjectileDraw | src/rendering/sprites.js:69-76 | A projectile draws a non-empty fill on each of its columns. |
| Sprites.FogDraw | src/rendering/sprites.js:79-93 | A fog tint stays on its column. |
| Sprites.FogOps | src/rendering/sprites.js:79-93 | The fog tint lands only on unoccluded columns of the sprite's span. |
| Sprites.DrawFog | src/rendering/sprites.js:79-93 | The fog loop emits exactly `FogOps`. |
| Sprites.SpriteOps | src/rendering/sprites.js:47-95 | A sprite draws only when its span clipped to [0, w-1) is non-empty and some column in it is unoccluded. A projectile draws iff that holds, and only on unoccluded columns. |
| Sprites.DrawSprite | src/rendering/sprites.js:50-94 | One iteration of `drawSprites` emits exactly `SpriteOps`. |
| Sprites.DrawSprites | src/rendering/sprites.js:47-95 | The records are drawn in list order, farthest first, so nearer sprites paint over farther ones. |
| Textures.SkyRow | src/rendering/textures.js:254-258 | The gradient channels lie in [20, 80), [20, 70) and [60, 160). |
| Textures.SkyRowMonotone | src/rendering/textures.js:254-258 | Every channel of the sky gradient is non-decreasing downward. |
| Textures.ClampByte | src/rendering/textures.js:282-284 | A clamped store gives a byte: 0 below 0, 255 above 255, and within 0.5 of the value in between. |
| Textures.DarkByte | src/rendering/textures.js:298-300 | `floor(0.65 v)` is at most v and is the floor of 0.65 v. |
| Textures.Darkened | src/rendering/textures.js:297-301 | Alpha bytes are unchanged. Every R, G and B byte becomes its darkened value, no larger than before. |
| Textures.DarkVariant | src/rendering/textures.js:295-302 | The in-place darkening loop leaves the array equal to `Darkened` of its old contents. |
| Textures.DarkPixel | src/rendering/textures.js:298-300 | One pass of the darkening loop darkens the pixel's three colour bytes. It leaves every other byte unchanged. |
| Textures.DarkenedPixel | src/rendering/textures.js:297-301 | In `Darkened`, pixel k's colour bytes are darkened and its alpha is kept. |
| Textures.NoisyByte | src/rendering/textures.js:282-284 | A byte shifted by n and clamped lies in [0, 255] and follows the clamp cases. |
| Textures.Noised | src/rendering/textures.js:280-285 | Alpha bytes are unchanged. R, G and B of pixel k all move by the same k-th offset and are clamped. |
| Textures.AddNoise | src/rendering/textures.js:277-287 | The in-place noise loop leaves the array equal to `Noised` of its old contents. |
| Textures.NoisePixel | src/rendering/textures.js:281-284 | One pass of the noise loop shifts the pixel's three colour bytes by the same offset and clamps them. It leaves every other byte, alpha included, unchanged. |
| Textures.NoisedPixel | src/rendering/textures.js:280-285 | In `Noised`, pixel k's colour bytes are shifted by the k-th random offset and its alpha is kept. |
| Textures.NoisedIsBytes | src/rendering/textures.js:280-285 | Noise keeps byte data bytes. |
| Entities.TypeDefOf | src/entities.js:3-15 | An unknown kind gets grunt stats. A health pickup has 0 hp, and every other type has positive hp and scale. |
| Entities.Spawn | src/entities.js:15-32 | A spawned entity keeps the kind and position, has hp == maxHp from its type, and starts active, not dying, with no flash and no death time. |
| Entities.SpawnEntities | src/entities.js:13-33 | There is one entity per definition, in order. |
| Entities.Step | src/entities.js:35-58 | Inactive entities are untouched. hitFlash runs down only while positive. A dying entity accumulates deathTimer and is removed once it reaches 0.4. A live entity with hp <= 0 starts dying with timer 0. Position, hp and kind never change. |
| Entities.StepIsOneWay | src/entities.js:44-56 | The lifecycle only moves forward (alive, dying, removed), by at most one phase per tick, and dying is never cleared. |
| Entities.HealthPickupDiesAtOnce | src/entities.js:53-56 | A health pickup enters the dying phase on its first update. |
| Entities.UpdateEntities | src/entities.js:35-58 | Every entity in the array is advanced by one `Step`, in place. |
| Entities.SpriteOf | src/entities.js:66-82 | A live sprite shows white while flashing and the entity's colour otherwise. A dying sprite shrinks by 1-0.7t and reddens to the dying colour. |
| Entities.ActiveIndices | src/entities.js:60-85 | The positions of the active entities, strictly ascending: every listed position is active and every active position is listed. |
| Entities.SpritesUpTo | src/entities.js:60-85 | One sprite per active entity (the count equals the number of active positions), the j-th being the sprite of the j-th active entity in list order. |
| Entities.SpritesOfActive | src/entities.js:60-85 | Every sprite is the sprite of an active entity in the list, and every active entity's sprite is in the list. |
| Entities.EntitySprites | src/entities.js:60-85 | The list loop returns `SpritesUpTo` of all entities, each tagged with its entity. |
| Projectiles.CreatePool | src/projectiles.js:3-11 | A fresh pool of 100 idle, inactive slots. |
| Projectiles.FirstFree | src/projectiles.js:14-16 | Returns the lowest inactive slot, or nothing iff every slot is active. |
| Projectiles.ColorOr | src/projectiles.js:24 | A given non-empty colour is kept. A missing one falls back to the default. |
| Projectiles.Launched | src/projectiles.js:17-25 | A launched slot is active with the full lifetime, the given position, speed and damage, and a colour. |
| Projectiles.Spawned | src/projectiles.js:13-30 | A spawn keeps the pool size. |
| Projectiles.SpawnedCount | src/projectiles.js:13-30 | A spawn makes exactly one more slot active, unless the pool is full, when nothing changes. |
| Projectiles.SpawnProjectile | src/projectiles.js:13-30 | The returned slot is the first free one. The pool becomes `Spawned`: that slot launched, every other slot unchanged. |
| Projectiles.FirstTouched | src/projectiles.js:56-69 | Returns the first entity in range that is active and alive, or nothing iff there is none. |
| Projectiles.FirstTouchedAt | src/projectiles.js:56-68 | A touched entity with no touched entity before it is the one the scan strikes. |
| Projectiles.StepOne | src/projectiles.js:35-70 | An inactive slot is untouched. An expired slot deactivates without moving. A slot whose next position is in a wall cell deactivates at its old position, with the entities untouched. Otherwise it moves one step; if it then touches a live entity, the first one it touches loses the damage and flashes, and the slot deactivates; else it stays active. |
| Projectiles.StrikesAtMostOne | src/projectiles.js:56-69 | A tick damages at most the first touched entity and deactivates the projectile. |
| Projectiles.UpdateUpTo | src/projectiles.js:32-71 | Updating slots in order keeps the pool and entity list sizes. |
| Projectiles.InactiveSlotsUnchanged | src/projectiles.js:35-36 | A tick never touches an inactive slot. |
| Projectiles.ActiveSlotsOutsideWalls | src/projectiles.js:43-50 | Every slot active after a tick sits outside any wall. |
| Projectiles.StrikeFirst | src/projectiles.js:56-69 | The entity scan damages exactly the first touched entity and reports whether it hit. |
| Projectiles.StepSlot | src/projectiles.js:35-70 | One slot's in-place update equals `StepOne`. |
| Projectiles.UpdateProjectiles | src/projectiles.js:32-71 | The in-place update of the whole pool equals `UpdateUpTo`. |
| Projectiles.SpriteOf | src/projectiles.js:78-83 | A projectile sprite has the slot's position and colour, scale 0.2, and no entity. |
| Projectiles.CountUpToBounds | src/projectiles.js:73-86 | At most k of the first k slots are active, and exactly k iff all of them are. |
| Projectiles.CountActiveBounds | src/projectiles.js:13-30 | The active count is at most the pool size, and equal iff no slot is free. |
| Projectiles.CountUpToUpdate | src/projectiles.js:13-30 | Replacing a slot changes a prefix count by the difference of the two slots. |
| Projectiles.CountActiveUpdate | src/projectiles.js:13-30 | Replacing a slot changes the active count by the difference of the two slots. |
| Projectiles.ActiveSlots | src/projectiles.js:73-86 | The indices of the active slots, strictly ascending, as many as the active count: every listed slot is active and every active slot is listed. |
| Projectiles.SpritesUpTo | src/projectiles.js:73-86 | One sprite per active slot; the j-th sprite is that of the j-th active slot in pool order. |
| Projectiles.SpritesOfActiveSlots | src/projectiles.js:73-86 | Every sprite has scale 0.2 and no entity, and every active slot's sprite is in the list. |
| Projectiles.ProjectileSprites | src/projectiles.js:73-86 | The list loop returns `SpritesUpTo` of the pool, one sprite per active slot. |
| Weapon.Initial | src/weapon.js:4-12 | Timers and kick are 0, the mode is idle, and the spread is the base spread. |
| Weapon.RunDown | src/weapon.js:45-46 | A timer decreases by dt only while positive. |
| Weapon.ShotInterval | src/weapon.js:57 | The machine-gun interval 1/fireRate is positive. |
| Weapon.Recovered | src/weapon.js:49-52 | While not firing, spread decays but never below the base spread. While firing it is unchanged. |
| Weapon.Fired | src/weapon.js:55-76 | The machine gun fires iff firing and the run-down cooldown is <= 0. The shotgun fires iff tapped, cooled down and the machine gun did not fire. Never both. |
| Weapon.Next | src/weapon.js:43-97 | A machine-gun shot sets cooldown 1/rate, flash 0.05, grows the spread up to the maximum, and sets the machinegun mode. A shotgun shot sets the shotgun cooldown, flash 0.1 and its mode. Neither firing nor tapping gives idle. |
| Weapon.SpreadStaysInRange | src/weapon.js:49-69 | Spread stays between the base spread and the maximum across updates. |
| Weapon.SpreadAngleBound | src/weapon.js:60 | A random value in [0, 1) puts a shot within `spread` of the aim. |
| Weapon.Volley | src/weapon.js:81-88 | A shotgun volley keeps the pool size. |
| Weapon.VolleyCount | src/weapon.js:81-88 | n pellets take n more slots, up to the pool size. |
| Weapon.PelletCount | src/weapon.js:82-87 | Each further pellet takes one more free slot, unless the pool is already full. |
| Weapon.RecoilKick | src/weapon.js:72-91 | With no shot the kick is 0. A shotgun shot kicks by exactly plus or minus shotgunRecoil. |
| Weapon.PoolAfter | src/weapon.js:43-97 | An update keeps the pool size. |
| Weapon.PoolAfterCount | src/weapon.js:55-92 | An update takes one slot for a machine-gun shot, shotgunPellets slots for a shotgun shot, and none otherwise, up to the pool size. |
| Weapon.Weapon.constructor | src/weapon.js:4-12 | The fields are `Initial`. |
| Weapon.Weapon.Recover | src/weapon.js:44-52 | The timers run down and the spread recovers. |
| Weapon.Weapon.FireMachineGun | src/weapon.js:55-73 | Sets the machine-gun state, spawns one projectile at the spread angle, and adds the random recoil to the player. Nothing else of the player changes. |
| Weapon.Weapon.FireShotgun | src/weapon.js:76-92 | Sets the shotgun state, spawns the pellet volley, and kicks the player's recoil. Nothing else of the player changes. |
| Weapon.Weapon.Update | src/weapon.js:43-97 | The weapon becomes `Next`, the pool becomes `PoolAfter`, and the player changes only its recoil offset. |
| Weapon.SpawnPellets | src/weapon.js:81-88 | The pellet loop leaves the pool equal to `Volley`. |
| Weapon.ScanNearest | src/weapon.js:20-38 | After n entities, the running closest is a crossed entity at its recorded distance. With none, every crossed entity is beyond maxDist. |
| Weapon.HitscanRay | src/weapon.js:14-41 | The result is a crossed, live entity within maxDist, and no crossed entity within maxDist is nearer. |
| Player.CellBetween | src/game/player.js:22-31 | The cell of a point lies between the cells of its two corners. |
| Player.CollidesAt | src/game/player.js:22-31 | The four-corner wall test; with a radius of at most half a cell, a position that does not collide is itself in an open cell. |
| Player.CollidesWithEntity | src/game/player.js:33-43 | True iff some active, live entity is strictly within the radius sum. |
| Player.ClampPitch | src/game/player.js:50-51 | Pitch is clamped to [-maxPitch, maxPitch] and unchanged inside it. |
| Player.Vertical | src/game/player.js:54-64 | Height stays >= 0. The player either lands at (0, 0) or moves by the new velocity, which is the jump velocity (only from z == 0) or the old one, minus gravity. |
| Player.JumpOnlyFromGround | src/game/player.js:54-56 | In the air the jump key changes nothing. |
| Player.DecayRecoil | src/game/player.js:67-74 | \|recoil\| shrinks by the decay, stops at 0, and never crosses zero. |
| Player.DashVector | src/game/player.js:105-123 | The dash vector is forward, back, left or right of the heading. |
| Player.Player.constructor | src/game/player.js:3-20 | At the spawn point; angle defaults to 0, hp is 100, everything else 0. |
| Player.Player.Look | src/game/player.js:47-51 | Turns by the mouse delta and clamps the pitch. Nothing else changes. |
| Player.Player.Fall | src/game/player.js:54-64 | Height and vertical velocity become `Vertical`. Nothing else changes. |
| Player.Player.RecoverRecoil | src/game/player.js:67-74 | Recoil becomes `DecayRecoil`. Nothing else changes. |
| Player.Velocity | src/game/player.js:85-123 | With no WASD input the walk part is zero, so the velocity is zero or, while dashing, exactly the dash direction times dashSpeed; a dash adds dashDir × dashSpeed to the walking velocity. |
| Player.WalkSpeed | src/game/player.js:85-102 | For any WASD input and a unit heading, the walking speed is exactly walkSpeed, or walkSpeed × sprintMultiplier when sprinting, diagonals included. |
| Player.UnitMove | src/game/player.js:85-95 | For any WASD input and a unit heading, the normalised movement vector has length 1. |
| Player.TurnedLength | src/game/player.js:88-89 | Turning the WASD axes by a unit heading keeps their length. |
| Player.UnitAfterDivide | src/game/player.js:91-95 | Dividing a vector by its length gives a unit vector. |
| Player.ScaledLength | src/game/player.js:98-102 | Scaling a unit vector by the speed gives a vector of that length. |
| Player.Player.Move | src/game/player.js:126-134 | x moves to old x + velX × dt exactly when that spot is free at the old y, else stays; then y moves to old y + velY × dt exactly when that spot is free at the new x, else stays. A free player stays free. Nothing else changes. |
| Player.Player.StepDash | src/game/player.js:76-123 | The cooldown runs down; a dash starts exactly when a direction is given, the cooldown has run out and no dash is running, setting duration, cooldown and the `DashVector` direction; the result is whether the dash timer is positive, which then runs down by dt. Position, hp and the rest are unchanged. |
| Player.Player.Update | src/game/player.js:45-135 | Look, jump and gravity, recoil, and the dash rules (start only with a direction, cooled down and not dashing; set duration and cooldown); then x and y are each either the old value advanced by `Velocity` × dt (walk × speed, plus dash × dashSpeed while the dash timer is positive), when that spot is free, or the old value. hp is unchanged; a free player stays free. |
| Input.DirectionOf | src/input.js:30-35 | W, S, A and D, and only they, name a dash direction. |
| Input.Axis | src/input.js:82-85 | An axis is +1 or -1 exactly when only that key is held, else 0. |
| Input.FireFlags | src/input.js:99-102 | firing iff held for at least the threshold. Once released, the tap is set iff a release was seen. Never both. |
| Input.ReleaseAlwaysTaps | src/input.js:99-102 | A release since the last poll always yields a shotgun tap, however long the hold. |
| Input.InputState.constructor | src/input.js:3-14 | Everything starts empty, zero or up. |
| Input.InputState.KeyDown | src/input.js:24-38 | A held key is ignored. Otherwise the key goes down and its tap time is recorded. A direction key within the double-tap window of its release sets the pending dash. |
| Input.InputState.KeyUp | src/input.js:40-46 | The key is up, and a direction key's release time is recorded. |
| Input.InputState.PointerLockChange | src/input.js:52-54 | Locked exactly when the canvas holds the lock. |
| Input.InputState.MouseMove | src/input.js:56-61 | Movement accumulates only while locked. |
| Input.InputState.MouseDown | src/input.js:63-68 | A left press while locked starts a hold at `now`. |
| Input.InputState.MouseUp | src/input.js:70-75 | A left release counts only after a recorded press. |
| Input.InputState.GetIntent | src/input.js:78-115 | Movement axes, sprint and jump come from the held keys. The mouse deltas, pending dash and fire flags are handed over once, then reset. |
| Input.AxisOf | src/input.js:80-85 | A movement axis is +1 for the plus key alone, -1 for the minus key alone, and 0 for both keys or neither. |
| Input.PollTwice | src/input.js:90-102 | A second poll straight after a first hands over no mouse movement, no dash and no tap. |
| GameLoop.Rescale | src/core/main.js:59-65 | The scale drops only below 35 fps and rises only above 40. It changes iff there is room, moves by at most 0.05, and stays in [0.25, 1.0]. |
| GameLoop.RescaleMonotone | src/core/main.js:59-65 | A slower window never leaves a higher scale than a faster one. |
| GameLoop.CanvasSide | src/core/main.js:18-23 | The canvas side is `floor(inner * scale)`, a non-negative integer. |
| GameLoop.CanvasSideMonotone | src/core/main.js:18-23 | A larger scale never gives a smaller canvas. |
| GameLoop.FrameTime | src/core/main.js:49-51 | The frame time is capped at 0.1 s. |
| GameLoop.DrainedSteps | src/core/main.js:68-75 | Draining determines the tick count: it is the whole number of steps in the accumulator. |
| GameLoop.DrainBounded | src/core/main.js:49-75 | With the cap, one frame runs fewer ticks than one step plus 0.1 s of steps. |
| GameLoop.StepsBelowQuotient | src/core/main.js:68-75 | The step count times the rate fits in the accumulator. |
| GameLoop.TicksCalls | src/core/main.js:68-75 | n ticks make five calls each. |
| GameLoop.TicksCallsOrder | src/core/main.js:69-74 | Each tick polls the intent and then updates player, weapon, projectiles and entities, in that order. |
| GameLoop.TicksCallsNoRender | src/core/main.js:68-75 | No tick casts or draws. |
| GameLoop.FrameCallsRenderLast | src/core/main.js:68-78 | `cast` and then `draw` run once per frame, after all ticks. |
| GameLoop.RunTicks | src/core/main.js:68-75 | The tick loop drains the accumulator below one step, and not below zero when a tick ran. It makes the tick calls in order. |
| GameLoop.FrameLoop.constructor | src/core/main.js:18-46 | The initial loop state and a resized canvas with a zeroed depth buffer. |
| GameLoop.FrameLoop.Resize | src/core/main.js:18-23 | The canvas becomes `floor(inner * scale)` and gets a fresh zeroed depth buffer of canvas width. |
| GameLoop.FrameLoop.Adapt | src/core/main.js:53-66 | Inside the window only the frame count grows. After 1000 ms the count and window reset and the scale becomes `Rescale`. It resizes iff the scale changed. |
| GameLoop.FrameLoop.Frame | src/core/main.js:48-81 | The capped frame time is added and drained. Ticks then cast and draw are called. Within a window the frame is counted and the scale kept; after a full window the count and window start reset and the scale becomes `Rescale` of the measured frame rate. The canvas is resized to the new scale exactly when the scale moved, and otherwise keeps its size and depth buffer. |
| Config.DefaultIsValid | src/core/config.js:1-68 | The shipped constants meet what the model relies on. |
| Js.Trunc | src/rendering/floorceiling.js:78-80 | `v \| 0` truncates toward zero. |
| Js.JsRem | src/rendering/floorceiling.js:102-103 | JS `%` keeps the sign of the dividend and stays below the divisor in size. |
| Js.WrapIsEuclidean | src/rendering/floorceiling.js:102-103 | `((a % b) + b) % b` is the mathematical remainder. |
| Js.Mask | src/renderer.js:52 | `v & (size - 1)` on a power-of-two size lies in [0, size). |
| Js.TexelIndexInRange | src/rendering/floorceiling.js:80 | A masked index ty*size + tx lies inside the size*size table. |

## Left out

- Floating point: JS doubles are modelled as exact reals. `Math.floor`, division and products are exact, so bit-exact results are not claimed.
- Math library: `Math.cos`, `sin`, `tan` and `sqrt` results are inputs to the model.
- Randomness: `Math.random` is an input stream.
- Browser input: `performance.now`, `requestAnimationFrame`, window sizes and DOM events are method parameters.
- 32-bit conversion: `\|0` and `&` are modelled as truncation and masking. The ToInt32 wrap-around of values beyond ±2^31 is not modelled.
- Canvas compositing: `fillRect`, `drawImage`, gradients and alpha blending are recorded as operations. Their pixel result is not modelled.
- `putImageData` and the `ImageData` object are not modelled. The pixel buffer is a two-dimensional array (rows by columns) rather than a flat `Uint32Array` viewed over bytes.
- HUD, minimap, crosshair and weapon overlay (src/renderer.js:107-236) are UI drawing and are not modelled.
- Procedural texture painting (bricks, stone, metal, floor, ceiling, stars) and asynchronous image loading are not modelled. Only the byte loops, the texture size and the sky gradient are.
- src/textures.js and src/main.js are older copies of the texture byte loops and the frame loop. Only the files under src/rendering and src/core are modelled.
- src/core/config.js is taken as a `Config` value. The field of view is read from it rather than recomputed.
- `loadMap`'s `fetch` and JSON parsing are not modelled: `GameMap.Load` starts from the parsed object and requires a non-empty rectangular grid.
- GameLoop.FrameLoop.Frame: the per-tick updates, `cast` and `draw` are recorded as a call log rather than invoked.
- GameLoop.FrameLoop.Frame: requires a positive tick rate. JS would loop forever at rate 0.
- FloorCeiling.FloorCaster.constructor: the buffer starts as a 0×0 array where the source holds `null`.
- FloorCeiling.FloorCaster.DrawFloorAndSky requires power-of-two floor and ceiling sizes and a sky width above 0, which the generated textures meet. The source's behaviour for other sizes is not modelled.
- FloorCeiling.SkyTopRow records that screen row 0 shows the sky image's bottom row, so the gradient appears upside down. This is the code's behaviour and is modelled as such.
- Renderer.Draw requires every hit to lie strictly in front of the camera (`perpDist > 0`). The ray caster's model proves only `perpDist >= 0`; a strictly positive distance rests on the player's collision margin keeping the eye off the grid lines, and that is not proved. A zero distance would produce NaN geometry in the source.
- Renderer.Draw also requires the camera matrix to be invertible; `Sprites.CameraBasisInvertible` shows this holds for a non-zero direction and plane length.
- Sprites.DarkenDyingColor: darkening an `rgb(...)` colour yields NaN channels, which are modelled as `Channel.NaN`. What the canvas then does with the colour is not modelled.
- Weapon.HitscanRay is modelled although nothing in the shown source calls it.
