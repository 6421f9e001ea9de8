# Level editor core in Dafny

A model of the core of a grid-based level editor written in Rust (`src/main.rs`).
The world has two layers of 30 rows by 40 columns of tiles: layer 0 is the
foreground and layer 1 the background. The user does the following:

- paints the active tile kind into the selected layer at the cell under the pointer;
- chooses the active kind with the digit keys 0 to 8;
- toggles the selected layer;
- places a spawn marker;
- scrolls a 960x736 viewport over the 1280x960 world one tile at a time with the arrow keys.

The renderer fills an RGBA frame from the selected layer and three overlays:
the translucent preview of the active tile under the pointer, the spawn marker,
and the "not shown" indicator over background cells hidden by a solid foreground
tile. Saving writes three texts. `map.txt` holds the foreground as one digit per
cell. `map_bg.txt` holds the background, with 0 wherever the foreground tile is
solid. `map.json` holds the spawn and the fixed depth 750.

The model has two levels:

- Module `Editor` holds the editor state as a value (`State`). Each `World`
  method there is a function on that state. It also defines the invariant
  `Inv` and proves the lemmas about sequences of operations.
- Class `EditorWorld.World` keeps the fields the Rust struct keeps. The tiles
  are an `array3`, and the methods update them in place the way the Rust
  methods do. Each method is proved to leave `Model()` equal to the matching
  `Editor` function applied to the old `Model()`, so the invariant and every
  lemma about the functions hold of the object.
- `draw` and `save` are loops. They are proved against the specification
  functions of the modules `Renderer` (one colour per screen pixel) and
  `Serializer` (the three saved texts).

Files:

| file | contents |
|---|---|
| `config.dfy` | the constants; `Clamp`; the `Input` record the event loop passes on |
| `tiles.dfy` | `ChunkType`, its `u8` code, `From<u8>`, the solid-tile test, the saved digit |
| `images.dfy` | RGBA pixels, 32x32 patterns, `image_pixels` |
| `editor.dfy` | the state, its invariant and one function per operation, with the lemmas |
| `renderer.dfy` | the colour of every screen pixel and the byte layout of the frame |
| `serializer.dfy` | the texts of `map.txt`, `map_bg.txt` and `map.json`, with readers for round trips |
| `world.dfy` | `World` with its methods, proved against the above |

`Editor.State` has one field per field of `struct World` (src/main.rs:63-70).
Cells and offsets are (row, column) pairs, as in the Rust struct.

Some behaviour of `src/main.rs` is worth knowing when reading the contracts:

- `set_spawn` (line 173) stores the screen tile under the pointer multiplied
  by 16. It does not take the viewport offset into account, while `draw`
  (line 261) compares the spawn against world tiles; after scrolling, the
  marker is therefore not drawn under the pointer that placed it
  (`Renderer.SpawnShiftedByScroll`).
- The spawn record (lines 304-308) has a comma after the `x` and `y` lines
  and a newline after every line, including the last.
- `imprint` (lines 160-164) shifts the cursor's screen tile by the offset in
  whole tiles and clamps the result into the grid. For a pointer on screen
  no clamping happens, and the painted cell is the one the preview is drawn
  on (`Editor.TargetUnderPointer`, `Renderer.PreviewMatchesTarget`).

## Model

| member | source | states |
|---|---|---|
| Config.DerivedConstants | src/main.rs:17-21 | the grid has SIM_HEIGHT/CHUNK_SIZE = 30 rows and SIM_WIDTH/CHUNK_SIZE = 40 columns; the largest offsets are SIM_HEIGHT - HEIGHT and SIM_WIDTH - WIDTH |
| Config.Clamp | src/main.rs:188-189 | `clamp(lo, hi)` returns a value in [lo, hi]: the value itself when it is in range, otherwise the bound it passed |
| Tiles.Code | src/main.rs:34-45 | the discriminant `as u8` is at most 8, and it is 0 exactly for Air |
| Tiles.FromByte | src/main.rs:47-61 | `From<u8>` maps 1..8 to the tile with that code, and 0 and every byte above 8 to Air |
| Tiles.DecodeEncode | src/main.rs:34-61 | decoding a tile's code gives the tile back |
| Tiles.EncodeDecode | src/main.rs:47-61 | on the codes 0..8, encoding the decoded tile gives the code back |
| Tiles.DigitChar | src/main.rs:280 | `write!("{}", t as u8)` writes one character from '0' to '8', and '0' exactly for Air |
| Tiles.DigitRoundTrip | src/main.rs:280 | the saved digit of a tile reads back as that tile |
| Images.ImagePixels | src/main.rs:319-321 | inside the first tile (x, y < 32) `image_pixels` is the pattern's pixel at row y, column x; `ImagePixelsPeriodic` extends this to every position |
| Images.Pattern | src/main.rs:224-234 | Air previews as an all-white pattern; every other tile kind uses the catalog pattern at position `code - 1`, so the catalog order follows the discriminants |
| Images.ImagePixelsPeriodic | src/main.rs:319-321 | `image_pixels` repeats every 32 pixels on both axes and depends only on x and y modulo 32 |
| Tiles.Occluding | src/main.rs:311-316 | a tile is solid exactly when its code is 1, 2, 6, 7 or 8 (Dirt, Grass, Stone, Planks, CrackedStone) |
| Editor.Occludes | src/main.rs:311-316 | the foreground tile at column x, row y is solid exactly when it is Dirt, Grass, Stone, Planks or CrackedStone |
| Editor.Paint | src/main.rs:165-168 | the written cell gets the tile, unless it is a background cell under a solid foreground tile, where it keeps its old tile; every other cell is unchanged |
| Editor.EmptyGrid | src/main.rs:144 | both layers are well-formed and every cell is Air |
| Editor.New | src/main.rs:142-151 | the initial state satisfies the invariant: both layers well-formed, mode below 2, offset in range and tile-aligned, spawn a multiple of 16 |
| Editor.Update | src/main.rs:153-157 | without a pointer nothing changes; with one, only the cursor changes and becomes the screen tile containing the pointer (row from y, column from x); the invariant is kept |
| Editor.Target | src/main.rs:160-164 | the cell `imprint` writes is inside the grid; on each axis it is the cursor shifted by the offset in tiles, or the last row/column when that shift falls outside the grid |
| Editor.Imprint | src/main.rs:159-169 | only the tiles change, and the invariant is kept |
| Editor.ImprintEffect | src/main.rs:159-169 | with the background selected and a solid foreground tile at the target, nothing changes; otherwise the target cell of the selected layer becomes the active tile; no other cell of either layer changes |
| Editor.ImprintIdempotent | src/main.rs:159-169 | stamping twice without moving gives the same state as stamping once |
| Editor.TargetUnderPointer | src/main.rs:153-169 | after `update` with the pointer on screen, `imprint` writes the world tile under the pointer, with no clamping |
| Editor.SetSpawn | src/main.rs:171-175 | without a pointer nothing changes; with one, only the spawn changes: both coordinates are multiples of 16, and divided by 16 they are the screen tile containing the pointer |
| Editor.ScrollStep | src/main.rs:178-187 | before clamping, at most one axis moves, by exactly one tile; the column grows exactly when Right is held and the column offset is below SIM_WIDTH - CHUNK_SIZE; the offset stays put exactly when no branch applies |
| Editor.Scroll | src/main.rs:177-191 | the new offset is inside [0, 224] x [0, 320], and stays a whole number of tiles when the old one was |
| Editor.SetOffset | src/main.rs:177-191 | only the offset changes, the result is in range, and the invariant is kept |
| Editor.ScrollPriority | src/main.rs:179-189 | Right wins over Left, Left over Up, Up over Down; the chosen axis moves one tile, saturating at 0 or the maximum, and with no arrow held the offset is unchanged |
| Editor.LowestDigitFrom | src/main.rs:193-213 | returns the lowest digit key from `from` to 8 that is pressed, or none when none of them is |
| Editor.SelectChunkType | src/main.rs:193-213 | when no digit key 0..8 is pressed the active tile stays; otherwise the lowest pressed digit d gives the tile `From(d)`; Key9 is ignored |
| Editor.SetChunkType | src/main.rs:193-213 | only the active tile changes, and the invariant is kept |
| Editor.ToggleMode | src/main.rs:215-221 | the new mode is 0 or 1: for modes 0 and 1 it is the other one, and every other mode becomes 0 |
| Editor.SetChunkMode | src/main.rs:215-221 | only the mode changes, and the invariant is kept |
| Editor.ToggleTwice | src/main.rs:215-221 | toggling twice gives the selected layer back |
| Editor.Apply | src/main.rs:112-134 | each operation the event loop triggers keeps the invariant |
| Editor.Run | src/main.rs:106-137 | any sequence of operations keeps the invariant |
| Editor.Reachable | src/main.rs:91-137 | every state reachable from `World::new` has its offset in range, mode 0 or 1, and the spawn on multiples of 16 |
| Renderer.CellInRange | src/main.rs:242 | for any offset in range, each screen pixel falls in a tile inside the grid, so the lookup in `draw` never leaves the array |
| Renderer.ScreenPixel | src/main.rs:237-238 | pixel number `chk` of the screen is at column `chk % WIDTH`, row `chk / WIDTH`, both on screen |
| Renderer.Screen | src/main.rs:236-270 | the colours `draw` composes, one per screen pixel in row-major order: WIDTH*HEIGHT of them |
| Renderer.Flatten | src/main.rs:269 | laying out pixels four bytes each gives 4 bytes per pixel |
| Renderer.FlattenSnoc | src/main.rs:269 | copying one more pixel appends its r, g, b, a bytes to the filled prefix |
| Renderer.FlattenAt | src/main.rs:269 | bytes 4i to 4i+3 of the frame are r, g, b, a of pixel i |
| Renderer.Layered | src/main.rs:244-267 | the colour of a world pixel given the tile shown and whether the indicator applies: the visible indicator wins, then the visible spawn pixel, then the active tile's pattern with alpha 0x64 on the cursor cell, then the tile's own pattern (white for Air) |
| Renderer.PixelAt | src/main.rs:237-267 | screen pixel (sx, sy) shows world pixel (sx + column offset, sy + row offset): in the background layer the indicator covers every solid foreground tile where it is opaque, and away from the spawn marker and the cursor the shown layer's own tile is drawn |
| Renderer.OverlayOrder | src/main.rs:244-267 | the indicator wins where visible over a solid foreground tile in background mode; otherwise the opaque spawn pixel wins; otherwise, under the cursor, the pixel is the active tile's pattern pixel with alpha 0x64; otherwise it is the pattern pixel of the tile shown (white for Air) |
| Renderer.PreviewMatchesTarget | src/main.rs:256-259 | where the preview covers a screen pixel, the cell `imprint` would write is that pixel's world tile |
| Renderer.ForegroundViewIgnoresBackground | src/main.rs:242-267 | with the foreground selected, replacing the background layer changes no pixel |
| Renderer.SpawnUnderPointer | src/main.rs:261-263 | at offset (0, 0), the marker placed with the pointer covers the pixel under the pointer |
| Renderer.SpawnShiftedByScroll | src/main.rs:261-263 | scrolled one tile right, a marker placed at the screen origin is drawn at the world origin, off the pixel under the pointer |
| Serializer.RowText | src/main.rs:279-281 | a row's text has one character per cell |
| Serializer.LayerText | src/main.rs:278-283 | a layer's text has 41 characters per row: 40 digits and a newline |
| Serializer.RowTextAt | src/main.rs:279-281 | character x of a row's text is the digit of cell x |
| Serializer.LayerTextAt | src/main.rs:278-283 | character y*41+x is the digit of cell (y, x), and character y*41+40 is the newline |
| Serializer.LayerTextIndex | src/main.rs:278-283 | every character of a saved layer: a newline at each column 40, the digit of cell (i / 41, i % 41) elsewhere |
| Serializer.ForegroundText | src/main.rs:278-283 | `map.txt` has 30 lines of 41 characters: the digit of each foreground cell, then a newline |
| Serializer.BackgroundText | src/main.rs:289-298 | `map_bg.txt` has 30 lines of 41 characters: '0' under a solid foreground tile, the background cell's digit elsewhere, then a newline |
| Serializer.MaskedBackground | src/main.rs:289-298 | the background as saved is a full 30x40 layer |
| Serializer.BackgroundTextAt | src/main.rs:289-298 | `map_bg.txt` holds '0' under every solid foreground tile and the background's digit elsewhere |
| Serializer.ParseLayer | src/main.rs:278-283 | reading 30 lines of a saved text gives a full 30x40 layer |
| Serializer.LayerRoundTrip | src/main.rs:278-283 | reading a saved layer back gives the layer |
| Serializer.SavedBackground | src/main.rs:289-298 | reading `map_bg.txt` back gives Air under every solid foreground tile and the background tile elsewhere |
| Serializer.DecimalText | src/main.rs:305-306 | `{}` of an unsigned integer is a nonempty string of digits, with a leading '0' only for 0 |
| Serializer.DecimalRoundTrip | src/main.rs:305-306 | parsing the decimal text of n gives n |
| Serializer.CodeIsOneDigit | src/main.rs:280 | `{}` of a tile's code is the single digit the layer texts use |
| Serializer.JsonLines | src/main.rs:303-308 | the five `writeln!` lines put the x and y texts between the same fixed pieces as the JSON record |
| Serializer.SpawnJson | src/main.rs:304-308 | the text of `map.json` reads back to the spawn it was written from |
| Serializer.SpawnJsonRoundTrip | src/main.rs:303-308 | reading `map.json` back gives the spawn that was saved, row and column |
| Serializer.OriginJson | src/main.rs:304-308 | the record of a spawn at (0, 0) is exactly `{`, `\t"x": 0,`, `\t"y": 0,`, `\t"depth": 750`, `}`, one per line |
| Serializer.EmptyExport | src/main.rs:273-309 | saving a new world gives 30 lines of 40 zeros in both layer files, and the record `{ "x": 0, "y": 0, "depth": 750 }` with its exact whitespace |
| Serializer.StoneScenario | src/main.rs:278-298 | after Key6 and a click on tile (5, 5), `map.txt` has '6' at line 6 column 6 and '0' in every other cell; painting Dirt into the background there afterwards changes nothing, and `map_bg.txt` keeps '0' there |
| EditorWorld.World.constructor | src/main.rs:142-151 | the new world satisfies the invariant and its state is `Editor.New()` |
| EditorWorld.World.Update | src/main.rs:153-157 | the new state is `Editor.Update` of the old one |
| EditorWorld.World.CheckForegroundChunkType | src/main.rs:311-316 | true exactly when the foreground tile at (x, y) is solid, that is, not Air, CheckPoint, Spikes or TallGrass |
| EditorWorld.World.Imprint | src/main.rs:159-169 | the new state is `Editor.Imprint` of the old one |
| EditorWorld.World.SetSpawn | src/main.rs:171-175 | the new state is `Editor.SetSpawn` of the old one |
| EditorWorld.World.SetOffset | src/main.rs:177-191 | the new state is `Editor.SetOffset` of the old one; the signed arithmetic and clamping are done on integers |
| EditorWorld.World.SetChunkType | src/main.rs:193-213 | the new state is `Editor.SetChunkType` of the old one |
| EditorWorld.World.SetChunkMode | src/main.rs:215-221 | the new state is `Editor.SetChunkMode` of the old one |
| EditorWorld.World.Compose | src/main.rs:237-267 | the colour computed for screen pixel (sx, sy) is `Renderer.PixelAt` of the state |
| EditorWorld.World.Overlay | src/main.rs:244-267 | the base colour and the three `if` overlays computed in place equal `Renderer.Layered` |
| EditorWorld.World.DrawPixel | src/main.rs:236-270 | one loop step extends the filled prefix of the frame by the next screen pixel and leaves the bytes after it untouched |
| EditorWorld.World.WritePixel | src/main.rs:269 | `copy_from_slice` appends the pixel's four bytes to the prefix and leaves the bytes after the slot untouched |
| EditorWorld.World.Draw | src/main.rs:223-271 | with n = min(WIDTH*HEIGHT, frame length / 4), the first 4n bytes of the frame are the first n screen pixels in row-major order, and the bytes after them are untouched |
| EditorWorld.World.SaveForeground | src/main.rs:278-283 | the text written is `ForegroundText` of the tiles |
| EditorWorld.World.ForegroundLine | src/main.rs:279-282 | the inner loop writes row h of the foreground as digits, then the newline |
| EditorWorld.World.SaveBackground | src/main.rs:289-298 | the text written is `BackgroundText` of the tiles |
| EditorWorld.World.BackgroundLine | src/main.rs:290-297 | the inner loop writes '0' under each solid foreground tile and the background digit elsewhere, then the newline |
| EditorWorld.World.SaveJson | src/main.rs:303-308 | the text written is `SpawnJson` of the spawn, which reads back to the spawn |
| EditorWorld.World.Save | src/main.rs:273-309 | the three texts are the foreground, the masked background and the spawn record |

## Left out

- The winit event loop in `main` (window, surface, redraw requests, exit on Escape) is not modelled. Its fixed order of calls within one update (lines 116-134: `imprint`, `set_spawn`, `set_chunk_mode`, `set_offset`, `set_chunk_type`, `update`) is not modelled either. `Editor.Run` accepts the operations in any order, which includes that order, so the invariant lemmas cover the loop.
- `Input.mouse` is a pair of naturals. The pointer position is an `f32` in Rust, and `as usize` truncates it and saturates negative values to 0. The model starts after that cast.
- The `Input` record has no field for mouse buttons. The event loop decides from the buttons which operation to call, so `Editor.Op` carries the choice instead.
- The file system side of `save` is not modelled: opening, removing and creating `map.txt`, `map_bg.txt` and `map.json`, and the `unwrap` of I/O errors. `EditorWorld.World.Save` returns the three texts instead.
- The pattern literals of the `images` module are not part of this model. `Images.Catalog` takes them as parameters, each a 32x32 grid of RGBA pixels.
- The unused colour constants BLACK and RED are not modelled, and neither is the `SELECT` constant. The preview alpha 0x64 is the constant written in `draw`.
- Integer widths: the offsets are `isize` during `set_offset` and `usize` elsewhere. Every value stays far inside both ranges, so the model uses unbounded integers.
- EditorWorld.World.Draw: the frame is specified up to `min(WIDTH*HEIGHT, len/4)` pixels, as `zip` with `chunks_exact_mut(4)` stops. It does not model `pixels.render()`.
