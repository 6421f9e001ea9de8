/**
 * `World`: the editor's map and view state, updated in place by the event
 * loop. Every method is proved to move the fields exactly as the matching
 * function of the Editor module moves a State, so the invariant and the
 * lemmas proved there hold of the object.
 */
module EditorWorld {
  import opened Config
  import opened Tiles
  import opened Events
  import opened Images
  import opened Editor
  import opened Renderer
  import opened Serializer

  class World {
    /** `chunks[layer][row][column]`, layer 0 the foreground and 1 the background. */
    const chunks: array3<ChunkType>
    var chunkMode: nat
    var offset: (nat, nat)
    var tmpChunk: (nat, nat)
    var spawnChunk: (nat, nat)
    var chunkType: ChunkType

    predicate Shaped() {
      chunks.Length0 == 2 && chunks.Length1 == ROWS && chunks.Length2 == COLS
    }

    /** The contents of `chunks` as a value. */
    ghost function Cells(): (g: Grid)
      reads chunks
      requires Shaped()
      ensures WellFormed(g)
      ensures forall l, y, x | 0 <= l < 2 && 0 <= y < ROWS && 0 <= x < COLS :: g[l][y][x] == chunks[l, y, x]
    {
      seq(2, l requires 0 <= l < 2 reads chunks =>
        seq(ROWS, y requires 0 <= y < ROWS reads chunks =>
          seq(COLS, x requires 0 <= x < COLS reads chunks => chunks[l, y, x])))
    }

    /** All fields as an Editor state. */
    ghost function Model(): State
      reads this, chunks
      requires Shaped()
    {
      State(Cells(), chunkMode, offset, tmpChunk, spawnChunk, chunkType)
    }

    ghost predicate Valid()
      reads this, chunks
    {
      Shaped() && Inv(Model())
    }

    /** `World::new`. */
    constructor ()
      ensures Valid() && fresh(chunks)
      ensures Model() == New()
    {
      chunks := new ChunkType[2, ROWS, COLS]((l, y, x) => Air);
      chunkMode := 0;
      offset := (0, 0);
      tmpChunk := (0, 0);
      spawnChunk := (0, 0);
      chunkType := Dirt;
      new;
      GridsEqual(Cells(), EmptyGrid());
    }

    /** `update`: remember the pointer's screen tile. */
    method Update(input: Input)
      requires Valid()
      modifies this
      ensures Valid() && Model() == Editor.Update(old(Model()), input)
    {
      if input.mouse.Some? {
        var (x, y) := input.mouse.value;
        tmpChunk := (y / CHUNK_SIZE, x / CHUNK_SIZE);
      }
    }

    /** `check_foreground_chunktype(x, y)`. */
    function CheckForegroundChunkType(x: nat, y: nat): (solid: bool)
      reads chunks
      requires Shaped() && x < COLS && y < ROWS
      ensures solid == Occludes(Cells(), x, y)
    {
      chunks[0, y, x] != Air &&
      chunks[0, y, x] != CheckPoint &&
      chunks[0, y, x] != Spikes &&
      chunks[0, y, x] != TallGrass
    }

    /** `imprint`: stamp the active tile at the cursor's world cell. */
    method Imprint()
      requires Valid()
      modifies chunks
      ensures Valid() && Model() == Editor.Imprint(old(Model()))
    {
      var y, x := tmpChunk.0, tmpChunk.1;
      x := x + offset.1 / CHUNK_SIZE;
      y := y + offset.0 / CHUNK_SIZE;
      x := Clamp(x, 0, COLS - 1);
      y := Clamp(y, 0, ROWS - 1);
      if chunkMode == 1 && CheckForegroundChunkType(x, y) {
        return;
      }
      ghost var before := Cells();
      chunks[chunkMode, y, x] := chunkType;
      GridsEqual(Cells(), Paint(before, chunkMode, y, x, chunkType));
    }

    /** `set_spawn`: the pointer's screen tile, times 16. */
    method SetSpawn(input: Input)
      requires Valid()
      modifies this
      ensures Valid() && Model() == Editor.SetSpawn(old(Model()), input)
    {
      if input.mouse.Some? {
        var (x, y) := input.mouse.value;
        spawnChunk := (y / CHUNK_SIZE * SPAWN_SCALE, x / CHUNK_SIZE * SPAWN_SCALE);
      }
    }

    /** `set_offset`: scroll one tile along the first held direction, then clamp. */
    method SetOffset(input: Input)
      requires Valid()
      modifies this
      ensures Valid() && Model() == Editor.SetOffset(old(Model()), input)
    {
      var o0: int, o1: int := offset.0, offset.1;
      if Right in input.held && o1 < SIM_WIDTH - CHUNK_SIZE {
        o1 := o1 + CHUNK_SIZE;
      } else if Left in input.held {
        o1 := o1 - CHUNK_SIZE;
      } else if Up in input.held {
        o0 := o0 - CHUNK_SIZE;
      } else if Down in input.held {
        o0 := o0 + CHUNK_SIZE;
      }
      o0 := Clamp(o0, 0, SIM_HEIGHT - HEIGHT);
      o1 := Clamp(o1, 0, SIM_WIDTH - WIDTH);
      offset := (o0, o1);
    }

    /** `set_chunk_type`: the first pressed key of 0 to 8 selects the tile of that code. */
    method SetChunkType(input: Input)
      requires Valid()
      modifies this
      ensures Valid() && Model() == Editor.SetChunkType(old(Model()), input)
    {
      var pressed := input.pressed;
      if Key0 in pressed {
        chunkType := Air;
      } else if Key1 in pressed {
        chunkType := Dirt;
      } else if Key2 in pressed {
        chunkType := Grass;
      } else if Key3 in pressed {
        chunkType := CheckPoint;
      } else if Key4 in pressed {
        chunkType := Spikes;
      } else if Key5 in pressed {
        chunkType := TallGrass;
      } else if Key6 in pressed {
        chunkType := Stone;
      } else if Key7 in pressed {
        chunkType := Planks;
      } else if Key8 in pressed {
        chunkType := CrackedStone;
      }
    }

    /** `set_chunk_mode`: switch between foreground and background. */
    method SetChunkMode()
      requires Valid()
      modifies this
      ensures Valid() && Model() == Editor.SetChunkMode(old(Model()))
    {
      // 0 becomes 1; 1 and every other value become 0
      chunkMode := if chunkMode == 0 then 1 else 0;
    }

    /** The colour `draw` gives screen pixel (sx, sy); `choice` is the active tile's pattern. */
    method Compose(cat: Catalog, ghost s: State, choice: Image, sx: nat, sy: nat) returns (rgba: Rgba)
      requires Shaped() && Model() == s && Inv(s)
      requires choice == Pattern(cat, chunkType) && sx < WIDTH && sy < HEIGHT
      ensures rgba == PixelAt(cat, s, sx, sy)
    {
      var x := sx + offset.1;
      var y := sy + offset.0;
      CellInRange(offset, sx, sy);
      var chunk := chunks[chunkMode, y / CHUNK_SIZE, x / CHUNK_SIZE];
      var hidden := chunkMode == 1 && CheckForegroundChunkType(x / CHUNK_SIZE, y / CHUNK_SIZE);
      assert PixelAt(cat, s, sx, sy) == Layered(cat, s, x, y, chunk, hidden);
      rgba := Overlay(cat, s, choice, x, y, chunk, hidden);
    }

    /** The base colour of world pixel (x, y) and the three overlays, in the order `draw` applies them. */
    method Overlay(cat: Catalog, ghost s: State, choice: Image, x: nat, y: nat, chunk: ChunkType, hidden: bool)
      returns (rgba: Rgba)
      requires s.offset == offset && s.tmpChunk == tmpChunk && s.spawnChunk == spawnChunk && s.chunkType == chunkType
      requires choice == Pattern(cat, chunkType)
      ensures rgba == Layered(cat, s, x, y, chunk, hidden)
    {
      rgba := if chunk == Air then WHITE else ImagePixels(Pattern(cat, chunk), x, y);
      if tmpChunk.0 == (y - offset.0) / CHUNK_SIZE && tmpChunk.1 == (x - offset.1) / CHUNK_SIZE {
        rgba := ImagePixels(choice, x, y).(a := SELECT_ALPHA);
      }
      if spawnChunk == (y / CHUNK_SIZE * SPAWN_SCALE, x / CHUNK_SIZE * SPAWN_SCALE) && ImagePixels(cat.spawn, x, y).a != 0 {
        rgba := ImagePixels(cat.spawn, x, y);
      }
      if hidden && ImagePixels(cat.notShown, x, y).a != 0 {
        rgba := ImagePixels(cat.notShown, x, y);
      }
    }

    /**
     * `draw`: fill the frame, four bytes per screen pixel in row-major order,
     * for as many whole pixels as both the screen and the buffer hold.
     */
    method Draw(cat: Catalog, frame: array<byte>)
      requires Valid()
      modifies frame
      ensures var n := Min(WIDTH * HEIGHT, frame.Length / 4);
        && frame[..4 * n] == Flatten(Screen(cat, Model())[..n])
        && forall k | 4 * n <= k < frame.Length :: frame[k] == old(frame[k])
    {
      ghost var s := Model();
      ghost var screen := Screen(cat, s);
      var choice := Pattern(cat, chunkType);
      var n := Min(WIDTH * HEIGHT, frame.Length / 4);
      assert 4 * n <= frame.Length;
      for chk := 0 to n
        invariant Shaped() && Model() == s
        invariant frame[..4 * chk] == Flatten(screen[..chk])
        invariant forall k | 4 * chk <= k < frame.Length :: frame[k] == old(frame[k])
      {
        DrawPixel(cat, s, screen, choice, frame, chk);
      }
    }

    /** One step of the `draw` loop: colour pixel chk and copy it into its slot. */
    method DrawPixel(cat: Catalog, ghost s: State, ghost screen: seq<Rgba>, choice: Image, frame: array<byte>, chk: nat)
      requires Shaped() && Model() == s && Inv(s) && screen == Screen(cat, s)
      requires choice == Pattern(cat, chunkType)
      requires chk < WIDTH * HEIGHT && 4 * chk + 4 <= frame.Length
      requires frame[..4 * chk] == Flatten(screen[..chk])
      modifies frame
      ensures Shaped() && Model() == s
      ensures frame[..4 * (chk + 1)] == Flatten(screen[..chk + 1])
      ensures forall k | 4 * (chk + 1) <= k < frame.Length :: frame[k] == old(frame[k])
    {
      ScreenPixel(chk);
      var rgba := Compose(cat, s, choice, chk % WIDTH, chk / WIDTH);
      assert screen[chk] == rgba;
      WritePixel(frame, chk, rgba);
      FlattenSnoc(screen, chk);
    }

    /** `pix.copy_from_slice(&rgba)` on the i-th four-byte slot. */
    static method WritePixel(frame: array<byte>, i: nat, rgba: Rgba)
      requires 4 * i + 4 <= frame.Length
      modifies frame
      ensures frame[..4 * i + 4] == old(frame[..4 * i]) + Bytes(rgba)
      ensures forall k | 4 * i + 4 <= k < frame.Length :: frame[k] == old(frame[k])
    {
      frame[4 * i], frame[4 * i + 1], frame[4 * i + 2], frame[4 * i + 3] := rgba.r, rgba.g, rgba.b, rgba.a;
    }

    /** The text of map.txt: the foreground, one digit per cell. */
    method SaveForeground() returns (fg: string)
      requires Valid()
      ensures fg == ForegroundText(Cells())
    {
      ghost var g := Cells();
      fg := "";
      for h := 0 to ROWS
        invariant fg == LayerText(g[0][..h])
      {
        var line := ForegroundLine(g, h);
        fg := fg + line;
        assert g[0][..h + 1][..h] == g[0][..h];
      }
      assert g[0][..ROWS] == g[0];
    }

    /** One line of map.txt: row h of the foreground and the newline. */
    method ForegroundLine(ghost g: Grid, h: nat) returns (line: string)
      requires Shaped() && g == Cells() && h < ROWS
      ensures line == RowText(g[0][h]) + "\n"
    {
      line := "";
      for w := 0 to COLS
        invariant line == RowText(g[0][h][..w])
      {
        line := line + [DigitChar(chunks[0, h, w])];
        assert g[0][h][..w + 1][..w] == g[0][h][..w];
      }
      assert g[0][h][..COLS] == g[0][h];
      line := line + "\n";
    }

    /** The text of map_bg.txt: the background, with 0 under every solid foreground tile. */
    method SaveBackground() returns (bg: string)
      requires Valid()
      ensures bg == BackgroundText(Cells())
    {
      ghost var masked := MaskedBackground(Cells());
      bg := "";
      for y := 0 to ROWS
        invariant bg == LayerText(masked[..y])
      {
        var line := BackgroundLine(masked, y);
        bg := bg + line;
        assert masked[..y + 1][..y] == masked[..y];
      }
      assert masked[..ROWS] == masked;
    }

    /** One line of map_bg.txt: row y of the background, masked, and the newline. */
    method BackgroundLine(ghost masked: Layer, y: nat) returns (line: string)
      requires Shaped() && masked == MaskedBackground(Cells()) && y < ROWS
      ensures line == RowText(masked[y]) + "\n"
    {
      line := "";
      for x := 0 to COLS
        invariant line == RowText(masked[y][..x])
      {
        if CheckForegroundChunkType(x, y) {
          line := line + "0";
        } else {
          line := line + [DigitChar(chunks[1, y, x])];
        }
        assert masked[y][..x + 1][..x] == masked[y][..x];
      }
      assert masked[y][..COLS] == masked[y];
      line := line + "\n";
    }

    /** The text of map.json: the spawn point, column first, and the fixed depth. */
    method SaveJson() returns (json: string)
      ensures json == SpawnJson(spawnChunk)
    {
      json := "{\n";
      json := json + "\t\"x\": " + DecimalText(spawnChunk.1) + ",\n";
      json := json + "\t\"y\": " + DecimalText(spawnChunk.0) + ",\n";
      json := json + "\t\"depth\": 750\n";
      json := json + "}\n";
      JsonLines(DecimalText(spawnChunk.1), DecimalText(spawnChunk.0));
    }

    /** `save`: the texts of map.txt, map_bg.txt and map.json, in that order. */
    method Save() returns (fg: string, bg: string, json: string)
      requires Valid()
      ensures fg == ForegroundText(Cells())
      ensures bg == BackgroundText(Cells())
      ensures json == SpawnJson(spawnChunk)
    {
      fg := SaveForeground();
      bg := SaveBackground();
      json := SaveJson();
    }
  }
}
