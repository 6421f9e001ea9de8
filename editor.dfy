/**
 * The editor's state as a value and each `World` operation as a function on
 * it. The class in world.dfy updates its fields in place and is proved to
 * follow these functions step by step.
 */
module Editor {
  import opened Config
  import opened Tiles
  import opened Events

  /** One layer, indexed [row][column]. */
  type Layer = seq<seq<ChunkType>>

  /** Both layers: index 0 is the foreground, index 1 the background. */
  type Grid = seq<Layer>

  predicate LayerShaped(l: Layer) {
    |l| == ROWS && forall y | 0 <= y < |l| :: |l[y]| == COLS
  }

  predicate WellFormed(g: Grid) {
    |g| == 2 && LayerShaped(g[0]) && LayerShaped(g[1])
  }

  /** `check_foreground_chunktype(x, y)`: the foreground tile at column x, row y is solid. */
  predicate Occludes(g: Grid, x: nat, y: nat): (solid: bool)
    requires WellFormed(g) && x < COLS && y < ROWS
    ensures solid <==> g[0][y][x] in {Dirt, Grass, Stone, Planks, CrackedStone}
  {
    Occluding(g[0][y][x])
  }

  /**
   * Writing tile t into layer `layer` at row y, column x, where a background
   * write under a solid foreground tile is dropped.
   */
  function Paint(g: Grid, layer: nat, y: nat, x: nat, t: ChunkType): (r: Grid)
    requires WellFormed(g) && layer < 2 && y < ROWS && x < COLS
    ensures WellFormed(r)
    ensures r[layer][y][x] == if layer == 1 && Occludes(g, x, y) then g[layer][y][x] else t
    ensures forall l, yy, xx | 0 <= l < 2 && 0 <= yy < ROWS && 0 <= xx < COLS && (l != layer || yy != y || xx != x)
      :: r[l][yy][xx] == g[l][yy][xx]
  {
    if layer == 1 && Occludes(g, x, y) then g
    else g[layer := g[layer][y := g[layer][y][x := t]]]
  }

  /** Two grids are equal when they agree on every cell. */
  lemma GridsEqual(a: Grid, b: Grid)
    requires WellFormed(a) && WellFormed(b)
    requires forall l, y, x | 0 <= l < 2 && 0 <= y < ROWS && 0 <= x < COLS :: a[l][y][x] == b[l][y][x]
    ensures a == b
  {
    forall l, y | 0 <= l < 2 && 0 <= y < ROWS
      ensures a[l][y] == b[l][y]
    {
    }
    forall l | 0 <= l < 2
      ensures a[l] == b[l]
    {
    }
  }

  /** The fields of `World`. Offsets and cells are (row, column) pairs. */
  datatype State = State(
    chunks: Grid,
    chunkMode: nat,
    offset: (nat, nat),
    tmpChunk: (nat, nat),
    spawnChunk: (nat, nat),
    chunkType: ChunkType)

  predicate OffsetInRange(off: (nat, nat)) {
    off.0 <= MAX_OFFSET_Y && off.1 <= MAX_OFFSET_X
  }

  predicate TileAligned(off: (nat, nat)) {
    off.0 % CHUNK_SIZE == 0 && off.1 % CHUNK_SIZE == 0
  }

  predicate SpawnAligned(spawn: (nat, nat)) {
    spawn.0 % SPAWN_SCALE == 0 && spawn.1 % SPAWN_SCALE == 0
  }

  /** What holds of every state the editor can reach. */
  predicate Inv(s: State) {
    && WellFormed(s.chunks)
    && s.chunkMode < 2
    && OffsetInRange(s.offset)
    && TileAligned(s.offset)
    && SpawnAligned(s.spawnChunk)
  }

  function EmptyGrid(): (g: Grid)
    ensures WellFormed(g)
    ensures forall l, y, x | 0 <= l < 2 && 0 <= y < ROWS && 0 <= x < COLS :: g[l][y][x] == Air
  {
    seq(2, _ => seq(ROWS, _ => seq(COLS, _ => Air)))
  }

  /** `World::new`: both layers Air, foreground selected, Dirt active, everything else at (0, 0). */
  function New(): (s: State)
    ensures Inv(s)
  {
    State(EmptyGrid(), 0, (0, 0), (0, 0), (0, 0), Dirt)
  }

  /** Screen or world pixel p lies in tile number `tile`. */
  predicate InTile(p: nat, tile: nat) {
    tile * CHUNK_SIZE <= p < (tile + 1) * CHUNK_SIZE
  }

  /** `update`: the screen tile under the pointer becomes the cursor cell. */
  function Update(s: State, input: Input): (r: State)
    ensures Inv(s) ==> Inv(r)
    ensures input.mouse.None? ==> r == s
    ensures input.mouse.Some? ==>
      && r == s.(tmpChunk := r.tmpChunk)
      && InTile(input.mouse.value.1, r.tmpChunk.0)
      && InTile(input.mouse.value.0, r.tmpChunk.1)
  {
    match input.mouse
    case None => s
    case Some(pos) => s.(tmpChunk := (pos.1 / CHUNK_SIZE, pos.0 / CHUNK_SIZE))
  }

  /**
   * The cell `imprint` writes: the screen-relative cursor shifted by the
   * offset in whole tiles, then clamped into the grid.
   */
  function Target(tmp: (nat, nat), off: (nat, nat)): (cell: (nat, nat))
    ensures cell.0 < ROWS && cell.1 < COLS
    ensures cell.0 == tmp.0 + off.0 / CHUNK_SIZE || ROWS - 1 == cell.0 < tmp.0 + off.0 / CHUNK_SIZE
    ensures cell.1 == tmp.1 + off.1 / CHUNK_SIZE || COLS - 1 == cell.1 < tmp.1 + off.1 / CHUNK_SIZE
  {
    (Clamp(tmp.0 + off.0 / CHUNK_SIZE, 0, ROWS - 1), Clamp(tmp.1 + off.1 / CHUNK_SIZE, 0, COLS - 1))
  }

  /** `imprint`: paint the active tile into the selected layer at the target cell. */
  function Imprint(s: State): (r: State)
    requires Inv(s)
    ensures Inv(r)
    ensures r == s.(chunks := r.chunks)
  {
    var cell := Target(s.tmpChunk, s.offset);
    s.(chunks := Paint(s.chunks, s.chunkMode, cell.0, cell.1, s.chunkType))
  }

  /**
   * `set_spawn`: the screen tile under the pointer, times 16; the offset
   * plays no part.
   */
  function SetSpawn(s: State, input: Input): (r: State)
    ensures Inv(s) ==> Inv(r)
    ensures input.mouse.None? ==> r == s
    ensures input.mouse.Some? ==>
      && r == s.(spawnChunk := r.spawnChunk)
      && SpawnAligned(r.spawnChunk)
      && InTile(input.mouse.value.1, r.spawnChunk.0 / SPAWN_SCALE)
      && InTile(input.mouse.value.0, r.spawnChunk.1 / SPAWN_SCALE)
  {
    match input.mouse
    case None => s
    case Some(pos) => s.(spawnChunk := (pos.1 / CHUNK_SIZE * SPAWN_SCALE, pos.0 / CHUNK_SIZE * SPAWN_SCALE))
  }

  /**
   * The signed offset `set_offset` computes before clamping: one step of a
   * tile along the first held direction of Right, Left, Up, Down. Right
   * only counts while the column offset is below SIM_WIDTH - CHUNK_SIZE.
   */
  function ScrollStep(off: (nat, nat), held: set<Key>): (step: (int, int))
    ensures step.0 == off.0 || step.1 == off.1
    ensures step.0 == off.0 - CHUNK_SIZE || step.0 == off.0 || step.0 == off.0 + CHUNK_SIZE
    ensures step.1 == off.1 - CHUNK_SIZE || step.1 == off.1 || step.1 == off.1 + CHUNK_SIZE
    ensures step.1 > off.1 <==> Right in held && off.1 < SIM_WIDTH - CHUNK_SIZE
    ensures step == off <==> !(Right in held && off.1 < SIM_WIDTH - CHUNK_SIZE) && Left !in held && Up !in held && Down !in held
  {
    if Right in held && off.1 < SIM_WIDTH - CHUNK_SIZE then (off.0, off.1 + CHUNK_SIZE)
    else if Left in held then (off.0, off.1 - CHUNK_SIZE)
    else if Up in held then (off.0 - CHUNK_SIZE, off.1)
    else if Down in held then (off.0 + CHUNK_SIZE, off.1)
    else (off.0, off.1)
  }

  /** `set_offset`: take the step, then clamp each axis into the scrollable range. */
  function Scroll(off: (nat, nat), held: set<Key>): (r: (nat, nat))
    ensures OffsetInRange(r)
    ensures TileAligned(off) ==> TileAligned(r)
  {
    var step := ScrollStep(off, held);
    (Clamp(step.0, 0, MAX_OFFSET_Y), Clamp(step.1, 0, MAX_OFFSET_X))
  }

  function SetOffset(s: State, input: Input): (r: State)
    ensures Inv(s) ==> Inv(r)
    ensures OffsetInRange(r.offset)
    ensures r == s.(offset := r.offset)
  {
    s.(offset := Scroll(s.offset, input.held))
  }

  /** In range, exactly one axis moves by at most a tile, in the order Right, Left, Up, Down. */
  lemma ScrollPriority(off: (nat, nat), held: set<Key>)
    requires OffsetInRange(off)
    ensures Right in held ==> Scroll(off, held) == (off.0, Min(off.1 + CHUNK_SIZE, MAX_OFFSET_X))
    ensures Right !in held && Left in held ==> Scroll(off, held) == (off.0, Max(off.1 - CHUNK_SIZE, 0))
    ensures Right !in held && Left !in held && Up in held ==> Scroll(off, held) == (Max(off.0 - CHUNK_SIZE, 0), off.1)
    ensures Right !in held && Left !in held && Up !in held && Down in held ==>
      Scroll(off, held) == (Min(off.0 + CHUNK_SIZE, MAX_OFFSET_Y), off.1)
    ensures Right !in held && Left !in held && Up !in held && Down !in held ==> Scroll(off, held) == off
  {
  }

  /** The lowest digit d >= from, up to 8, whose key is pressed. */
  function LowestDigitFrom(pressed: set<Key>, from: nat): (r: Option<nat>)
    requires from <= 9
    decreases 9 - from
    ensures r.Some? ==> from <= r.value <= 8 && DigitKey(r.value) in pressed
    ensures r.Some? ==> forall e | from <= e < r.value :: DigitKey(e) !in pressed
    ensures r.None? ==> forall e | from <= e <= 8 :: DigitKey(e) !in pressed
  {
    if from == 9 then None
    else if DigitKey(from) in pressed then Some(from)
    else LowestDigitFrom(pressed, from + 1)
  }

  /** `set_chunk_type`: the lowest pressed digit key 0 to 8 picks the tile of that code. */
  function SelectChunkType(pressed: set<Key>, current: ChunkType): (t: ChunkType)
    ensures (forall d | 0 <= d <= 8 :: DigitKey(d) !in pressed) ==> t == current
    ensures forall d | 0 <= d <= 8 && DigitKey(d) in pressed && (forall e | 0 <= e < d :: DigitKey(e) !in pressed)
      :: t == FromByte(d)
  {
    match LowestDigitFrom(pressed, 0)
    case None => current
    case Some(d) => FromByte(d)
  }

  function SetChunkType(s: State, input: Input): (r: State)
    ensures Inv(s) ==> Inv(r)
    ensures r == s.(chunkType := r.chunkType)
  {
    s.(chunkType := SelectChunkType(input.pressed, s.chunkType))
  }

  /** `set_chunk_mode`: 0 and 1 swap, anything else becomes 0. */
  function ToggleMode(mode: nat): (m: nat)
    ensures m < 2
    ensures mode < 2 ==> m != mode
    ensures mode >= 2 ==> m == 0
  {
    match mode
    case 0 => 1
    case 1 => 0
    case _ => 0
  }

  function SetChunkMode(s: State): (r: State)
    ensures Inv(s) ==> Inv(r)
    ensures r == s.(chunkMode := r.chunkMode)
  {
    s.(chunkMode := ToggleMode(s.chunkMode))
  }

  /** Toggling twice gives the layer back. */
  lemma ToggleTwice(mode: nat)
    requires mode < 2
    ensures ToggleMode(ToggleMode(mode)) == mode
  {
  }

  /** The operations of `World`, for stating what any sequence of them keeps. */
  datatype Op =
    | MouseMoved(input: Input)
    | Stamp
    | PlaceSpawn(input: Input)
    | ScrollKeys(input: Input)
    | SelectTile(input: Input)
    | ToggleLayer

  function Apply(s: State, op: Op): (r: State)
    requires Inv(s)
    ensures Inv(r)
  {
    match op
    case MouseMoved(input) => Update(s, input)
    case Stamp => Imprint(s)
    case PlaceSpawn(input) => SetSpawn(s, input)
    case ScrollKeys(input) => SetOffset(s, input)
    case SelectTile(input) => SetChunkType(s, input)
    case ToggleLayer => SetChunkMode(s)
  }

  /** The state after the operations, in order. */
  function Run(s: State, ops: seq<Op>): (r: State)
    requires Inv(s)
    ensures Inv(r)
    decreases |ops|
  {
    if ops == [] then s else Run(Apply(s, ops[0]), ops[1..])
  }

  /** Every state reached from `World::new` keeps the invariant, whatever the inputs. */
  lemma Reachable(ops: seq<Op>)
    ensures var s := Run(New(), ops);
      && s.offset.0 <= MAX_OFFSET_Y && s.offset.1 <= MAX_OFFSET_X
      && s.chunkMode < 2
      && SpawnAligned(s.spawnChunk)
  {
  }

  /** `imprint` writes the active tile at the target cell and nothing else. */
  lemma ImprintEffect(s: State)
    requires Inv(s)
    ensures var r := Imprint(s);
      var cell := Target(s.tmpChunk, s.offset);
      && (s.chunkMode == 1 && Occludes(s.chunks, cell.1, cell.0) ==> r == s)
      && (s.chunkMode == 0 || !Occludes(s.chunks, cell.1, cell.0) ==> r.chunks[s.chunkMode][cell.0][cell.1] == s.chunkType)
      && (forall l, y, x | 0 <= l < 2 && 0 <= y < ROWS && 0 <= x < COLS && (l != s.chunkMode || y != cell.0 || x != cell.1)
            :: r.chunks[l][y][x] == s.chunks[l][y][x])
  {
  }

  /** Stamping the same cell twice is the same as stamping it once. */
  lemma {:induction false} ImprintIdempotent(s: State)
    requires Inv(s)
    ensures Imprint(Imprint(s)) == Imprint(s)
  {
    var cell := Target(s.tmpChunk, s.offset);
    var r := Imprint(s);
    if s.chunkMode == 1 && Occludes(s.chunks, cell.1, cell.0) {
    } else {
      assert r.chunks[s.chunkMode][cell.0][cell.1] == s.chunkType;
      if s.chunkMode == 1 {
        assert r.chunks[0] == s.chunks[0];
        assert !Occludes(r.chunks, cell.1, cell.0);
      }
      var g, m := r.chunks, s.chunkMode;
      assert g[m][cell.0][cell.1 := s.chunkType] == g[m][cell.0];
      assert g[m][cell.0 := g[m][cell.0]] == g[m];
      assert g[m := g[m]] == g;
    }
  }

  /**
   * With the pointer on screen and the offset a whole number of tiles, the
   * cell `imprint` writes is the world tile under the pointer.
   */
  lemma TargetUnderPointer(s: State, x: nat, y: nat)
    requires Inv(s) && x < WIDTH && y < HEIGHT
    ensures Target(Update(s, Input(Some((x, y)), {}, {})).tmpChunk, s.offset)
      == ((y + s.offset.0) / CHUNK_SIZE, (x + s.offset.1) / CHUNK_SIZE)
  {
  }
}
