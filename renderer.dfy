/**
 * What `draw` puts into the frame buffer: one RGBA pixel per screen pixel,
 * in row-major order, composed from the selected layer and three overlays.
 */
module Renderer {
  import opened Config
  import opened Tiles
  import opened Images
  import opened Editor
  import opened Events

  /** Every world tile a screen pixel can fall in exists, whatever the offset in range. */
  lemma CellInRange(off: (nat, nat), sx: nat, sy: nat)
    requires OffsetInRange(off) && sx < WIDTH && sy < HEIGHT
    ensures (sy + off.0) / CHUNK_SIZE < ROWS && (sx + off.1) / CHUNK_SIZE < COLS
  {
  }

  /** The cursor preview covers screen pixel (sx, sy): the cursor is its screen tile. */
  predicate CursorOver(s: State, sx: nat, sy: nat) {
    s.tmpChunk == (sy / CHUNK_SIZE, sx / CHUNK_SIZE)
  }

  /** The spawn marker covers world pixel (x, y): the spawn is its tile times 16. */
  predicate SpawnOver(s: State, x: nat, y: nat) {
    s.spawnChunk == (y / CHUNK_SIZE * SPAWN_SCALE, x / CHUNK_SIZE * SPAWN_SCALE)
  }

  /**
   * The colour of world pixel (x, y), given the tile of the selected layer
   * there and whether the "not shown" indicator applies: the tile (white for
   * Air), then the translucent preview of the active tile on the cursor
   * cell, then the opaque pixels of the spawn marker, then the opaque pixels
   * of the indicator. Each later overlay wins.
   */
  function Layered(cat: Catalog, s: State, x: nat, y: nat, chunk: ChunkType, hidden: bool): (p: Rgba)
    ensures var shown := hidden && ImagePixels(cat.notShown, x, y).a != 0;
      var marked := SpawnOver(s, x, y) && ImagePixels(cat.spawn, x, y).a != 0;
      var cursor := s.tmpChunk == ((y - s.offset.0) / CHUNK_SIZE, (x - s.offset.1) / CHUNK_SIZE);
      && (shown ==> p == ImagePixels(cat.notShown, x, y))
      && (!shown && marked ==> p == ImagePixels(cat.spawn, x, y))
      && (!shown && !marked && cursor ==> p == ImagePixels(Pattern(cat, s.chunkType), x, y).(a := SELECT_ALPHA))
      && (!shown && !marked && !cursor ==> p == ImagePixels(Pattern(cat, chunk), x, y))
  {
    var base := if chunk == Air then WHITE else ImagePixels(Pattern(cat, chunk), x, y);
    var preview :=
      if s.tmpChunk.0 == (y - s.offset.0) / CHUNK_SIZE && s.tmpChunk.1 == (x - s.offset.1) / CHUNK_SIZE
      then ImagePixels(Pattern(cat, s.chunkType), x, y).(a := SELECT_ALPHA)
      else base;
    var marked :=
      if SpawnOver(s, x, y) && ImagePixels(cat.spawn, x, y).a != 0
      then ImagePixels(cat.spawn, x, y)
      else preview;
    if hidden && ImagePixels(cat.notShown, x, y).a != 0
    then ImagePixels(cat.notShown, x, y)
    else marked
  }

  /**
   * The colour of screen pixel (sx, sy): the selected layer is shown, and
   * the indicator applies while the background is selected and the
   * foreground tile is solid.
   */
  function PixelAt(cat: Catalog, s: State, sx: nat, sy: nat): (p: Rgba)
    requires Inv(s) && sx < WIDTH && sy < HEIGHT
    // in the background layer, the indicator covers every solid foreground tile
    ensures var x := sx + s.offset.1; var y := sy + s.offset.0;
      s.chunkMode == 1 && Occludes(s.chunks, x / CHUNK_SIZE, y / CHUNK_SIZE)
        && ImagePixels(cat.notShown, x, y).a != 0
      ==> p == ImagePixels(cat.notShown, x, y)
    // away from the spawn marker and the cursor, the shown layer's own tile is drawn
    ensures var x := sx + s.offset.1; var y := sy + s.offset.0;
      !SpawnOver(s, x, y) && s.tmpChunk != (sy / CHUNK_SIZE, sx / CHUNK_SIZE)
        && !(s.chunkMode == 1 && Occludes(s.chunks, x / CHUNK_SIZE, y / CHUNK_SIZE))
      ==> p == ImagePixels(Pattern(cat, s.chunks[s.chunkMode][y / CHUNK_SIZE][x / CHUNK_SIZE]), x, y)
  {
    var x := sx + s.offset.1;
    var y := sy + s.offset.0;
    CellInRange(s.offset, sx, sy);
    Layered(cat, s, x, y,
      s.chunks[s.chunkMode][y / CHUNK_SIZE][x / CHUNK_SIZE],
      s.chunkMode == 1 && Occludes(s.chunks, x / CHUNK_SIZE, y / CHUNK_SIZE))
  }

  /** Pixel i of the screen, in row-major order, is (i % WIDTH, i / WIDTH). */
  lemma ScreenPixel(i: nat)
    requires i < WIDTH * HEIGHT
    ensures i % WIDTH < WIDTH && i / WIDTH < HEIGHT
  {
  }

  /** The colours of all screen pixels, in row-major order. */
  function Screen(cat: Catalog, s: State): (ps: seq<Rgba>)
    requires Inv(s)
    ensures |ps| == WIDTH * HEIGHT
  {
    seq(WIDTH * HEIGHT, i requires 0 <= i < WIDTH * HEIGHT =>
      ScreenPixel(i);
      PixelAt(cat, s, i % WIDTH, i / WIDTH))
  }

  /** The four bytes of a pixel as the frame holds them. */
  function Bytes(p: Rgba): (bytes: seq<byte>) {
    [p.r, p.g, p.b, p.a]
  }

  /** Pixels laid out in a byte buffer, four bytes each. */
  function Flatten(ps: seq<Rgba>): (f: seq<byte>)
    ensures |f| == 4 * |ps|
  {
    if ps == [] then []
    else Flatten(ps[..|ps| - 1]) + Bytes(ps[|ps| - 1])
  }

  /** Laying out one more pixel appends its four bytes. */
  lemma FlattenSnoc(ps: seq<Rgba>, i: nat)
    requires i < |ps|
    ensures Flatten(ps[..i + 1]) == Flatten(ps[..i]) + Bytes(ps[i])
  {
    assert ps[..i + 1][..i] == ps[..i];
  }

  /** Bytes 4i to 4i + 3 of the buffer are pixel i. */
  lemma {:induction false} FlattenAt(ps: seq<Rgba>, i: nat)
    requires i < |ps|
    ensures Flatten(ps)[4 * i .. 4 * i + 4] == Bytes(ps[i])
  {
    var n := |ps|;
    if i < n - 1 {
      FlattenAt(ps[..n - 1], i);
      assert Flatten(ps)[..4 * (n - 1)] == Flatten(ps[..n - 1]);
    }
  }

  /** Each overlay replaces what is beneath it only where it is visible, in a fixed order. */
  lemma OverlayOrder(cat: Catalog, s: State, sx: nat, sy: nat)
    requires Inv(s) && sx < WIDTH && sy < HEIGHT
    ensures var x, y := sx + s.offset.1, sy + s.offset.0;
      var p := PixelAt(cat, s, sx, sy);
      var hidden := s.chunkMode == 1 && Occludes(s.chunks, x / CHUNK_SIZE, y / CHUNK_SIZE)
        && ImagePixels(cat.notShown, x, y).a != 0;
      var spawn := SpawnOver(s, x, y) && ImagePixels(cat.spawn, x, y).a != 0;
      && (hidden ==> p == ImagePixels(cat.notShown, x, y))
      && (!hidden && spawn ==> p == ImagePixels(cat.spawn, x, y))
      && (!hidden && !spawn && CursorOver(s, sx, sy) ==>
            p == ImagePixels(Pattern(cat, s.chunkType), x, y).(a := SELECT_ALPHA))
      && (!hidden && !spawn && !CursorOver(s, sx, sy) ==>
            p == ImagePixels(Pattern(cat, s.chunks[s.chunkMode][y / CHUNK_SIZE][x / CHUNK_SIZE]), x, y))
  {
    CellInRange(s.offset, sx, sy);
  }

  /**
   * The preview is drawn on exactly the cell `imprint` would paint: where the
   * cursor covers a screen pixel, the target cell is that pixel's world tile.
   */
  lemma PreviewMatchesTarget(s: State, sx: nat, sy: nat)
    requires Inv(s) && sx < WIDTH && sy < HEIGHT
    requires CursorOver(s, sx, sy)
    ensures Target(s.tmpChunk, s.offset) == ((sy + s.offset.0) / CHUNK_SIZE, (sx + s.offset.1) / CHUNK_SIZE)
  {
  }

  /** In the foreground view the background layer plays no part in any pixel. */
  lemma ForegroundViewIgnoresBackground(cat: Catalog, s: State, bg: Layer, sx: nat, sy: nat)
    requires Inv(s) && s.chunkMode == 0 && LayerShaped(bg) && sx < WIDTH && sy < HEIGHT
    ensures PixelAt(cat, s.(chunks := s.chunks[1 := bg]), sx, sy) == PixelAt(cat, s, sx, sy)
  {
  }

  /**
   * With the viewport at the origin, the spawn marker is drawn over the
   * pointer that placed it (where the marker is opaque and not hidden).
   */
  lemma SpawnUnderPointer(s: State, mx: nat, my: nat)
    requires Inv(s) && s.offset == (0, 0) && mx < WIDTH && my < HEIGHT
    ensures SpawnOver(SetSpawn(s, Input(Some((mx, my)), {}, {})), mx, my)
  {
  }

  /**
   * Once the view is scrolled, the marker is not drawn under the pointer that
   * placed it: `set_spawn` stores the screen tile, `draw` compares world tiles.
   */
  lemma SpawnShiftedByScroll(s: State)
    requires Inv(s) && s.offset == (0, CHUNK_SIZE)
    ensures var r := SetSpawn(s, Input(Some((0, 0)), {}, {}));
      !SpawnOver(r, 0 + s.offset.1, 0 + s.offset.0) && SpawnOver(r, 0, 0)
  {
  }
}
