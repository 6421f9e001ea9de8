/**
 * The three texts `save` writes: map.txt (the foreground), map_bg.txt (the
 * background with occluded cells written as 0) and map.json (the spawn).
 * Each layer is ROWS lines of COLS digit characters, every line ending in a
 * newline.
 */
module Serializer {
  import opened Config
  import opened Tiles
  import opened Events
  import opened Editor

  /** Characters per saved line: COLS digits and the newline. */
  const LINE: nat := 41

  predicate RowsOfWidth(l: Layer) {
    forall y | 0 <= y < |l| :: |l[y]| == COLS
  }

  /** The digits of one row, left to right. */
  function RowText(row: seq<ChunkType>): (t: string)
    ensures |t| == |row|
  {
    if row == [] then [] else RowText(row[..|row| - 1]) + [DigitChar(row[|row| - 1])]
  }

  /** The rows of a layer top to bottom, each followed by a newline. */
  function LayerText(l: Layer): (t: string)
    requires RowsOfWidth(l)
    ensures |t| == |l| * LINE
  {
    if l == [] then [] else LayerText(l[..|l| - 1]) + RowText(l[|l| - 1]) + "\n"
  }

  lemma {:induction false} RowTextAt(row: seq<ChunkType>, x: nat)
    requires x < |row|
    ensures RowText(row)[x] == DigitChar(row[x])
  {
    if x < |row| - 1 {
      RowTextAt(row[..|row| - 1], x);
    }
  }

  /** Character x of line y is the code of cell (y, x), and character COLS ends the line. */
  lemma {:induction false} LayerTextAt(l: Layer, y: nat, x: nat)
    requires RowsOfWidth(l) && y < |l| && x <= COLS
    ensures LayerText(l)[y * LINE + x] == if x == COLS then '\n' else DigitChar(l[y][x])
  {
    var n := |l| - 1;
    var front := LayerText(l[..n]);
    assert LayerText(l) == front + RowText(l[n]) + "\n";
    if y < n {
      LayerTextAt(l[..n], y, x);
      assert y * LINE + x < |front|;
    } else {
      assert y * LINE == |front|;
      if x < COLS {
        RowTextAt(l[n], x);
      }
    }
  }

  /** The background as saved: Air wherever the foreground tile is solid. */
  function MaskedBackground(g: Grid): (l: Layer)
    requires WellFormed(g)
    ensures LayerShaped(l)
  {
    seq(ROWS, y requires 0 <= y < ROWS =>
      seq(COLS, x requires 0 <= x < COLS => if Occludes(g, x, y) then Air else g[1][y][x]))
  }

  /** Every character of a saved layer: line i / LINE, column i % LINE. */
  lemma LayerTextIndex(l: Layer)
    requires LayerShaped(l)
    ensures forall i | 0 <= i < ROWS * LINE ::
      LayerText(l)[i] == if i % LINE == COLS then '\n' else DigitChar(l[i / LINE][i % LINE])
  {
    forall i | 0 <= i < ROWS * LINE
      ensures LayerText(l)[i] == if i % LINE == COLS then '\n' else DigitChar(l[i / LINE][i % LINE])
    {
      var y, x := i / LINE, i % LINE;
      assert i == y * LINE + x;
      LayerTextAt(l, y, x);
    }
  }

  /** The text of map.txt: ROWS lines of COLS foreground digits. */
  function ForegroundText(g: Grid): (t: string)
    requires WellFormed(g)
    ensures |t| == ROWS * LINE
    ensures forall i | 0 <= i < |t| ::
      t[i] == if i % LINE == COLS then '\n' else DigitChar(g[0][i / LINE][i % LINE])
  {
    LayerTextIndex(g[0]);
    LayerText(g[0])
  }

  /** The text of map_bg.txt: ROWS lines of COLS background digits, '0' under solid foreground tiles. */
  function BackgroundText(g: Grid): (t: string)
    requires WellFormed(g)
    ensures |t| == ROWS * LINE
    ensures forall i | 0 <= i < |t| ::
      t[i] == if i % LINE == COLS then '\n'
        else if Occludes(g, i % LINE, i / LINE) then '0'
        else DigitChar(g[1][i / LINE][i % LINE])
  {
    LayerTextIndex(MaskedBackground(g));
    LayerText(MaskedBackground(g))
  }

  /** The background file holds 0 under every solid foreground tile and the stored code elsewhere. */
  lemma BackgroundTextAt(g: Grid, y: nat, x: nat)
    requires WellFormed(g) && y < ROWS && x < COLS
    ensures BackgroundText(g)[y * LINE + x] == if Occludes(g, x, y) then '0' else DigitChar(g[1][y][x])
  {
    LayerTextAt(MaskedBackground(g), y, x);
  }

  /** Reads a saved layer back, one digit per cell. */
  function ParseLayer(text: string): (l: Layer)
    requires |text| >= ROWS * LINE
    ensures LayerShaped(l)
  {
    seq(ROWS, y requires 0 <= y < ROWS =>
      seq(COLS, x requires 0 <= x < COLS => DecodeDigit(text[y * LINE + x])))
  }

  /** Reading a saved layer gives the layer back. */
  lemma LayerRoundTrip(l: Layer)
    requires LayerShaped(l)
    ensures ParseLayer(LayerText(l)) == l
  {
    var p := ParseLayer(LayerText(l));
    forall y, x | 0 <= y < ROWS && 0 <= x < COLS
      ensures p[y][x] == l[y][x]
    {
      LayerTextAt(l, y, x);
      DigitRoundTrip(l[y][x]);
    }
    forall y | 0 <= y < ROWS
      ensures p[y] == l[y]
    {
    }
  }

  /**
   * Reading map_bg.txt back gives the background with Air under every solid
   * foreground tile: the saved background never contradicts the foreground.
   */
  lemma SavedBackground(g: Grid)
    requires WellFormed(g)
    ensures forall y, x | 0 <= y < ROWS && 0 <= x < COLS ::
      ParseLayer(BackgroundText(g))[y][x] == if Occludes(g, x, y) then Air else g[1][y][x]
  {
    LayerRoundTrip(MaskedBackground(g));
  }

  predicate IsDigits(s: string) {
    forall i | 0 <= i < |s| :: '0' <= s[i] <= '9'
  }

  function DigitOf(d: nat): char
    requires d < 10
  {
    (('0' as int) + d) as char
  }

  /** `{}` of an unsigned integer: decimal digits without leading zeros. */
  function DecimalText(n: nat): (s: string)
    ensures |s| >= 1 && IsDigits(s)
    ensures s[0] == '0' ==> n == 0
  {
    if n < 10 then [DigitOf(n)] else DecimalText(n / 10) + [DigitOf(n % 10)]
  }

  function ParseDecimal(s: string): (n: nat)
    requires IsDigits(s)
  {
    if s == [] then 0 else ParseDecimal(s[..|s| - 1]) * 10 + (s[|s| - 1] as int - '0' as int)
  }

  lemma {:induction false} DecimalRoundTrip(n: nat)
    ensures ParseDecimal(DecimalText(n)) == n
  {
    if n >= 10 {
      var s := DecimalText(n);
      assert s[..|s| - 1] == DecimalText(n / 10);
      DecimalRoundTrip(n / 10);
    }
  }

  const JSON_HEAD := "{\n\t\"x\": "
  const JSON_MID := ",\n\t\"y\": "
  const JSON_TAIL := ",\n\t\"depth\": 750\n}\n"

  /** map.json line by line: the field texts sit between the same fixed pieces. */
  lemma JsonLines(xs: string, ys: string)
    ensures "{\n" + "\t\"x\": " + xs + ",\n" + "\t\"y\": " + ys + ",\n" + "\t\"depth\": 750\n" + "}\n"
         == JSON_HEAD + xs + JSON_MID + ys + JSON_TAIL
  {
  }

  /** The text of map.json: x is the spawn's column, y its row, depth the constant 750. */
  function SpawnJson(spawn: (nat, nat)): (text: string)
    ensures ReadSpawnJson(text) == Some(spawn)
  {
    ReadJsonOf(spawn);
    JSON_HEAD + DecimalText(spawn.1) + JSON_MID + DecimalText(spawn.0) + JSON_TAIL
  }

  /** `write!("{}", t as u8)` writes the single character DigitChar(t). */
  lemma CodeIsOneDigit(t: ChunkType)
    ensures DecimalText(Code(t)) == [DigitChar(t)]
  {
  }

  /** The longest run of digits at the start of s. */
  function DigitPrefix(s: string): (p: string)
    ensures IsDigits(p) && p <= s
  {
    if s != [] && '0' <= s[0] <= '9' then [s[0]] + DigitPrefix(s[1..]) else []
  }

  lemma {:induction false} DigitPrefixOf(d: string, rest: string)
    requires IsDigits(d) && (rest == [] || !('0' <= rest[0] <= '9'))
    ensures DigitPrefix(d + rest) == d
  {
    if d != [] {
      assert (d + rest)[1..] == d[1..] + rest;
      DigitPrefixOf(d[1..], rest);
    } else {
      assert d + rest == rest;
    }
  }

  /** Reads the spawn back from a map.json text, as (row, column). */
  function ReadSpawnJson(text: string): (spawn: Option<(nat, nat)>) {
    if JSON_HEAD <= text then ReadFields(text[|JSON_HEAD|..]) else None
  }

  /** The column digits, then the row digits and the fixed tail. */
  function ReadFields(rest: string): (spawn: Option<(nat, nat)>) {
    var xs := DigitPrefix(rest);
    if xs == [] then None
    else match ReadRow(rest[|xs|..])
      case None => None
      case Some(y) => Some((y, ParseDecimal(xs)))
  }

  function ReadRow(rest: string): (row: Option<nat>) {
    if !(JSON_MID <= rest) then None
    else
      var afterMid := rest[|JSON_MID|..];
      var ys := DigitPrefix(afterMid);
      if ys == [] || afterMid[|ys|..] != JSON_TAIL then None else Some(ParseDecimal(ys))
  }

  lemma ReadRowOf(n: nat)
    ensures ReadRow(JSON_MID + DecimalText(n) + JSON_TAIL) == Some(n)
  {
    var ys := DecimalText(n);
    var rest := JSON_MID + ys + JSON_TAIL;
    assert rest[|JSON_MID|..] == ys + JSON_TAIL;
    DigitPrefixOf(ys, JSON_TAIL);
    assert (ys + JSON_TAIL)[|ys|..] == JSON_TAIL;
    DecimalRoundTrip(n);
  }

  lemma ReadFieldsOf(spawn: (nat, nat))
    ensures ReadFields(DecimalText(spawn.1) + JSON_MID + DecimalText(spawn.0) + JSON_TAIL) == Some(spawn)
  {
    var xs := DecimalText(spawn.1);
    var tail := JSON_MID + DecimalText(spawn.0) + JSON_TAIL;
    assert xs + JSON_MID + DecimalText(spawn.0) + JSON_TAIL == xs + tail;
    DigitPrefixOf(xs, tail);
    assert (xs + tail)[|xs|..] == tail;
    ReadRowOf(spawn.0);
    DecimalRoundTrip(spawn.1);
  }

  lemma ReadJsonOf(spawn: (nat, nat))
    ensures ReadSpawnJson(JSON_HEAD + DecimalText(spawn.1) + JSON_MID + DecimalText(spawn.0) + JSON_TAIL) == Some(spawn)
  {
    var fields := DecimalText(spawn.1) + JSON_MID + DecimalText(spawn.0) + JSON_TAIL;
    assert JSON_HEAD + DecimalText(spawn.1) + JSON_MID + DecimalText(spawn.0) + JSON_TAIL == JSON_HEAD + fields;
    assert (JSON_HEAD + fields)[|JSON_HEAD|..] == fields;
    ReadFieldsOf(spawn);
  }

  /** Reading map.json back gives the spawn that was saved. */
  lemma SpawnJsonRoundTrip(spawn: (nat, nat))
    ensures ReadSpawnJson(SpawnJson(spawn)) == Some(spawn)
  {
  }

  /** The record of a spawn at the origin, character for character. */
  lemma OriginJson()
    ensures SpawnJson((0, 0)) == "{\n\t\"x\": 0,\n\t\"y\": 0,\n\t\"depth\": 750\n}\n"
  {
    var zero := DecimalText(0);
    assert zero == "0";
    calc {
      SpawnJson((0, 0));
      JSON_HEAD + zero + JSON_MID + zero + JSON_TAIL;
      "{\n\t\"x\": 0" + JSON_MID + "0" + JSON_TAIL;
      "{\n\t\"x\": 0,\n\t\"y\": 0" + JSON_TAIL;
      "{\n\t\"x\": 0,\n\t\"y\": 0,\n\t\"depth\": 750\n}\n";
    }
  }

  /**
   * Saving a new world gives two layers of ROWS lines of COLS zeros and the
   * record with x and y 0.
   */
  lemma EmptyExport()
    ensures var g := New().chunks;
      && |ForegroundText(g)| == |BackgroundText(g)| == ROWS * LINE
      && (forall i | 0 <= i < ROWS * LINE ::
            ForegroundText(g)[i] == BackgroundText(g)[i] == if i % LINE == COLS then '\n' else '0')
      && SpawnJson(New().spawnChunk) == "{\n\t\"x\": 0,\n\t\"y\": 0,\n\t\"depth\": 750\n}\n"
  {
    OriginJson();
  }

  /**
   * Stone painted at foreground cell (5, 5) is saved as '6' on line 6,
   * column 6; painting Dirt into the background there afterwards is refused,
   * and the background file keeps '0' there.
   */
  lemma StoneScenario()
    ensures var s1 := SetChunkType(New(), Input(None, {}, {Key6}));
      var s2 := Update(s1, Input(Some((5 * CHUNK_SIZE, 5 * CHUNK_SIZE)), {}, {}));
      var s3 := Imprint(s2);
      var s4 := Imprint(SetChunkType(SetChunkMode(s3), Input(None, {}, {Key1})));
      && ForegroundText(s3.chunks)[5 * LINE + 5] == '6'
      && (forall i | 0 <= i < ROWS * LINE && i % LINE != COLS && i != 5 * LINE + 5 ::
            ForegroundText(s3.chunks)[i] == '0')
      && s4.chunks == s3.chunks
      && BackgroundText(s4.chunks)[5 * LINE + 5] == '0'
  {
    var s1 := SetChunkType(New(), Input(None, {}, {Key6}));
    assert s1.chunkType == Stone;
    var s2 := Update(s1, Input(Some((5 * CHUNK_SIZE, 5 * CHUNK_SIZE)), {}, {}));
    assert Target(s2.tmpChunk, s2.offset) == (5, 5);
    var s3 := Imprint(s2);
    assert s3.chunks[0][5][5] == Stone;
    forall i | 0 <= i < ROWS * LINE && i % LINE != COLS && i != 5 * LINE + 5
      ensures ForegroundText(s3.chunks)[i] == '0'
    {
      assert (i / LINE, i % LINE) != (5, 5);
    }
    var s4 := Imprint(SetChunkType(SetChunkMode(s3), Input(None, {}, {Key1})));
    assert Occludes(s3.chunks, 5, 5);
    BackgroundTextAt(s4.chunks, 5, 5);
  }
}
