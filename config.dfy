/**
 * Fixed dimensions of the level editor, the integer helpers the editor's
 * arithmetic relies on, and the input record the event loop hands over.
 */
module Config {
  /** Logical screen size in pixels. */
  const WIDTH: nat := 960
  const HEIGHT: nat := 736
  /** Side of one tile ("chunk") in pixels. */
  const CHUNK_SIZE: nat := 32
  /** Size of the whole world in pixels. */
  const SIM_WIDTH: nat := 1280
  const SIM_HEIGHT: nat := 960

  /** Tile rows and columns of each layer: SIM_HEIGHT / CHUNK_SIZE and SIM_WIDTH / CHUNK_SIZE. */
  const ROWS: nat := 30
  const COLS: nat := 40

  /** Largest viewport offsets: SIM_HEIGHT - HEIGHT and SIM_WIDTH - WIDTH. */
  const MAX_OFFSET_Y: nat := 224
  const MAX_OFFSET_X: nat := 320

  /** A spawn coordinate is a tile index times this factor. */
  const SPAWN_SCALE: nat := 16

  /** The fixed depth written into the spawn record. */
  const DEPTH: nat := 750

  lemma DerivedConstants()
    ensures ROWS == SIM_HEIGHT / CHUNK_SIZE && COLS == SIM_WIDTH / CHUNK_SIZE
    ensures MAX_OFFSET_Y == SIM_HEIGHT - HEIGHT && MAX_OFFSET_X == SIM_WIDTH - WIDTH
  {
  }

  /** `Ord::clamp`: the value pulled into [lo, hi]. */
  function Clamp(v: int, lo: int, hi: int): (r: int)
    requires lo <= hi
    ensures lo <= r <= hi
    ensures lo <= v <= hi ==> r == v
    ensures v < lo ==> r == lo
    ensures hi < v ==> r == hi
  {
    if v < lo then lo else if hi < v then hi else v
  }

  function Min(a: int, b: int): (m: int) { if a <= b then a else b }
  function Max(a: int, b: int): (m: int) { if a <= b then b else a }

  datatype Option<T> = None | Some(value: T)
}

/** What the input helper reports for one update of the event loop. */
module Events {
  import opened Config

  /** The keys the editor looks at. */
  datatype Key =
    | Key0 | Key1 | Key2 | Key3 | Key4 | Key5 | Key6 | Key7 | Key8 | Key9
    | Left | Up | Right | Down | Return | Escape

  /**
   * The pointer position in screen pixels as (x, y), when the helper has
   * one; the keys held down; the keys pressed since the previous update.
   */
  datatype Input = Input(mouse: Option<(nat, nat)>, held: set<Key>, pressed: set<Key>)

  /** The number-row key for digit d. */
  function DigitKey(d: nat): Key
    requires d <= 9
  {
    match d
    case 0 => Key0
    case 1 => Key1
    case 2 => Key2
    case 3 => Key3
    case 4 => Key4
    case 5 => Key5
    case 6 => Key6
    case 7 => Key7
    case 8 => Key8
    case _ => Key9
  }
}
