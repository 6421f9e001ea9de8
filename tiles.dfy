/** The tile kinds of the editor and their one-digit storage codes. */
module Tiles {
  type byte = b: int | 0 <= b < 0x100

  datatype ChunkType =
    Air | Dirt | Grass | CheckPoint | Spikes | TallGrass | Stone | Planks | CrackedStone

  /** The discriminant `t as u8`: declaration order, Air = 0 up to CrackedStone = 8. */
  function Code(t: ChunkType): (n: byte)
    ensures n <= 8
    ensures n == 0 <==> t == Air
  {
    match t
    case Air => 0
    case Dirt => 1
    case Grass => 2
    case CheckPoint => 3
    case Spikes => 4
    case TallGrass => 5
    case Stone => 6
    case Planks => 7
    case CrackedStone => 8
  }

  /** `ChunkType::from(n)`: the codes 1 to 8 name a tile, every other byte is Air. */
  function FromByte(n: byte): (t: ChunkType)
    ensures 1 <= n <= 8 ==> Code(t) == n
    ensures (n == 0 || 8 < n) ==> t == Air
  {
    match n
    case 1 => Dirt
    case 2 => Grass
    case 3 => CheckPoint
    case 4 => Spikes
    case 5 => TallGrass
    case 6 => Stone
    case 7 => Planks
    case 8 => CrackedStone
    case _ => Air
  }

  /** Decoding the code a tile is saved under gives that tile back. */
  lemma DecodeEncode(t: ChunkType)
    ensures FromByte(Code(t)) == t
  {
  }

  /** On the codes 0 to 8 decoding is a bijection onto the tiles. */
  lemma EncodeDecode(n: byte)
    requires n <= 8
    ensures Code(FromByte(n)) == n
  {
  }

  /**
   * A solid foreground tile: everything except Air, CheckPoint, Spikes and
   * TallGrass, which let the background be painted and seen beneath them.
   */
  predicate Occluding(t: ChunkType): (solid: bool)
    ensures solid <==> Code(t) in {1, 2, 6, 7, 8}
  {
    t != Air && t != CheckPoint && t != Spikes && t != TallGrass
  }

  /** The character `write!("{}", t as u8)` produces. */
  function DigitChar(t: ChunkType): (c: char)
    ensures '0' <= c <= '8'
    ensures c == '0' <==> t == Air
  {
    (('0' as int) + Code(t)) as char
  }

  /** Reads a saved digit back; anything that is not a digit is Air. */
  function DecodeDigit(c: char): (t: ChunkType) {
    if '0' <= c <= '9' then FromByte(c as int - '0' as int) else Air
  }

  lemma DigitRoundTrip(t: ChunkType)
    ensures DecodeDigit(DigitChar(t)) == t
  {
    DecodeEncode(t);
  }
}
