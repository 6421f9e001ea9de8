/** Pixel colours and the 32x32 tile patterns the renderer samples. */
module Images {
  import opened Config
  import opened Tiles

  datatype Rgba = Rgba(r: byte, g: byte, b: byte, a: byte)

  const WHITE: Rgba := Rgba(0xff, 0xff, 0xff, 0xff)

  /** Alpha of the translucent preview of the active tile. */
  const SELECT_ALPHA: byte := 0x64

  /** A CHUNK_SIZE x CHUNK_SIZE pattern, indexed [row][column]. */
  type Image = img: seq<seq<Rgba>> | |img| == 32 && forall i | 0 <= i < |img| :: |img[i]| == 32
    witness seq(32, _ => seq(32, _ => Rgba(0xff, 0xff, 0xff, 0xff)))

  /** The pattern `[[WHITE; 32]; 32]` that previews Air. */
  function WhiteImage(): Image {
    seq(32, _ => seq(32, _ => WHITE))
  }

  /**
   * The pattern literals of the images module: one per solid tile kind, the
   * spawn marker and the "not shown" indicator.
   */
  datatype Catalog = Catalog(
    dirt: Image, grass: Image, checkPoint: Image, spikes: Image, tallGrass: Image,
    stone: Image, planks: Image, crackedStone: Image,
    spawn: Image, notShown: Image)

  /** The patterns of the tile kinds Dirt to CrackedStone, in declaration order. */
  function Solid(cat: Catalog): (pats: seq<Image>)
    ensures |pats| == 8
  {
    [cat.dirt, cat.grass, cat.checkPoint, cat.spikes, cat.tallGrass, cat.stone, cat.planks, cat.crackedStone]
  }

  /** The pattern of a tile kind; Air is all white. */
  function Pattern(cat: Catalog, t: ChunkType): (img: Image)
    ensures t == Air ==> forall i, j | 0 <= i < CHUNK_SIZE && 0 <= j < CHUNK_SIZE :: img[i][j] == WHITE
    ensures t != Air ==> img == Solid(cat)[Code(t) - 1]
  {
    match t
    case Air => WhiteImage()
    case Dirt => cat.dirt
    case Grass => cat.grass
    case CheckPoint => cat.checkPoint
    case Spikes => cat.spikes
    case TallGrass => cat.tallGrass
    case Stone => cat.stone
    case Planks => cat.planks
    case CrackedStone => cat.crackedStone
  }

  /** `image_pixels`: the pattern's pixel under world pixel (x, y). */
  function ImagePixels(img: Image, x: nat, y: nat): (p: Rgba)
    ensures x < CHUNK_SIZE && y < CHUNK_SIZE ==> p == img[y][x]
  {
    img[y % CHUNK_SIZE][x % CHUNK_SIZE]
  }

  /** A pattern repeats every tile in both directions. */
  lemma ImagePixelsPeriodic(img: Image, x: nat, y: nat)
    ensures ImagePixels(img, x + CHUNK_SIZE, y) == ImagePixels(img, x, y)
    ensures ImagePixels(img, x, y + CHUNK_SIZE) == ImagePixels(img, x, y)
    ensures ImagePixels(img, x, y) == ImagePixels(img, x % CHUNK_SIZE, y % CHUNK_SIZE)
  {
  }
}
