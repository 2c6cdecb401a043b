/** The static maze (src/layout.rs) and the maze size (src/level.rs). */
module Layout {
  import opened Wrappers
  import opened Grid

  const WIDTH_TILES: nat := 28
  const HEIGHT_TILES: nat := 36

  datatype Tile = Wall | Door | Dot | Energizer | PacMan | Blinky | Pinky | Inky | Clyde

  type Byte = b: int | 0 <= b < 256

  /** HEIGHT_TILES rows of WIDTH_TILES optional tiles each. */
  predicate IsGrid(rows: seq<seq<Option<Tile>>>)
  {
    |rows| == HEIGHT_TILES && forall r | 0 <= r < |rows| :: |rows[r]| == WIDTH_TILES
  }

  type Layout = rows: seq<seq<Option<Tile>>> | IsGrid(rows)
    witness seq(HEIGHT_TILES, _ => seq(WIDTH_TILES, _ => None))

  /** The rows the lookup can index; any other row makes `get` panic. */
  predicate InRows(y: int)
  {
    0 <= y < HEIGHT_TILES
  }

  /** All four neighbours of `loc` are on rows the lookup can index. */
  predicate CanProbeAround(loc: GridLocation)
  {
    1 <= loc.y < HEIGHT_TILES - 1
  }

  lemma ProbeAround(loc: GridLocation, d: Dir)
    requires CanProbeAround(loc)
    ensures InRows(Shift(loc, d).y)
  {
  }

  function Min(a: int, b: int): int { if a < b then a else b }
  function Max(a: int, b: int): int { if a < b then b else a }

  /** Tile at a location: x is clamped into the maze, y must be a row. */
  function Get(layout: Layout, loc: GridLocation): (t: Option<Tile>)
    requires InRows(loc.y)
    ensures 0 <= loc.x < WIDTH_TILES ==> t == layout[loc.y][loc.x]
    ensures loc.x < 0 ==> t == layout[loc.y][0]
    ensures loc.x >= WIDTH_TILES ==> t == layout[loc.y][WIDTH_TILES - 1]
  {
    layout[loc.y][Min(Max(loc.x, 0), WIDTH_TILES - 1)]
  }

  /** Only walls block movement. */
  predicate Collides(layout: Layout, loc: GridLocation)
    requires InRows(loc.y)
  {
    Get(layout, loc) == Some(Wall)
  }

  lemma OnlyWallsCollide(layout: Layout, loc: GridLocation)
    requires InRows(loc.y)
    ensures Collides(layout, loc) <==> Get(layout, loc) == Some(Wall)
    ensures Get(layout, loc) in {None, Some(Door), Some(Dot), Some(Energizer), Some(PacMan),
                                 Some(Blinky), Some(Pinky), Some(Inky), Some(Clyde)}
            ==> !Collides(layout, loc)
  {
  }

  /** Column clamping: every x left of the maze reads column 0 and every x right of it column 27. */
  lemma GetClampsColumns(layout: Layout, x: int, y: int)
    requires InRows(y)
    ensures Get(layout, GridLocation(x, y)) ==
            Get(layout, GridLocation(if x < 0 then 0 else if x >= WIDTH_TILES then WIDTH_TILES - 1 else x, y))
  {
  }

  // ---------------------------------------------------------------------------
  // Decoding the level bitmap

  /** Palette index of the level bitmap to tile kind. */
  function DecodeByte(b: Byte): Option<Tile>
  {
    match b
    case 0x01 => Some(Wall)
    case 0x02 => Some(Dot)
    case 0x04 => Some(Energizer)
    case 0x05 => Some(PacMan)
    case 0x06 => Some(Door)
    case 0x07 => Some(Blinky)
    case 0x08 => Some(Pinky)
    case 0x09 => Some(Inky)
    case 0x0A => Some(Clyde)
    case _ => None
  }

  /** The palette index each tile kind is drawn with; the inverse of DecodeByte. */
  function EncodeTile(t: Tile): Byte
  {
    match t
    case Wall => 0x01
    case Dot => 0x02
    case Energizer => 0x04
    case PacMan => 0x05
    case Door => 0x06
    case Blinky => 0x07
    case Pinky => 0x08
    case Inky => 0x09
    case Clyde => 0x0A
  }

  lemma DecodeEncode(t: Tile)
    ensures DecodeByte(EncodeTile(t)) == Some(t)
  {
  }

  /** Every byte that decodes to a tile is that tile's encoding, and the nine
      encodings are the only bytes that decode to a tile. */
  lemma EncodeDecode(b: Byte)
    ensures DecodeByte(b).Some? ==> EncodeTile(DecodeByte(b).value) == b
    ensures DecodeByte(b).None? <==> b !in {0x01, 0x02, 0x04, 0x05, 0x06, 0x07, 0x08, 0x09, 0x0A}
  {
  }

  /** Byte position of the image-data offset in the bitmap header. */
  const OFFSET: nat := 0x0A

  /** Number of image bytes the decoder consumes. */
  const TILE_COUNT: nat := WIDTH_TILES * HEIGHT_TILES

  function LittleEndianU32(b0: Byte, b1: Byte, b2: Byte, b3: Byte): (n: nat)
    ensures n < 0x1_0000_0000
    ensures n % 0x100 == b0
    ensures (n / 0x100) % 0x100 == b1 && (n / 0x1_0000) % 0x100 == b2 && n / 0x100_0000 == b3
  {
    var n := b0 + 0x100 * b1 + 0x1_0000 * b2 + 0x100_0000 * b3;
    assert n == b0 + 0x100 * (b1 + 0x100 * (b2 + 0x100 * b3));
    assert n / 0x100 == b1 + 0x100 * (b2 + 0x100 * b3);
    assert n / 0x1_0000 == b2 + 0x100 * b3;
    assert n / 0x100_0000 == b3;
    n
  }

  /** Start of the image data, read from header bytes 0x0A..0x0D. */
  function DataOffset(bmp: seq<Byte>): nat
    requires |bmp| >= OFFSET + 4
  {
    LittleEndianU32(bmp[OFFSET], bmp[OFFSET + 1], bmp[OFFSET + 2], bmp[OFFSET + 3])
  }

  /** Why decoding panics: the header is too short to hold the offset, the
      offset is past the end, or the image data runs out before the grid is full. */
  datatype LoadError = HeaderTooShort | OffsetOutOfRange | ImageDataTooShort

  /** Row r, column c of the layout comes from image byte r * WIDTH_TILES + c. */
  ghost predicate DecodedFrom(layout: Layout, bmp: seq<Byte>, offset: nat)
    requires offset + TILE_COUNT <= |bmp|
  {
    forall r, c | 0 <= r < HEIGHT_TILES && 0 <= c < WIDTH_TILES ::
      layout[r][c] == DecodeByte(bmp[offset + WIDTH_TILES * r + c])
  }

  /** Row r, column c is image byte number r * WIDTH_TILES + c, inside the grid. */
  lemma PositionInGrid(r: nat, c: nat)
    requires r < HEIGHT_TILES && c < WIDTH_TILES
    ensures WIDTH_TILES * r + c < TILE_COUNT
  {
    assert WIDTH_TILES * r <= WIDTH_TILES * (HEIGHT_TILES - 1);
  }

  /** The two loops of `Layout::load`: fill the rows in order from the image
      data that starts at `offset`, failing when it runs out. */
  method DecodeRows(bmp: seq<Byte>, offset: nat) returns (res: Result<Layout, LoadError>)
    requires offset <= |bmp|
    ensures res.Failure? ==> res.error == ImageDataTooShort
    ensures res.Success? <==> offset + TILE_COUNT <= |bmp|
    ensures res.Success? ==> DecodedFrom(res.value, bmp, offset)
  {
    var pos := offset;
    var rows: seq<seq<Option<Tile>>> := [];
    while |rows| < HEIGHT_TILES
      invariant |rows| <= HEIGHT_TILES
      invariant pos == offset + WIDTH_TILES * |rows|
      invariant forall r | 0 <= r < |rows| :: |rows[r]| == WIDTH_TILES
      invariant pos <= |bmp|
      invariant forall r, c | 0 <= r < |rows| && 0 <= c < WIDTH_TILES ::
                  rows[r][c] == DecodeByte(bmp[offset + WIDTH_TILES * r + c])
    {
      var row: seq<Option<Tile>> := [];
      while |row| < WIDTH_TILES
        invariant |row| <= WIDTH_TILES
        invariant pos == offset + WIDTH_TILES * |rows| + |row|
        invariant pos <= |bmp|
        invariant forall c | 0 <= c < |row| :: row[c] == DecodeByte(bmp[offset + WIDTH_TILES * |rows| + c])
      {
        if pos >= |bmp| {
          PositionInGrid(|rows|, |row|);
          return Failure(ImageDataTooShort);
        }
        row := row + [DecodeByte(bmp[pos])];
        pos := pos + 1;
      }
      rows := rows + [row];
    }
    res := Success(rows);
  }

  /** `Layout::load`: read the offset from the header, then decode the rows. */
  method Load(bmp: seq<Byte>) returns (res: Result<Layout, LoadError>)
    ensures |bmp| < OFFSET + 4 ==> res == Failure(HeaderTooShort)
    ensures |bmp| >= OFFSET + 4 && DataOffset(bmp) > |bmp| ==> res == Failure(OffsetOutOfRange)
    ensures |bmp| >= OFFSET + 4 && DataOffset(bmp) <= |bmp| < DataOffset(bmp) + TILE_COUNT
            ==> res == Failure(ImageDataTooShort)
    ensures res.Success? <==> |bmp| >= OFFSET + 4 && DataOffset(bmp) + TILE_COUNT <= |bmp|
    ensures res.Success? ==> DecodedFrom(res.value, bmp, DataOffset(bmp))
  {
    if |bmp| < OFFSET + 4 {
      return Failure(HeaderTooShort);
    }
    var offset := LittleEndianU32(bmp[OFFSET], bmp[OFFSET + 1], bmp[OFFSET + 2], bmp[OFFSET + 3]);
    if offset > |bmp| {
      return Failure(OffsetOutOfRange);
    }
    res := DecodeRows(bmp, offset);
  }
}
