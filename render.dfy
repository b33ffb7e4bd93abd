/**
 * What `renderFrame` draws at one pixel: the shade (0 lightest to 3
 * darkest) that picks one of the four colours of the frame. The
 * background or window gives a colour index through the tile map and the
 * tile data; the first sprite in OAM order that covers the pixel with a
 * non-transparent colour replaces it, unless its priority bit puts it
 * behind a non-zero background colour.
 */
module Rendering {
  import opened Bits
  import opened VideoSpec

  const BGP := 0xFF47
  const OBP0 := 0xFF48
  const OBP1 := 0xFF49
  const WY := 0xFF4A
  const WX := 0xFF4B
  const OAM := 0xFE00

  const WIDTH := 160
  const HEIGHT := 144

  /** The number of sprites in OAM. */
  const SPRITES := 40

  /** The whole 64 KiB address space as the memory unit stores it. */
  type Memory = m: seq<byte> | |m| == 0x10000 witness seq(0x10000, _ => 0)

  /** The tile index read as a two's-complement byte, for the signed tile data area. */
  function Signed(index: byte): (n: int)
    ensures -128 <= n < 128
    ensures index < 0x80 ==> n == index as int
    ensures index >= 0x80 ==> n == index as int - 256
  {
    if index < 0x80 then index as int else index as int - 256
  }

  /**
   * The first byte of a background or window tile: LCDC bit 4 selects
   * unsigned indices from 0x8000, otherwise signed indices around 0x9000.
   */
  function TileDataAddress(lcdc: byte, index: byte): (a: int)
    ensures lcdc & 0x10 != 0 ==> a == 0x8000 + 16 * index as int
    ensures lcdc & 0x10 == 0 ==> a == 0x9000 + 16 * Signed(index)
    ensures 0x8000 <= a && a + 15 < 0x9800 && a % 16 == 0
  {
    if lcdc & 0x10 != 0 then 0x8000 + 16 * index as int else 0x9000 + 16 * Signed(index)
  }

  /** The 2-bit colour of a tile pixel: bit `bit` of the second byte, then of the first. */
  function ColorIndex(low: byte, high: byte, bit: BitIndex): (c: int)
    ensures 0 <= c <= 3
    ensures c == 0 <==> !TestBit(low, bit) && !TestBit(high, bit)
    ensures (c >= 2) == TestBit(high, bit) && (c % 2 == 1) == TestBit(low, bit)
  {
    (if TestBit(high, bit) then 2 else 0) + (if TestBit(low, bit) then 1 else 0)
  }

  /** `(palette >> (index * 2)) & 3`: the shade a palette register gives a colour index. */
  function Shade(palette: byte, index: int): (s: int)
    requires 0 <= index <= 3
    ensures 0 <= s <= 3
  {
    var field := if index == 0 then palette else if index == 1 then palette >> 2
                 else if index == 2 then palette >> 4 else palette >> 6;
    (field & 3) as int
  }

  /** Whether pixel (x, y) shows the window: LCDC bit 5, at or below WY, at or right of WX - 7. */
  predicate UsesWindow(m: Memory, y: byte, x: byte)
  {
    m[LCDC] & 0x20 != 0 && y >= m[WY] && x as int >= m[WX] as int - 7
  }

  /**
   * The background or window colour index of pixel (x, y), with the
   * scroll values sampled for line y. The 8-bit arithmetic wraps the way
   * `& 0xFF` does.
   */
  function BackgroundIndex(m: Memory, scx: byte, scy: byte, y: byte, x: byte): (c: int)
    ensures 0 <= c <= 3
  {
    var lcdc := m[LCDC];
    var window := UsesWindow(m, y, x);
    var worldX := if window then x - (m[WX] - 7) else x + scx;
    var worldY := if window then y - m[WY] else y + scy;
    var highMap := if window then lcdc & 0x40 != 0 else lcdc & 0x08 != 0;
    var mapBase := if highMap then 0x9C00 else 0x9800;
    var index := m[mapBase + 32 * (worldY >> 3) as int + (worldX >> 3) as int];
    var address := TileDataAddress(lcdc, index) + 2 * (worldY & 7) as int;
    ColorIndex(m[address], m[address + 1], 7 - (worldX & 7) as int)
  }

  /** The sprite height LCDC bit 2 selects. */
  function SpriteHeight(lcdc: byte): (n: int)
    ensures n == 8 || n == 16
  {
    if lcdc & 0x04 != 0 then 16 else 8
  }

  /** The attribute byte of sprite `i`. */
  function Attributes(m: Memory, i: int): byte
    requires 0 <= i < SPRITES
  {
    m[OAM + 4 * i + 3]
  }

  /** The tile number sprite `i` draws from: in 8x16 mode the low bit is ignored. */
  function SpriteTile(m: Memory, height: int, i: int): (t: byte)
    requires 0 <= i < SPRITES
    ensures height == 16 ==> t & 1 == 0
  {
    var tile := m[OAM + 4 * i + 2];
    if height == 16 then tile & 0xFE else tile
  }

  /** Whether sprite `i` covers pixel (x, y): OAM Y and X are the position plus 16 and plus 8. */
  predicate Covers(m: Memory, height: int, i: int, y: byte, x: byte)
    requires 0 <= i < SPRITES
  {
    var top := m[OAM + 4 * i] as int - 16;
    var left := m[OAM + 4 * i + 1] as int - 8;
    top <= y as int < top + height && left <= x as int < left + 8
  }

  /**
   * The colour index sprite `i` gives pixel (x, y), 0 where it does not
   * cover it; attribute bits 6 and 5 flip it vertically and horizontally.
   */
  function SpriteColor(m: Memory, height: int, i: int, y: byte, x: byte): (c: int)
    requires 0 <= i < SPRITES && (height == 8 || height == 16)
    ensures 0 <= c <= 3
    ensures !Covers(m, height, i, y, x) ==> c == 0
  {
    if !Covers(m, height, i, y, x) then 0
    else
      var top := m[OAM + 4 * i] as int - 16;
      var left := m[OAM + 4 * i + 1] as int - 8;
      var attributes := Attributes(m, i);
      var row := if attributes & 0x40 != 0 then height - 1 - (y as int - top) else y as int - top;
      var column := if attributes & 0x20 != 0 then 7 - (x as int - left) else x as int - left;
      var address := 0x8000 + 16 * (SpriteTile(m, height, i) as int + row / 8) + 2 * (row % 8);
      ColorIndex(m[address], m[address + 1], 7 - column)
  }

  /** The shade the sprite palette selected by attribute bit 4 gives a colour index. */
  function SpriteShade(m: Memory, i: int, c: int): (s: int)
    requires 0 <= i < SPRITES && 0 <= c <= 3
    ensures 0 <= s <= 3
  {
    Shade(if Attributes(m, i) & 0x10 != 0 then m[OBP1] else m[OBP0], c)
  }

  /**
   * The sprite loop from sprite `i` on: `Some(shade)` when a sprite's
   * colour is drawn, `None` when the background colour stays (no sprite
   * hit, or the first hit is behind a non-zero background).
   */
  function SpriteScan(m: Memory, height: int, y: byte, x: byte, background: int, i: int): (r: Option<int>)
    requires 0 <= i <= SPRITES && (height == 8 || height == 16)
    ensures r.Some? ==> 0 <= r.value <= 3
    decreases SPRITES - i
  {
    if i == SPRITES then None
    else
      var c := SpriteColor(m, height, i, y, x);
      if c == 0 then SpriteScan(m, height, y, x, background, i + 1)
      else if Attributes(m, i) & 0x80 != 0 && background != 0 then None
      else Some(SpriteShade(m, i, c))
  }

  /** The shade of pixel (x, y) of the frame, with the scroll values sampled for line y. */
  function PixelShade(m: Memory, scx: byte, scy: byte, y: byte, x: byte): (s: int)
    ensures 0 <= s <= 3
  {
    var background := BackgroundIndex(m, scx, scy, y, x);
    var sprite := if m[LCDC] & 0x02 != 0 then SpriteScan(m, SpriteHeight(m[LCDC]), y, x, background, 0) else None;
    match sprite
    case Some(s) => s
    case None => Shade(m[BGP], background)
  }

  /** The shades of the first `n` pixels of row `y`, left to right. */
  function RowShades(m: Memory, scx: byte, scy: byte, y: byte, n: int): (row: seq<int>)
    requires 0 <= n <= WIDTH
    ensures |row| == n
  {
    if n == 0 then [] else RowShades(m, scx, scy, y, n - 1) + [PixelShade(m, scx, scy, y, (n - 1) as byte)]
  }

  /** Entry `x` of a row is the shade of pixel (x, y). */
  lemma {:induction false} RowShadesAt(m: Memory, scx: byte, scy: byte, y: byte, n: int, x: int)
    requires 0 <= x < n <= WIDTH
    ensures RowShades(m, scx, scy, y, n)[x] == PixelShade(m, scx, scy, y, x as byte)
  {
    if x < n - 1 {
      RowShadesAt(m, scx, scy, y, n - 1, x);
    }
  }

  /**
   * What the canvas shows: white when the last frame was drawn with the
   * LCD off, otherwise the rows of shades of the last frame drawn.
   */
  datatype Picture = Picture(blank: bool, shades: seq<seq<int>>)

  /** The frame `renderFrame` draws from a state: row y uses the scroll values sampled for line y. */
  function Frame(v: Video): (rows: seq<seq<int>>)
    requires v.Valid()
    ensures |rows| == HEIGHT
    ensures forall y :: 0 <= y < HEIGHT ==> rows[y] == RowShades(v.memory, v.scxLine[y], v.scyLine[y], y as byte, WIDTH)
  {
    seq(HEIGHT, y requires 0 <= y < HEIGHT => RowShades(v.memory, v.scxLine[y], v.scyLine[y], y as byte, WIDTH))
  }

  /** `renderFrame` from state `v` over picture `p`: white with the LCD off, the shades kept; otherwise the frame. */
  function Render(v: Video, p: Picture): (q: Picture)
    requires v.Valid()
  {
    if v.memory[LCDC] & 0x80 == 0 then p.(blank := true) else Picture(false, Frame(v))
  }

  /** Whether this pass of the loop of `step` ends line 143, entering VBlank and drawing the frame. */
  predicate EntersVBlank(v: Video)
    requires v.Valid()
  {
    v.mode == 0 && v.Ly() == 143
  }

  /**
   * The picture after the loop of `step` from `v`: a pass that enters
   * VBlank draws the frame from the state that pass leaves; no other pass
   * touches the picture.
   */
  function RunPicture(v: Video, p: Picture): (q: Picture)
    requires v.Valid()
    decreases v.clock
  {
    if v.clock < Budget(v.mode) then p
    else
      var t := Transition(v);
      RunPicture(t, if EntersVBlank(v) then Render(t, p) else p)
  }

  /** The picture after `step(cycles)`: the LCD-off branch draws nothing, otherwise the loop draws. */
  function StepPicture(v: Video, cycles: nat, p: Picture): (q: Picture)
    requires v.Valid()
  {
    if v.memory[LCDC] & 0x80 == 0 then p
    else
      var sampled := SampleCurrentLine(v);
      RunPicture(sampled.(clock := sampled.clock + cycles), p)
  }
}
