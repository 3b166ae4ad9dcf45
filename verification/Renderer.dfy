/**
 What a frame should look like, pixel by pixel: the first sprite that shows, else the window, else
 the background, else white.
 */
module Renderer {

  /** The registers and memory a frame is drawn from. */
  datatype Source = Source(
    lcdc: bv8, scy: bv8, scx: bv8, bgp: bv8, obp0: bv8, obp1: bv8, wy: bv8, wx: bv8,
    vram: seq<bv8>, oam: seq<bv8>)

  type View = s: Source | |s.vram| == 0x2000 && |s.oam| == 0xA0
    witness Source(0, 0, 0, 0, 0, 0, 0, 0, seq(0x2000, _ => 0), seq(0xA0, _ => 0))

  type Color = c: nat | c < 4

  const WHITE: bv8 := 0xFF
  const SPRITES := 40

  predicate LcdOn(v: View) { v.lcdc & 0x80 != 0 }
  predicate BackgroundOn(v: View) { v.lcdc & 0x01 != 0 }
  predicate WindowOn(v: View) { v.lcdc & 0x20 != 0 }
  predicate SpritesOn(v: View) { v.lcdc & 0x02 != 0 }

  // ----- Palettes and tiles -----

  function Shade(index: bv8): bv8 {
    if index == 0 then 0xFF else if index == 1 then 0xAA else if index == 2 then 0x55 else 0x00
  }

  function Palette(p: bv8, color: Color): bv8 {
    Shade(if color == 0 then p & 0x03 else if color == 1 then (p >> 2) & 0x03
          else if color == 2 then (p >> 4) & 0x03 else (p >> 6) & 0x03)
  }

  /** A byte of video memory by its bus address. */
  function Vram(v: View, addr: nat): bv8
    requires 0x8000 <= addr < 0xA000
  {
    v.vram[addr - 0x8000]
  }

  predicate Bit(value: bv8, at: nat)
    requires at < 8
  {
    value & (if at == 0 then 0x01 else if at == 1 then 0x02 else if at == 2 then 0x04 else if at == 3 then 0x08
             else if at == 4 then 0x10 else if at == 5 then 0x20 else if at == 6 then 0x40 else 0x80) != 0
  }

  /** The color at bit `at` of the tile row whose two bytes start at `addr`. */
  function RowColor(v: View, addr: nat, at: nat): Color
    requires 0x8000 <= addr < 0x9FFF && at < 8
  {
    (if Bit(Vram(v, addr + 1), at) then 2 else 0) + (if Bit(Vram(v, addr), at) then 1 else 0)
  }

  function Signed(id: bv8): int {
    if (id as int) < 0x80 then id as int else id as int - 0x100
  }

  /** Where row `row` of tile `id` starts, under the addressing mode in force. */
  function TileRow(v: View, id: bv8, row: nat): (addr: nat)
    requires row < 8
    ensures 0x8000 <= addr < 0x9FFF
  {
    (if v.lcdc & 0x10 != 0 then 0x8000 + id as int * 16 else 0x9000 + Signed(id) * 16) + row * 2
  }

  /** The color at (`x`, `y`) of the 256 by 256 plane of the map at `base`. */
  function PlaneColor(v: View, base: nat, x: nat, y: nat): Color
    requires base == 0x9800 || base == 0x9C00
    requires y < 0x100
  {
    var id := Vram(v, base + y / 8 * 32 + x / 8 % 32);
    RowColor(v, TileRow(v, id, y % 8), 7 - x % 8)
  }

  // ----- Background and window -----

  function BackgroundMap(v: View): (base: nat)
    ensures base == 0x9800 || base == 0x9C00
  {
    if v.lcdc & 0x08 != 0 then 0x9C00 else 0x9800
  }

  function WindowMap(v: View): (base: nat)
    ensures base == 0x9800 || base == 0x9C00
  {
    if v.lcdc & 0x40 != 0 then 0x9C00 else 0x9800
  }

  function BackgroundColor(v: View, x: nat, y: nat): Color {
    PlaneColor(v, BackgroundMap(v), (v.scx as nat + x) % 0x100, (v.scy as nat + y) % 0x100)
  }

  /** A column as the sixteen-bit signed number the window comparison uses. */
  function Column(x: nat): int {
    var low := x % 0x1_0000;
    if low < 0x8000 then low else low - 0x1_0000
  }

  function WindowLeft(v: View): int {
    v.wx as int - 7
  }

  predicate WindowCovers(v: View, x: nat, y: nat) {
    y % 0x100 >= v.wy as nat && Column(x) >= WindowLeft(v)
  }

  function WindowColor(v: View, x: nat, y: nat): Color
    requires WindowCovers(v, x, y)
  {
    PlaneColor(v, WindowMap(v), Column(x) - WindowLeft(v), y % 0x100 - v.wy as nat)
  }

  /** The color index below the sprites; sprites ask whether it is zero. */
  function LayerColor(v: View, x: nat, y: nat): Color {
    if WindowOn(v) && WindowCovers(v, x, y) then WindowColor(v, x, y)
    else if BackgroundOn(v) then BackgroundColor(v, x, y)
    else 0
  }

  function LayerShade(v: View, x: nat, y: nat): bv8 {
    if (WindowOn(v) && WindowCovers(v, x, y)) || BackgroundOn(v) then Palette(v.bgp, LayerColor(v, x, y)) else WHITE
  }

  // ----- Sprites -----

  function SpriteHeight(v: View): (h: nat)
    ensures h == 8 || h == 16
  {
    if v.lcdc & 0x04 != 0 then 16 else 8
  }

  function Attributes(v: View, k: nat): bv8
    requires k < SPRITES
  {
    v.oam[k * 4 + 3]
  }

  /** Rows and columns are counted from the sprite's corner, around the edge of the byte. */
  function SpriteRow(v: View, k: nat, y: nat): (row: nat)
    requires k < SPRITES
    ensures row < 0x100
  {
    (y + 0x100 + 16 - v.oam[k * 4] as nat) % 0x100
  }

  function SpriteColumn(v: View, k: nat, x: nat): (column: nat)
    requires k < SPRITES
    ensures column < 0x100
  {
    (x + 0x100 + 8 - v.oam[k * 4 + 1] as nat) % 0x100
  }

  function EvenId(id: bv8): (n: nat)
    ensures n < 0x100
  {
    (id & 0xFE) as nat
  }

  function TallOffset(row: nat): (n: nat)
    requires row < 16
    ensures n <= 46
  {
    row % 8 * 2 + row / 8 * 32
  }

  /** Where the bytes of a sprite's row start. The lower half of a tall sprite is taken 32 bytes on. */
  function SpriteBytes(v: View, k: nat, row: nat): (addr: nat)
    requires k < SPRITES && row < SpriteHeight(v)
    ensures 0x8000 <= addr < 0x9FFF
  {
    var id := v.oam[k * 4 + 2];
    var effective := if Attributes(v, k) & 0x40 != 0 then SpriteHeight(v) - 1 - row else row;
    if SpriteHeight(v) == 16 then
      0x8000 + EvenId(id) * 16 + TallOffset(effective)
    else 0x8000 + id as nat * 16 + effective * 2
  }

  /** The color of a sprite at a row and column of its own. */
  function SpriteColor(v: View, k: nat, row: nat, column: nat): Color
    requires k < SPRITES && row < SpriteHeight(v) && column < 8
  {
    RowColor(v, SpriteBytes(v, k, row), if Attributes(v, k) & 0x20 != 0 then column else 7 - column)
  }

  predicate BehindBackground(v: View, k: nat)
    requires k < SPRITES
  {
    Attributes(v, k) & 0x80 != 0
  }

  /** Sprite `k` shows at (`x`, `y`): it covers the pixel, is not transparent there and does not
      yield to the layers below. Sprites reach only the first 256 rows and columns. */
  predicate Shows(v: View, k: nat, x: nat, y: nat, below: Color)
    requires k < SPRITES
  {
    && x < 0x100 && y < 0x100
    && SpriteRow(v, k, y) < SpriteHeight(v) && SpriteColumn(v, k, x) < 8
    && SpriteColor(v, k, SpriteRow(v, k, y), SpriteColumn(v, k, x)) != 0
    && !(BehindBackground(v, k) && below != 0)
  }

  function SpriteShade(v: View, k: nat, x: nat, y: nat): bv8
    requires k < SPRITES && SpriteRow(v, k, y) < SpriteHeight(v) && SpriteColumn(v, k, x) < 8
  {
    Palette(if Attributes(v, k) & 0x10 != 0 then v.obp1 else v.obp0,
            SpriteColor(v, k, SpriteRow(v, k, y), SpriteColumn(v, k, x)))
  }

  /** The pixel with sprites `k` and up drawn over the layers. */
  function Over(v: View, k: nat, x: nat, y: nat): bv8
    requires k <= SPRITES
    decreases SPRITES - k
  {
    if k == SPRITES then LayerShade(v, x, y)
    else if Shows(v, k, x, y, LayerColor(v, x, y)) then SpriteShade(v, k, x, y)
    else Over(v, k + 1, x, y)
  }

  /** The finished pixel. */
  function Pixel(v: View, x: nat, y: nat): bv8 {
    if !LcdOn(v) then WHITE
    else if SpritesOn(v) then Over(v, 0, x, y)
    else LayerShade(v, x, y)
  }

  /** Sprite `i` is the first from `k` on that shows. */
  ghost predicate First(v: View, k: nat, i: nat, x: nat, y: nat)
    requires i < SPRITES
  {
    && k <= i && Shows(v, i, x, y, LayerColor(v, x, y))
    && forall j :: k <= j < i ==> !Shows(v, j, x, y, LayerColor(v, x, y))
  }

  /** The lowest-numbered sprite that shows decides the pixel. */
  lemma {:induction false} FirstSpriteWins(v: View, k: nat, i: nat, x: nat, y: nat)
    requires k <= i < SPRITES && First(v, k, i, x, y)
    ensures Over(v, k, x, y) == SpriteShade(v, i, x, y)
    decreases i - k
  {
    hide LayerColor, SpriteShade, SpriteColor;
    if k < i { FirstSpriteWins(v, k + 1, i, x, y); }
  }

  /** Where no sprite shows, the layers do. */
  lemma {:induction false} NoSpriteShows(v: View, k: nat, x: nat, y: nat)
    requires k <= SPRITES
    requires forall j :: k <= j < SPRITES ==> !Shows(v, j, x, y, LayerColor(v, x, y))
    ensures Over(v, k, x, y) == LayerShade(v, x, y)
    decreases SPRITES - k
  {
    hide LayerColor, LayerShade, Shows;
    if k < SPRITES { NoSpriteShows(v, k + 1, x, y); }
  }
}
