/**
 A pixel from the bytes: which map cell, tile row, bits and palette bits a background, window or
 sprite pixel comes from, in offsets into video memory and object memory.
 */
module PixelBytes {
  import opened Renderer

  // ----- Reading bits -----

  /** The two bits of column `column` of a row, as a number; columns count from the left. */
  function ColorBits(low: bv8, high: bv8, column: nat): (c: nat)
    requires column < 8
    ensures c < 4
  {
    (if high & (1 << (7 - column)) != 0 then 2 else 0) + (if low & (1 << (7 - column)) != 0 then 1 else 0)
  }

  /** The grey a palette register gives a color: its two bits say how dark. */
  function Grey(palette: bv8, color: nat): bv8
    requires color < 4
  {
    var two := (palette >> (2 * color)) & 3;
    if two == 0 then 0xFF else if two == 1 then 0xAA else if two == 2 then 0x55 else 0x00
  }

  lemma BitsRead(v: View, addr: nat, column: nat)
    requires 0x8000 <= addr < 0x9FFF && column < 8
    ensures RowColor(v, addr, 7 - column)
         == ColorBits(v.vram[addr - 0x8000], v.vram[addr - 0x8000 + 1], column)
  {
    hide Bit;
    BitRead(v.vram[addr - 0x8000], 7 - column);
    BitRead(v.vram[addr - 0x8000 + 1], 7 - column);
  }

  lemma BitRead(b: bv8, at: nat)
    requires at < 8
    ensures Bit(b, at) == (b & (1 << at) != 0)
  {
  }

  lemma GreyIs(p: bv8, color: Color)
    ensures Palette(p, color) == Grey(p, color)
  {
  }

  // ----- Background and window -----

  /** Where a tile row starts in video memory: with LCDC bit 4 set tiles count from its beginning;
      clear, from 0x1000 for ids below 0x80 and from the beginning for the others. */
  function RowStart(lcdc: bv8, id: bv8, row: nat): (start: nat)
    requires row < 8
    ensures start < 0x1FFF
  {
    (if lcdc & 0x10 == 0 && id < 0x80 then 0x1000 else 0) + 16 * id as nat + 2 * row
  }

  lemma RowStartIs(v: View, id: bv8, row: nat)
    requires row < 8
    ensures TileRow(v, id, row) == 0x8000 + RowStart(v.lcdc, id, row)
  {
    assert id < 0x80 <==> id as nat < 0x80;
  }

  /** The color at (`x`, `y`) of the plane whose map starts at offset `cells` of video memory. */
  function Texel(v: View, cells: nat, x: nat, y: nat): (c: nat)
    requires cells == 0x1800 || cells == 0x1C00
    requires y < 0x100
    ensures c < 4
  {
    var id := v.vram[cells + 32 * (y / 8) + x / 8 % 32];
    var start := RowStart(v.lcdc, id, y % 8);
    ColorBits(v.vram[start], v.vram[start + 1], x % 8)
  }

  lemma TexelIs(v: View, base: nat, x: nat, y: nat)
    requires base == 0x9800 || base == 0x9C00
    requires y < 0x100
    ensures PlaneColor(v, base, x, y) == Texel(v, base - 0x8000, x, y)
  {
    hide TileRow, RowColor, RowStart, ColorBits;
    var id := v.vram[base - 0x8000 + 32 * (y / 8) + x / 8 % 32];
    assert Vram(v, base + y / 8 * 32 + x / 8 % 32) == id;
    RowStartIs(v, id, y % 8);
    BitsRead(v, TileRow(v, id, y % 8), x % 8);
  }

  /** A column read as a sixteen-bit signed number. */
  function Signed16(x: nat): int {
    (x + 0x8000) % 0x1_0000 - 0x8000
  }

  lemma ColumnIs(x: nat)
    ensures Renderer.Column(x) == Signed16(x)
  {
  }

  /** The window lies over a pixel: it is switched on, the line has reached WY and the column WX - 7. */
  predicate UnderWindow(v: View, x: nat, y: nat) {
    v.lcdc & 0x20 != 0 && y % 0x100 >= v.wy as nat && Signed16(x) + 7 >= v.wx as int
  }

  /** Where the background's map starts. */
  function BackgroundCells(lcdc: bv8): (cells: nat)
    ensures cells == 0x1800 || cells == 0x1C00
  {
    if lcdc & 0x08 != 0 then 0x1C00 else 0x1800
  }

  /** The color below the sprites: the window's from the corner of the window, else the background's
      from the scroll registers, else 0. */
  function Layer(v: View, x: nat, y: nat): (c: nat)
    ensures c < 4
  {
    if UnderWindow(v, x, y) then
      Texel(v, if v.lcdc & 0x40 != 0 then 0x1C00 else 0x1800, Signed16(x) + 7 - v.wx as int, y % 0x100 - v.wy as nat)
    else if v.lcdc & 0x01 != 0 then
      Texel(v, BackgroundCells(v.lcdc), (v.scx as nat + x) % 0x100, (v.scy as nat + y) % 0x100)
    else 0
  }

  lemma LayerIs(v: View, x: nat, y: nat)
    ensures LayerColor(v, x, y) == Layer(v, x, y)
    ensures LayerShade(v, x, y)
         == if UnderWindow(v, x, y) || v.lcdc & 0x01 != 0 then Grey(v.bgp, Layer(v, x, y)) else 0xFF
  {
    hide Layer, LayerColor, Palette, Grey, Column, Signed16;
    ColumnIs(x);
    if UnderWindow(v, x, y) { WindowLayer(v, x, y); } else { OtherLayer(v, x, y); }
    GreyIs(v.bgp, LayerColor(v, x, y));
  }

  lemma WindowLayer(v: View, x: nat, y: nat)
    requires UnderWindow(v, x, y)
    ensures LayerColor(v, x, y) == Layer(v, x, y)
  {
    hide PlaneColor, Texel, Column, Signed16;
    ColumnIs(x);
    TexelIs(v, WindowMap(v), Signed16(x) + 7 - v.wx as int, y % 0x100 - v.wy as nat);
  }

  lemma OtherLayer(v: View, x: nat, y: nat)
    requires !UnderWindow(v, x, y)
    ensures LayerColor(v, x, y) == Layer(v, x, y)
  {
    hide BackgroundColor, Texel, WindowColor, Column, Signed16;
    ColumnIs(x);
    BackgroundIs(v, x, y);
  }

  lemma BackgroundIs(v: View, x: nat, y: nat)
    ensures BackgroundColor(v, x, y)
         == Texel(v, BackgroundCells(v.lcdc), (v.scx as nat + x) % 0x100, (v.scy as nat + y) % 0x100)
  {
    hide PlaneColor, Texel, BackgroundMap, BackgroundCells;
    MapIs(v);
    BackgroundAt(v, x, y, (v.scx as nat + x) % 0x100, (v.scy as nat + y) % 0x100);
  }

  lemma MapIs(v: View)
    ensures BackgroundMap(v) == 0x8000 + BackgroundCells(v.lcdc)
  {
  }

  lemma BackgroundAt(v: View, x: nat, y: nat, px: nat, py: nat)
    requires px == (v.scx as nat + x) % 0x100 && py == (v.scy as nat + y) % 0x100
    ensures py < 0x100 && BackgroundColor(v, x, y) == Texel(v, BackgroundMap(v) - 0x8000, px, py)
  {
    hide PlaneColor, Texel, BackgroundMap;
    TexelIs(v, BackgroundMap(v), px, py);
  }

  // ----- Sprites -----

  /** Rows of a sprite, by LCDC bit 2. */
  function Tall(v: View): (h: nat)
    ensures h == 8 || h == 16
  {
    if v.lcdc & 0x04 != 0 then 16 else 8
  }

  /** The row and column of sprite `k` at a pixel: its corner is 16 lines up and 8 columns left of the
      position in object memory. */
  function RowAt(v: View, k: nat, y: nat): (row: nat)
    requires k < 40
  {
    (y + 16 + 0x100 - v.oam[4 * k] as nat) % 0x100
  }

  function ColumnAt(v: View, k: nat, x: nat): (column: nat)
    requires k < 40
  {
    (x + 8 + 0x100 - v.oam[4 * k + 1] as nat) % 0x100
  }

  /** A tile id without its lowest bit. */
  function Even(id: bv8): (n: nat)
    ensures n < 0x100
  {
    (id & 0xFE) as nat
  }

  /** Where a line of a sprite is in its bytes: the lower eight start at 32. */
  function LineOffset(line: nat): (n: nat)
    requires line < 16
    ensures n <= 46
  {
    if line < 8 then 2 * line else 32 + 2 * (line - 8)
  }

  /** Where a sprite's row starts: upside down by bit 6; tall sprites ignore the lowest bit of the tile id
      and take their lower eight rows 32 bytes on. */
  function SpriteStart(v: View, k: nat, row: nat): (start: nat)
    requires k < 40 && row < Tall(v)
    ensures start < 0x1FFF
  {
    var id, flipped := v.oam[4 * k + 2], v.oam[4 * k + 3] & 0x40 != 0;
    var line := if flipped then Tall(v) - 1 - row else row;
    16 * (if Tall(v) == 8 then id as nat else Even(id)) + LineOffset(line)
  }

  lemma SpriteStartIs(v: View, k: nat, row: nat)
    requires k < 40 && row < SpriteHeight(v)
    ensures SpriteHeight(v) == Tall(v) && SpriteBytes(v, k, row) == 0x8000 + SpriteStart(v, k, row)
  {
    hide Attributes, Even, EvenId;
    Attribute(v, k);
    EvenIs(v.oam[4 * k + 2]);
    var line := if v.oam[4 * k + 3] & 0x40 != 0 then Tall(v) - 1 - row else row;
    if Tall(v) == 16 { TallIs(line); }
  }

  lemma TallIs(line: nat)
    requires line < 16
    ensures TallOffset(line) == LineOffset(line)
  {
  }

  lemma Attribute(v: View, k: nat)
    requires k < 40
    ensures Attributes(v, k) == v.oam[4 * k + 3] && v.oam[k * 4 + 2] == v.oam[4 * k + 2]
  {
  }

  lemma EvenIs(id: bv8)
    ensures EvenId(id) == Even(id)
  {
  }

  /** A sprite's color at its own row and column: mirrored by bit 5. */
  function SpriteTexel(v: View, k: nat, row: nat, column: nat): (c: nat)
    requires k < 40 && row < Tall(v) && column < 8
    ensures c < 4
  {
    var start := SpriteStart(v, k, row);
    ColorBits(v.vram[start], v.vram[start + 1], if v.oam[4 * k + 3] & 0x20 != 0 then 7 - column else column)
  }

  lemma SpriteTexelIs(v: View, k: nat, row: nat, column: nat)
    requires k < 40 && row < SpriteHeight(v) && column < 8
    ensures SpriteHeight(v) == Tall(v) && SpriteColor(v, k, row, column) == SpriteTexel(v, k, row, column)
  {
    hide SpriteHeight, Tall, SpriteBytes, SpriteStart, RowColor, ColorBits;
    SpriteStartIs(v, k, row);
    Attribute(v, k);
    var mirrored := v.oam[4 * k + 3] & 0x20 != 0;
    BitsRead(v, SpriteBytes(v, k, row), if mirrored then 7 - column else column);
  }

  /** Sprite `k` covers a pixel with a color of its own and is not hidden behind a layer that is not 0;
      only the first 256 lines and columns have sprites. */
  predicate Covers(v: View, k: nat, x: nat, y: nat)
    requires k < 40
  {
    && x < 0x100 && y < 0x100 && RowAt(v, k, y) < Tall(v) && ColumnAt(v, k, x) < 8
    && SpriteTexel(v, k, RowAt(v, k, y), ColumnAt(v, k, x)) != 0
    && (v.oam[4 * k + 3] & 0x80 == 0 || Layer(v, x, y) == 0)
  }

  lemma CoversIs(v: View, k: nat, x: nat, y: nat)
    requires k < 40
    ensures Shows(v, k, x, y, LayerColor(v, x, y)) == Covers(v, k, x, y)
  {
    hide SpriteColor, SpriteTexel, LayerColor, Layer, LayerShade, UnderWindow, Grey;
    LayerIs(v, x, y);
    Attribute(v, k);
    assert SpriteRow(v, k, y) == RowAt(v, k, y) && SpriteColumn(v, k, x) == ColumnAt(v, k, x);
    if SpriteRow(v, k, y) < SpriteHeight(v) && SpriteColumn(v, k, x) < 8 {
      SpriteTexelIs(v, k, SpriteRow(v, k, y), SpriteColumn(v, k, x));
    }
  }

  /** Sprite `i` covers the pixel and none before it does. */
  ghost predicate FirstToCover(v: View, i: nat, x: nat, y: nat) {
    i < 40 && Covers(v, i, x, y) && forall j :: 0 <= j < i ==> !Covers(v, j, x, y)
  }

  /** With the LCD off every pixel is white. On, with sprites on, the first sprite that covers the pixel
      gives its shade by its own color and the palette its bit 4 names; else window or background give
      theirs by BGP; else the pixel is white. */
  lemma PixelFromBytes(v: View, x: nat, y: nat)
    ensures v.lcdc & 0x80 == 0 ==> Pixel(v, x, y) == 0xFF
    ensures v.lcdc & 0x80 != 0 && (v.lcdc & 0x02 == 0 || forall k :: 0 <= k < 40 ==> !Covers(v, k, x, y)) ==>
      Pixel(v, x, y) == if UnderWindow(v, x, y) || v.lcdc & 0x01 != 0 then Grey(v.bgp, Layer(v, x, y)) else 0xFF
    ensures forall i :: v.lcdc & 0x80 != 0 && v.lcdc & 0x02 != 0 && FirstToCover(v, i, x, y) ==>
      Pixel(v, x, y) == Grey(if v.oam[4 * i + 3] & 0x10 != 0 then v.obp1 else v.obp0,
                             SpriteTexel(v, i, RowAt(v, i, y), ColumnAt(v, i, x)))
  {
    hide Layer, LayerColor, LayerShade, UnderWindow, Grey, Over, Covers, Shows, SpriteTexel, RowAt, ColumnAt, Tall;
    LayerIs(v, x, y);
    if v.lcdc & 0x80 != 0 && v.lcdc & 0x02 != 0 {
      forall k | 0 <= k < 40 ensures Shows(v, k, x, y, LayerColor(v, x, y)) == Covers(v, k, x, y) {
        CoversIs(v, k, x, y);
      }
      if forall k :: 0 <= k < 40 ==> !Covers(v, k, x, y) { NoSpriteShows(v, 0, x, y); }
      forall i | FirstToCover(v, i, x, y)
        ensures RowAt(v, i, y) < Tall(v) && ColumnAt(v, i, x) < 8
        ensures Pixel(v, x, y) == Grey(if v.oam[4 * i + 3] & 0x10 != 0 then v.obp1 else v.obp0,
                                       SpriteTexel(v, i, RowAt(v, i, y), ColumnAt(v, i, x)))
      {
        FirstSpriteWins(v, 0, i, x, y);
        ShadeIs(v, i, x, y);
      }
    }
  }

  lemma ShadeIs(v: View, i: nat, x: nat, y: nat)
    requires i < 40 && Covers(v, i, x, y) && Shows(v, i, x, y, LayerColor(v, x, y))
    ensures RowAt(v, i, y) < Tall(v) && ColumnAt(v, i, x) < 8
    ensures SpriteShade(v, i, x, y)
         == Grey(if v.oam[4 * i + 3] & 0x10 != 0 then v.obp1 else v.obp0,
                 SpriteTexel(v, i, RowAt(v, i, y), ColumnAt(v, i, x)))
  {
    hide SpriteColor, SpriteTexel, LayerColor, Layer, Palette, Grey;
    Attribute(v, i);
    SpriteTexelIs(v, i, SpriteRow(v, i, y), SpriteColumn(v, i, x));
    GreyIs(if v.oam[4 * i + 3] & 0x10 != 0 then v.obp1 else v.obp0,
           SpriteTexel(v, i, RowAt(v, i, y), ColumnAt(v, i, x)));
  }
}
