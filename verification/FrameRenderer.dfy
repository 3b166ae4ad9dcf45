/**
 The three passes that fill a frame buffer in place: background, window and sprites. Together they
 leave every pixel as the per-pixel description of a frame says.
 */
module FrameRenderer {
  import opened Arithmetic
  import opened Renderer

  // ----- The buffer -----

  /** Pixel `j` of an RGBA buffer is an opaque grey. */
  predicate Solid(out: seq<bv8>, j: nat, shade: bv8)
    requires 4 * j + 4 <= |out|
  {
    out[4 * j] == shade && out[4 * j + 1] == shade && out[4 * j + 2] == shade && out[4 * j + 3] == 0xFF
  }

  /** The buffer shows `shades`, one per pixel. */
  ghost predicate Shown(out: seq<bv8>, shades: seq<bv8>) {
    && 4 * |shades| <= |out|
    && forall j :: 0 <= j < |shades| ==> Solid(out, j, shades[j])
  }

  method Paint(out: array<bv8>, j: nat, shade: bv8, ghost shades: seq<bv8>)
    requires Shown(out[..], shades) && j < |shades|
    modifies out
    ensures Shown(out[..], shades[j := shade])
    ensures forall i :: 4 * |shades| <= i < out.Length ==> out[i] == old(out[i])
  {
    ghost var before := out[..];
    var at := j * 4;
    out[at], out[at + 1], out[at + 2], out[at + 3] := shade, shade, shade, 0xFF;
    ghost var after, painted := out[..], shades[j := shade];
    forall i | 0 <= i < |painted| ensures Solid(after, i, painted[i]) {
      if i != j { assert Solid(before, i, shades[i]); }
    }
  }

  /** Fills every whole pixel of the buffer. */
  method FillSolid(out: array<bv8>, shade: bv8) returns (ghost shades: seq<bv8>)
    modifies out
    ensures |shades| == out.Length / 4 && (forall j :: 0 <= j < |shades| ==> shades[j] == shade)
    ensures Shown(out[..], shades)
    ensures forall i :: 4 * (out.Length / 4) <= i < out.Length ==> out[i] == old(out[i])
  {
    shades := [];
    var px := 0;
    while 4 * px + 4 <= out.Length
      invariant 0 <= px == |shades| <= out.Length / 4
      invariant forall j :: 0 <= j < px ==> shades[j] == shade
      invariant Shown(out[..], shades)
      invariant forall i :: 4 * px <= i < out.Length ==> out[i] == old(out[i])
    {
      ghost var before := out[..];
      out[4 * px], out[4 * px + 1], out[4 * px + 2], out[4 * px + 3] := shade, shade, shade, 0xFF;
      forall i | 0 <= i < px ensures Solid(out[..], i, shades[i]) {
        assert Solid(before, i, shades[i]);
      }
      shades := shades + [shade];
      px := px + 1;
    }
  }

  method DecodePalette(bgp: bv8) returns (shades: seq<bv8>)
    ensures |shades| == 4 && forall c: Color :: shades[c] == Palette(bgp, c)
  {
    shades := [];
    var left := bgp;
    var cid := 0;
    while cid < 4
      invariant 0 <= cid == |shades| <= 4
      invariant left == Shifted(bgp, cid)
      invariant forall c: Color :: c < cid ==> shades[c] == Palette(bgp, c)
    {
      ShiftOn(bgp, cid);
      shades := shades + [Shade(left & 0x03)];
      left := left >> 2;
      cid := cid + 1;
    }
  }

  function Shifted(v: bv8, cid: nat): bv8 {
    if cid == 0 then v else if cid == 1 then v >> 2 else if cid == 2 then v >> 4 else if cid == 3 then v >> 6 else 0
  }

  lemma ShiftOn(v: bv8, cid: Color)
    ensures Shade(Shifted(v, cid) & 0x03) == Palette(v, cid)
    ensures Shifted(v, cid) >> 2 == Shifted(v, cid + 1)
  {
  }

  // ----- Pixels by index -----

  function X(w: nat, j: nat): nat
    requires w > 0
  {
    j % w
  }

  function Y(w: nat, j: nat): nat
    requires w > 0
  {
    j / w
  }

  lemma IndexOf(w: nat, h: nat, x: nat, y: nat)
    requires x < w && y < h
    ensures X(w, y * w + x) == x && Y(w, y * w + x) == y && y * w + x < w * h
  {
    QuotientIs(y * w + x, y, w, x);
    RowFits(w, h, y);
  }

  lemma InFrame(w: nat, h: nat, j: nat)
    requires j < w * h
    ensures w > 0 && X(w, j) < w && Y(w, j) < h
  {
    NoWidth(w, h);
    var q, r := j / w, j % w;
    assert j == q * w + r;
    if q >= h { assert q * w >= h * w; }
  }

  lemma NoWidth(w: nat, h: nat)
    ensures w == 0 ==> w * h == 0
  {
  }

  /** What the background pass leaves at a pixel. */
  function BackColor(v: View, x: nat, y: nat): Color {
    if BackgroundOn(v) then BackgroundColor(v, x, y) else 0
  }

  function BackShade(v: View, x: nat, y: nat): bv8 {
    if BackgroundOn(v) then Palette(v.bgp, BackgroundColor(v, x, y)) else WHITE
  }

  /** Pixels `a` to `b` are as the background pass leaves them. */
  ghost predicate Backed(v: View, w: nat, a: nat, b: nat, bg: seq<Color>, shades: seq<bv8>)
    requires w > 0 && b <= |bg| && b <= |shades|
  {
    forall j :: a <= j < b ==> bg[j] == BackColor(v, X(w, j), Y(w, j)) && shades[j] == BackShade(v, X(w, j), Y(w, j))
  }

  /** Pixels `a` to `b` are as the window pass leaves them. */
  ghost predicate Layered(v: View, w: nat, a: nat, b: nat, bg: seq<Color>, shades: seq<bv8>)
    requires w > 0 && b <= |bg| && b <= |shades|
  {
    forall j :: a <= j < b ==> bg[j] == LayerColor(v, X(w, j), Y(w, j)) && shades[j] == LayerShade(v, X(w, j), Y(w, j))
  }

  // ----- Background -----

  /** The color of a plane at a point, fetched through map, tile and row. */
  method PlanePixel(v: View, base: nat, x: nat, y: nat) returns (color: Color)
    requires base == 0x9800 || base == 0x9C00
    requires y < 0x100
    ensures color == PlaneColor(v, base, x, y)
  {
    hide Bit, TileRow;
    var tileRow, rowInTile := y / 8, y % 8;
    var tileCol, colInTile := x / 8 % 32, x % 8;
    var id := Vram(v, base + (tileRow * 32 + tileCol));
    var address := TileRow(v, id, rowInTile);
    var lo, hi := Vram(v, address), Vram(v, address + 1);
    var at := 7 - colInTile;
    color := (if Bit(hi, at) then 2 else 0) + (if Bit(lo, at) then 1 else 0);
  }

  method BackgroundRow(v: View, out: array<bv8>, palette: seq<bv8>, w: nat, h: nat, y: nat,
                       bg0: seq<Color>, ghost shades0: seq<bv8>)
    returns (bg: seq<Color>, ghost shades: seq<bv8>)
    requires w > 0 && y < h && |bg0| == w * h <= |shades0| && BackgroundOn(v)
    requires |palette| == 4 && forall c: Color :: palette[c] == Palette(v.bgp, c)
    requires Shown(out[..], shades0)
    requires y * w <= w * h && Backed(v, w, 0, y * w, bg0, shades0)
    modifies out
    ensures |bg| == |bg0| && |shades| == |shades0| && Shown(out[..], shades)
    ensures (y + 1) * w <= w * h && Backed(v, w, 0, (y + 1) * w, bg, shades)
    ensures forall j :: w * h <= j < |shades| ==> shades[j] == shades0[j]
    ensures forall i :: 4 * |shades0| <= i < out.Length ==> out[i] == old(out[i])
  {
    hide PlaneColor, Palette, Shown, X, Y, BackgroundMap, Backed;
    bg, shades := bg0, shades0;
    assert (y + 1) * w == y * w + w <= w * h by { RowFits(w, h, y); }
    ghost var start := y * w;
    var x: nat := 0;
    while x < w
      invariant x <= w && |bg| == |bg0| && |shades| == |shades0| && Shown(out[..], shades)
      invariant start + x <= |bg| && Backed(v, w, 0, start + x, bg, shades)
      invariant forall j :: w * h <= j < |shades| ==> shades[j] == shades0[j]
      invariant forall i :: 4 * |shades0| <= i < out.Length ==> out[i] == old(out[i])
    {
      IndexOf(w, h, x, y);
      var color := PlanePixel(v, BackgroundMap(v), (v.scx as nat + x) % 0x100, (v.scy as nat + y) % 0x100);
      var j := y * w + x;
      BackedOn(v, w, j, bg, shades, color, palette[color]);
      bg := bg[j := color];
      Paint(out, j, palette[color], shades);
      shades := shades[j := palette[color]];
      x := x + 1;
    }
  }

  /** One more pixel as the background pass leaves it. */
  lemma BackedOn(v: View, w: nat, j: nat, bg: seq<Color>, shades: seq<bv8>, color: Color, shade: bv8)
    requires w > 0 && j < |bg| && j < |shades| && Backed(v, w, 0, j, bg, shades)
    requires color == BackColor(v, X(w, j), Y(w, j)) && shade == BackShade(v, X(w, j), Y(w, j))
    ensures Backed(v, w, 0, j + 1, bg[j := color], shades[j := shade])
  {
    hide BackColor, BackShade, X, Y;
  }

  lemma RowFits(w: nat, h: nat, y: nat)
    requires y < h
    ensures (y + 1) * w == y * w + w <= w * h
  {
    assert (y + 1) * w <= h * w;
  }

  method DrawBackground(v: View, out: array<bv8>, w: nat, h: nat, ghost shades0: seq<bv8>)
    returns (bg: seq<Color>, ghost shades: seq<bv8>)
    requires w > 0 && w * h <= |shades0| && Shown(out[..], shades0)
    requires forall j :: 0 <= j < |shades0| ==> shades0[j] == WHITE
    modifies out
    ensures |bg| == w * h && |shades| == |shades0| && Shown(out[..], shades)
    ensures Backed(v, w, 0, w * h, bg, shades)
    ensures forall j :: w * h <= j < |shades| ==> shades[j] == WHITE
    ensures forall i :: 4 * |shades0| <= i < out.Length ==> out[i] == old(out[i])
  {
    hide Shown, X, Y, BackgroundColor, Palette;
    bg, shades := seq(w * h, _ => 0), shades0;
    if BackgroundOn(v) {
      var palette := DecodePalette(v.bgp);
      var y: nat := 0;
      while y < h
        invariant y <= h && |bg| == w * h && |shades| == |shades0| && Shown(out[..], shades)
        invariant y * w <= w * h && Backed(v, w, 0, y * w, bg, shades)
        invariant forall j :: w * h <= j < |shades| ==> shades[j] == WHITE
        invariant forall i :: 4 * |shades0| <= i < out.Length ==> out[i] == old(out[i])
      {
        bg, shades := BackgroundRow(v, out, palette, w, h, y, bg, shades);
        y := y + 1;
      }
      assert y * w == w * h;
    }
  }

  // ----- Window -----

  method WindowRow(v: View, out: array<bv8>, palette: seq<bv8>, w: nat, h: nat, y: nat,
                   bg0: seq<Color>, ghost shades0: seq<bv8>)
    returns (bg: seq<Color>, ghost shades: seq<bv8>)
    requires 0 < w < 0x1_0000 && y < h && |bg0| == w * h <= |shades0| && WindowOn(v)
    requires |palette| == 4 && forall c: Color :: palette[c] == Palette(v.bgp, c)
    requires Shown(out[..], shades0)
    requires y * w <= w * h && Layered(v, w, 0, y * w, bg0, shades0) && Backed(v, w, y * w, w * h, bg0, shades0)
    modifies out
    ensures |bg| == |bg0| && |shades| == |shades0| && Shown(out[..], shades)
    ensures (y + 1) * w <= w * h
    ensures Layered(v, w, 0, (y + 1) * w, bg, shades) && Backed(v, w, (y + 1) * w, w * h, bg, shades)
    ensures forall j :: w * h <= j < |shades| ==> shades[j] == shades0[j]
    ensures forall i :: 4 * |shades0| <= i < out.Length ==> out[i] == old(out[i])
  {
    hide PlaneColor, Palette, Shown, X, Y, BackgroundColor, WindowMap, Column;
    bg, shades := bg0, shades0;
    RowFits(w, h, y);
    ghost var start := y * w;
    var x: nat := 0;
    while x < w
      invariant x <= w && |bg| == |bg0| && |shades| == |shades0| && Shown(out[..], shades)
      invariant start + x <= w * h
      invariant Layered(v, w, 0, start + x, bg, shades) && Backed(v, w, start + x, w * h, bg, shades)
      invariant forall j :: w * h <= j < |shades| ==> shades[j] == shades0[j]
      invariant forall i :: 4 * |shades0| <= i < out.Length ==> out[i] == old(out[i])
    {
      IndexOf(w, h, x, y);
      var left := v.wx as int - 7;
      if y % 0x100 >= v.wy as nat && Column(x) >= left {
        var color := PlanePixel(v, WindowMap(v), Column(x) - left, y % 0x100 - v.wy as nat);
        var j := y * w + x;
        bg := bg[j := color];
        Paint(out, j, palette[color], shades);
        shades := shades[j := palette[color]];
      }
      x := x + 1;
    }
  }

  method DrawWindow(v: View, out: array<bv8>, w: nat, h: nat, bg0: seq<Color>, ghost shades0: seq<bv8>)
    returns (bg: seq<Color>, ghost shades: seq<bv8>)
    requires 0 < w < 0x1_0000 && |bg0| == w * h <= |shades0| && Shown(out[..], shades0)
    requires Backed(v, w, 0, w * h, bg0, shades0)
    modifies out
    ensures |bg| == |bg0| && |shades| == |shades0| && Shown(out[..], shades)
    ensures Layered(v, w, 0, w * h, bg, shades)
    ensures forall j :: w * h <= j < |shades| ==> shades[j] == shades0[j]
    ensures forall i :: 4 * |shades0| <= i < out.Length ==> out[i] == old(out[i])
  {
    hide Shown, X, Y, BackgroundColor, WindowColor, WindowCovers, Palette;
    bg, shades := bg0, shades0;
    if WindowOn(v) {
      var palette := DecodePalette(v.bgp);
      var y: nat := 0;
      while y < h
        invariant y <= h && |bg| == |bg0| && |shades| == |shades0| && Shown(out[..], shades)
        invariant y * w <= w * h
        invariant Layered(v, w, 0, y * w, bg, shades) && Backed(v, w, y * w, w * h, bg, shades)
        invariant forall j :: w * h <= j < |shades| ==> shades[j] == shades0[j]
        invariant forall i :: 4 * |shades0| <= i < out.Length ==> out[i] == old(out[i])
      {
        bg, shades := WindowRow(v, out, palette, w, h, y, bg, shades);
        y := y + 1;
      }
      assert y * w == w * h;
    }
  }

  // ----- Sprites -----

  /** The first `n` pixels have sprites `k` and up drawn. */
  ghost predicate Drawn(v: View, w: nat, n: nat, k: nat, shades: seq<bv8>)
    requires w > 0 && n <= |shades| && k <= SPRITES
  {
    forall j :: 0 <= j < n ==> shades[j] == Over(v, k, X(w, j), Y(w, j))
  }

  /** Sprite `k` has passed the pixel when drawing has come to its row `row` and column `column`. */
  predicate Passed(v: View, k: nat, row: nat, column: nat, x: nat, y: nat)
    requires k < SPRITES
  {
    SpriteRow(v, k, y) < row || (SpriteRow(v, k, y) == row && SpriteColumn(v, k, x) < column)
  }

  function Upto(v: View, k: nat, row: nat, column: nat, x: nat, y: nat): bv8
    requires k < SPRITES
  {
    Over(v, if Passed(v, k, row, column, x, y) then k else k + 1, x, y)
  }

  ghost predicate Drawing(v: View, w: nat, n: nat, k: nat, row: nat, column: nat, shades: seq<bv8>)
    requires w > 0 && n <= |shades| && k < SPRITES
  {
    forall j :: 0 <= j < n ==> shades[j] == Upto(v, k, row, column, X(w, j), Y(w, j))
  }

  /** The screen line of a sprite's row. */
  function ScreenY(v: View, k: nat, row: nat): nat
    requires k < SPRITES
  {
    (v.oam[k * 4] as nat + 0x100 - 16 + row) % 0x100
  }

  function ScreenX(v: View, k: nat, column: nat): nat
    requires k < SPRITES
  {
    (v.oam[k * 4 + 1] as nat + 0x100 - 8 + column) % 0x100
  }

  lemma CornerTurns(p: nat, d: nat, r: nat, at: nat)
    requires p < 0x100 && d <= 16 && r < 0x100 && at < 0x100
    ensures at == (p + 0x100 - d + r) % 0x100 <==> (at + 0x100 + d - p) % 0x100 == r
  {
  }

  lemma RowOfLine(v: View, k: nat, row: nat, y: nat)
    requires k < SPRITES && row < 0x100 && y < 0x100
    ensures y == ScreenY(v, k, row) <==> SpriteRow(v, k, y) == row
  {
    CornerTurns(v.oam[k * 4] as nat, 16, row, y);
  }

  lemma ColumnOfPixel(v: View, k: nat, column: nat, x: nat)
    requires k < SPRITES && column < 0x100 && x < 0x100
    ensures x == ScreenX(v, k, column) <==> SpriteColumn(v, k, x) == column
  {
    CornerTurns(v.oam[k * 4 + 1] as nat, 8, column, x);
  }

  /** A sprite that does not show leaves the pixel to the ones after it. */
  lemma Unshown(v: View, k: nat, x: nat, y: nat)
    requires k < SPRITES && !Shows(v, k, x, y, LayerColor(v, x, y))
    ensures Over(v, k, x, y) == Over(v, k + 1, x, y)
  {
    hide Shows, LayerColor, LayerShade, SpriteShade;
  }

  /** Moving one column on changes only the pixel at that row and column. */
  lemma ColumnPassed(v: View, k: nat, row: nat, column: nat, x: nat, y: nat)
    requires k < SPRITES && row < SpriteHeight(v) && column < 8
    ensures (x >= 0x100 || y >= 0x100 || x != ScreenX(v, k, column) || y != ScreenY(v, k, row))
        ==> Upto(v, k, row, column + 1, x, y) == Upto(v, k, row, column, x, y)
    ensures x == ScreenX(v, k, column) && y == ScreenY(v, k, row) ==>
      && Upto(v, k, row, column + 1, x, y) == Over(v, k, x, y)
      && Upto(v, k, row, column, x, y) == Over(v, k + 1, x, y)
      && SpriteRow(v, k, y) == row && SpriteColumn(v, k, x) == column
  {
    hide Over, SpriteRow, SpriteColumn, SpriteColor, LayerColor, ScreenX, ScreenY;
    if x < 0x100 && y < 0x100 {
      RowOfLine(v, k, row, y);
      ColumnOfPixel(v, k, column, x);
    } else {
      Unshown(v, k, x, y);
    }
    ScreenBounds(v, k, row, column);
  }

  lemma ScreenBounds(v: View, k: nat, row: nat, column: nat)
    requires k < SPRITES
    ensures ScreenX(v, k, column) < 0x100 && ScreenY(v, k, row) < 0x100
  {
  }

  /** After eight columns the whole row is passed. */
  lemma RowPassed(v: View, k: nat, row: nat, x: nat, y: nat)
    requires k < SPRITES
    ensures Upto(v, k, row + 1, 0, x, y) == Upto(v, k, row, 8, x, y)
  {
    hide Over, SpriteRow, SpriteColumn, SpriteColor, LayerColor;
    if SpriteRow(v, k, y) == row && SpriteColumn(v, k, x) >= 8 { Unshown(v, k, x, y); }
  }

  /** A row off the screen has no pixel in the frame. */
  lemma RowOffScreen(v: View, k: nat, row: nat, x: nat, y: nat)
    requires k < SPRITES && row < 0x100 && y < ScreenY(v, k, row)
    ensures Upto(v, k, row + 1, 0, x, y) == Upto(v, k, row, 0, x, y)
  {
    hide Over, SpriteRow, SpriteColumn, SpriteColor, LayerColor, ScreenY;
    ScreenBounds(v, k, row, 0);
    RowOfLine(v, k, row, y);
  }

  lemma SpritePassed(v: View, k: nat, x: nat, y: nat)
    requires k < SPRITES
    ensures Upto(v, k, SpriteHeight(v), 0, x, y) == Over(v, k, x, y)
    ensures Upto(v, k, 0, 0, x, y) == Over(v, k + 1, x, y)
  {
    hide Over, SpriteRow, SpriteColumn, SpriteColor, LayerColor, SpriteHeight;
    if SpriteRow(v, k, y) >= SpriteHeight(v) { Unshown(v, k, x, y); }
  }

  /** One column of one row of one sprite. */
  method SpriteDot(v: View, out: array<bv8>, w: nat, h: nat, k: nat, palette: seq<bv8>, row: nat, column: nat,
                   bg: seq<Color>, ghost shades0: seq<bv8>) returns (ghost shades: seq<bv8>)
    requires w > 0 && |bg| == w * h <= |shades0| && Shown(out[..], shades0)
    requires k < SPRITES && row < SpriteHeight(v) && column < 8 && ScreenY(v, k, row) < h
    requires |palette| == 4
    requires forall c: Color :: palette[c] == Palette(if Attributes(v, k) & 0x10 != 0 then v.obp1 else v.obp0, c)
    requires forall j :: 0 <= j < w * h ==> bg[j] == LayerColor(v, X(w, j), Y(w, j))
    requires Drawing(v, w, w * h, k, row, column, shades0)
    modifies out
    ensures |shades| == |shades0| && Shown(out[..], shades)
    ensures Drawing(v, w, w * h, k, row, column + 1, shades)
    ensures forall j :: w * h <= j < |shades| ==> shades[j] == shades0[j]
    ensures forall i :: 4 * |shades0| <= i < out.Length ==> out[i] == old(out[i])
  {
    hide Shown, X, Y, LayerColor, Upto, Over, SpriteHeight, SpriteColor, SpriteRow, SpriteColumn;
    hide ScreenX, ScreenY, Palette;
    shades := shades0;
    var screenX, screenY := ScreenX(v, k, column), ScreenY(v, k, row);
    ScreenBounds(v, k, row, column);
    if screenX < w {
      var j := screenY * w + screenX;
      IndexOf(w, h, screenX, screenY);
      ColumnPassed(v, k, row, column, screenX, screenY);
      var color := SpriteColor(v, k, row, column);
      if color != 0 && !(BehindBackground(v, k) && bg[j] != 0) {
        Paint(out, j, palette[color], shades);
        shades := shades[j := palette[color]];
        ShownDecides(v, k, screenX, screenY);
      } else {
        Unshown(v, k, screenX, screenY);
      }
      OthersStay(v, w, h, k, row, column, j, shades0, shades);
    } else {
      OffScreenStays(v, w, h, k, row, column, shades0);
    }
  }

  lemma ShownDecides(v: View, k: nat, x: nat, y: nat)
    requires k < SPRITES && Shows(v, k, x, y, LayerColor(v, x, y))
    ensures Over(v, k, x, y) == SpriteShade(v, k, x, y)
  {
    hide Shows, LayerColor, LayerShade, SpriteShade;
  }

  /** The index of a pixel other than this one has another row or column. */
  lemma OtherIndex(w: nat, h: nat, i: nat, j: nat)
    requires w > 0 && i != j
    ensures X(w, i) != X(w, j) || Y(w, i) != Y(w, j)
  {
    assert i == i / w * w + i % w && j == j / w * w + j % w;
  }

  lemma OthersStay(v: View, w: nat, h: nat, k: nat, row: nat, column: nat, j: nat, before: seq<bv8>, after: seq<bv8>)
    requires w > 0 && |before| == |after| && w * h <= |before| && k < SPRITES && row < SpriteHeight(v) && column < 8
    requires j < w * h && X(w, j) == ScreenX(v, k, column) && Y(w, j) == ScreenY(v, k, row)
    requires Drawing(v, w, w * h, k, row, column, before)
    requires after == before[j := after[j]] && after[j] == Over(v, k, X(w, j), Y(w, j))
    ensures Drawing(v, w, w * h, k, row, column + 1, after)
  {
    hide X, Y, Over, Upto, SpriteHeight, ScreenX, ScreenY, SpriteRow, SpriteColumn;
    forall i | 0 <= i < w * h ensures after[i] == Upto(v, k, row, column + 1, X(w, i), Y(w, i)) {
      ColumnPassed(v, k, row, column, X(w, i), Y(w, i));
      if i != j { OtherIndex(w, h, i, j); }
    }
  }

  lemma OffScreenStays(v: View, w: nat, h: nat, k: nat, row: nat, column: nat, shades: seq<bv8>)
    requires w > 0 && w * h <= |shades| && k < SPRITES && row < SpriteHeight(v) && column < 8
    requires ScreenX(v, k, column) >= w
    requires Drawing(v, w, w * h, k, row, column, shades)
    ensures Drawing(v, w, w * h, k, row, column + 1, shades)
  {
    hide X, Y, Over, Upto, SpriteHeight, ScreenX, ScreenY, SpriteRow, SpriteColumn;
    forall i | 0 <= i < w * h ensures shades[i] == Upto(v, k, row, column + 1, X(w, i), Y(w, i)) {
      InFrame(w, h, i);
      ColumnPassed(v, k, row, column, X(w, i), Y(w, i));
    }
  }

  /** One row of a sprite, skipped when it falls below the frame. */
  method SpriteLine(v: View, out: array<bv8>, w: nat, h: nat, k: nat, palette: seq<bv8>, row: nat,
                    bg: seq<Color>, ghost shades0: seq<bv8>) returns (ghost shades: seq<bv8>)
    requires w > 0 && |bg| == w * h <= |shades0| && Shown(out[..], shades0)
    requires k < SPRITES && row < SpriteHeight(v) && |palette| == 4
    requires forall c: Color :: palette[c] == Palette(if Attributes(v, k) & 0x10 != 0 then v.obp1 else v.obp0, c)
    requires forall j :: 0 <= j < w * h ==> bg[j] == LayerColor(v, X(w, j), Y(w, j))
    requires Drawing(v, w, w * h, k, row, 0, shades0)
    modifies out
    ensures |shades| == |shades0| && Shown(out[..], shades)
    ensures Drawing(v, w, w * h, k, row + 1, 0, shades)
    ensures forall j :: w * h <= j < |shades| ==> shades[j] == shades0[j]
    ensures forall i :: 4 * |shades0| <= i < out.Length ==> out[i] == old(out[i])
  {
    hide Shown, X, Y, LayerColor, Upto, SpriteHeight, ScreenY, Palette;
    shades := shades0;
    if ScreenY(v, k, row) < h {
      var column: nat := 0;
      while column < 8
        invariant column <= 8 && |shades| == |shades0| && Shown(out[..], shades)
        invariant Drawing(v, w, w * h, k, row, column, shades)
        invariant forall j :: w * h <= j < |shades| ==> shades[j] == shades0[j]
        invariant forall i :: 4 * |shades0| <= i < out.Length ==> out[i] == old(out[i])
      {
        shades := SpriteDot(v, out, w, h, k, palette, row, column, bg, shades);
        column := column + 1;
      }
      forall i | 0 <= i < w * h ensures shades[i] == Upto(v, k, row + 1, 0, X(w, i), Y(w, i)) {
        RowPassed(v, k, row, X(w, i), Y(w, i));
      }
    } else {
      forall i | 0 <= i < w * h ensures shades[i] == Upto(v, k, row + 1, 0, X(w, i), Y(w, i)) {
        InFrame(w, h, i);
        RowOffScreen(v, k, row, X(w, i), Y(w, i));
      }
    }
  }

  method DrawSprite(v: View, out: array<bv8>, w: nat, h: nat, k: nat, palette: seq<bv8>,
                    bg: seq<Color>, ghost shades0: seq<bv8>) returns (ghost shades: seq<bv8>)
    requires w > 0 && |bg| == w * h <= |shades0| && Shown(out[..], shades0)
    requires k < SPRITES && |palette| == 4
    requires forall c: Color :: palette[c] == Palette(if Attributes(v, k) & 0x10 != 0 then v.obp1 else v.obp0, c)
    requires forall j :: 0 <= j < w * h ==> bg[j] == LayerColor(v, X(w, j), Y(w, j))
    requires Drawn(v, w, w * h, k + 1, shades0)
    modifies out
    ensures |shades| == |shades0| && Shown(out[..], shades)
    ensures Drawn(v, w, w * h, k, shades)
    ensures forall j :: w * h <= j < |shades| ==> shades[j] == shades0[j]
    ensures forall i :: 4 * |shades0| <= i < out.Length ==> out[i] == old(out[i])
  {
    hide Shown, X, Y, LayerColor, Upto, Palette, Over;
    shades := shades0;
    forall i | 0 <= i < w * h ensures shades[i] == Upto(v, k, 0, 0, X(w, i), Y(w, i)) {
      SpritePassed(v, k, X(w, i), Y(w, i));
    }
    var row: nat := 0;
    while row < SpriteHeight(v)
      invariant row <= SpriteHeight(v) && |shades| == |shades0| && Shown(out[..], shades)
      invariant Drawing(v, w, w * h, k, row, 0, shades)
      invariant forall j :: w * h <= j < |shades| ==> shades[j] == shades0[j]
      invariant forall i :: 4 * |shades0| <= i < out.Length ==> out[i] == old(out[i])
    {
      shades := SpriteLine(v, out, w, h, k, palette, row, bg, shades);
      row := row + 1;
    }
    forall i | 0 <= i < w * h ensures shades[i] == Over(v, k, X(w, i), Y(w, i)) {
      SpritePassed(v, k, X(w, i), Y(w, i));
    }
  }

  /** Sprites are drawn from the last to the first, so the first ends on top. */
  method DrawSprites(v: View, out: array<bv8>, w: nat, h: nat, bg: seq<Color>, ghost shades0: seq<bv8>)
    returns (ghost shades: seq<bv8>)
    requires w > 0 && |bg| == w * h <= |shades0| && Shown(out[..], shades0)
    requires forall j :: 0 <= j < w * h ==> bg[j] == LayerColor(v, X(w, j), Y(w, j))
    requires Drawn(v, w, w * h, SPRITES, shades0)
    modifies out
    ensures |shades| == |shades0| && Shown(out[..], shades)
    ensures Drawn(v, w, w * h, 0, shades)
    ensures forall j :: w * h <= j < |shades| ==> shades[j] == shades0[j]
    ensures forall i :: 4 * |shades0| <= i < out.Length ==> out[i] == old(out[i])
  {
    hide Shown, X, Y, LayerColor, Palette, Over;
    var obp0 := DecodePalette(v.obp0);
    var obp1 := DecodePalette(v.obp1);
    shades := shades0;
    var k: nat := SPRITES;
    while k > 0
      invariant k <= SPRITES && |shades| == |shades0| && Shown(out[..], shades)
      invariant Drawn(v, w, w * h, k, shades)
      invariant forall j :: w * h <= j < |shades| ==> shades[j] == shades0[j]
      invariant forall i :: 4 * |shades0| <= i < out.Length ==> out[i] == old(out[i])
    {
      k := k - 1;
      var palette := if Attributes(v, k) & 0x10 != 0 then obp1 else obp0;
      shades := DrawSprite(v, out, w, h, k, palette, bg, shades);
    }
  }

  // ----- The frame -----

  /** Renders a frame: every pixel of the frame is the described one, whole pixels of the buffer
      beyond the frame are white, and stray bytes after the last whole pixel stay. */
  method RenderFrame(v: View, out: array<bv8>, w: nat, h: nat)
    requires w < 0x1_0000 && h < 0x1_0000 && 4 * (w * h) <= out.Length
    modifies out
    ensures forall j :: 0 <= j < w * h ==> w > 0 && Solid(out[..], j, Pixel(v, X(w, j), Y(w, j)))
    ensures forall j :: w * h <= j < out.Length / 4 ==> Solid(out[..], j, WHITE)
    ensures forall i :: 4 * (out.Length / 4) <= i < out.Length ==> out[i] == old(out[i])
  {
    hide X, Y, LayerColor, LayerShade, BackColor, BackShade;
    ghost var shades := FillSolid(out, 0xFF);
    NoWidth(w, h);
    if LcdOn(v) && w > 0 {
      var bg;
      bg, shades := DrawBackground(v, out, w, h, shades);
      bg, shades := DrawWindow(v, out, w, h, bg, shades);
      LayersAreOver(v, w, w * h, bg, shades);
      if SpritesOn(v) {
        shades := DrawSprites(v, out, w, h, bg, shades);
      }
    }
    forall j | 0 <= j < w * h ensures Solid(out[..], j, Pixel(v, X(w, j), Y(w, j))) {
      assert Solid(out[..], j, shades[j]);
    }
    forall j | w * h <= j < out.Length / 4 ensures Solid(out[..], j, WHITE) {
      assert Solid(out[..], j, shades[j]);
    }
  }

  lemma LayersAreOver(v: View, w: nat, n: nat, bg: seq<Color>, shades: seq<bv8>)
    requires w > 0 && n <= |bg| && n <= |shades| && Layered(v, w, 0, n, bg, shades)
    ensures Drawn(v, w, n, SPRITES, shades)
  {
    hide X, Y, LayerColor, LayerShade;
  }

  /** The same by coordinates: the bytes at row `y` and column `x` of the frame. */
  lemma PixelAt(out: seq<bv8>, v: View, w: nat, h: nat, x: nat, y: nat)
    requires x < w && y < h && 4 * (w * h) <= |out|
    requires forall j :: 0 <= j < w * h ==> Solid(out, j, Pixel(v, X(w, j), Y(w, j)))
    ensures y * w + x < w * h && Solid(out, y * w + x, Pixel(v, x, y))
  {
    hide X, Y, Pixel;
    IndexOf(w, h, x, y);
  }
}
