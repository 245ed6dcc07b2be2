/** The scanline compositor gpu_draw_line of app/src/gpu.c: one row of 160
    palette-mapped pixels built from the background, the window and the
    sprites, handed to the front end's lcd_draw_line callback.

    Each of the three layers is a method that fills the row buffer with
    down- or up-counting loops, proved against a function of the context
    snapshot and the buffer it found (Background, Window, Sprites); DrawLine
    chains them the way gpu_draw_line does. The callback is modelled by
    returning the row. */
module Gpu {
  import opened Bytes
  import opened Context

  /** Offsets inside VRAM of the two tile maps and the two tile-data
      blocks. */
  const VRAM_BMAP_1: nat := 0x1800
  const VRAM_BMAP_2: nat := 0x1C00
  const VRAM_TILES_1: nat := 0x0000
  const VRAM_TILES_2: nat := 0x0800

  /** What the lcd_draw_line callback receives: the row and the line number. */
  datatype Line = Line(pixels: seq<byte>, ly: byte)

  /** The context and the row buffer between two stages of the compositor. */
  datatype Frame = Frame(st: GbState, pixels: seq<byte>)

  predicate FrameOk(f: Frame)
  {
    Wf(f.st) && |f.pixels| == LCD_WIDTH
  }

  /** The row buffer as declared: every pixel 0. */
  function Blank(): (p: seq<byte>)
    ensures |p| == LCD_WIDTH && forall x :: 0 <= x < LCD_WIDTH ==> p[x] == 0
  {
    seq(LCD_WIDTH, _ => 0)
  }

  /** The row buffer is none of the context's memories. */
  predicate Apart(gb: GameBoy, pixels: array<byte>)
  {
    && pixels != gb.wram && pixels != gb.vram && pixels != gb.oam
    && pixels != gb.hramIo && pixels != gb.bgPalette && pixels != gb.spPalette
  }

  // ---------------------------------------------------------------------
  // Tiles and colours
  // ---------------------------------------------------------------------

  /** v shifted right by k bits, 0 <= k <= 8, one bit at a time. */
  function Shr(v: byte, k: int): (r: byte)
    requires 0 <= k <= 8
    decreases k
  {
    if k == 0 then v else Shr(v, k - 1) >> 1
  }

  /** Shifting once more is shifting by one bit more. */
  lemma ShrStep(v: byte, k: int)
    requires 0 <= k < 8
    ensures Shr(v, k) >> 1 == Shr(v, k + 1)
  {
  }

  /** Shr is the uint8_t shift `v >> k`. */
  lemma ShrIsShift(v: byte, k: int)
    requires 0 <= k <= 8
    ensures Shr(v, k) == v >> k
  {
    if k == 0 {
    } else if k == 1 {
    } else if k == 2 {
    } else if k == 3 {
    } else if k == 4 {
    } else if k == 5 {
    } else if k == 6 {
    } else if k == 7 {
    } else {
    }
  }

  /** The 2-bit colour number of a pixel: bit 0 of the low plane and bit 0
      of the high plane. */
  function Colour(lo: byte, hi: byte): (c: byte)
    ensures c <= 3
    ensures c & 1 == lo & 1 && (c >> 1) & 1 == hi & 1
  {
    (lo & 0x1) | ((hi & 0x1) << 1)
  }

  /** The VRAM offset of row py of tile idx, in the addressing mode the
      tile-select bit of LCDC chooses. */
  function TileAddr(lcdc: byte, idx: byte, py: int): (a: nat)
    requires 0 <= py < 8
    ensures a + 1 < VRAM_BMAP_1
  {
    (if lcdc & LCDC_TILE_SELECT != 0 then VRAM_TILES_1 + idx as nat * 0x10
     else VRAM_TILES_2 + ((idx as nat + 0x80) % 0x100) * 0x10) + 2 * py
  }

  /** The two addressing modes: unsigned tile numbers from offset 0, or
      signed tile numbers around offset 0x1000 (address 0x9000). */
  lemma TileAddrModes(lcdc: byte, idx: byte, py: int)
    requires 0 <= py < 8
    ensures lcdc & LCDC_TILE_SELECT != 0 ==> TileAddr(lcdc, idx, py) == idx as int * 16 + 2 * py
    ensures lcdc & LCDC_TILE_SELECT == 0 ==> TileAddr(lcdc, idx, py) == 0x1000 + Signed(idx) * 16 + 2 * py
  {
    var n := idx as int;
    if idx < 0x80 {
      assert Signed(idx) == n && (n + 0x80) % 0x100 == n + 0x80;
    } else {
      assert Signed(idx) == n - 256 && (n + 0x80) % 0x100 == n - 0x80;
    }
  }

  /** The tile row that layer column col of the map row starting at mapRow
      shows. */
  function LayerTile(st: GbState, mapRow: nat, col: int, py: int): (a: nat)
    requires Wf(st) && mapRow + 32 <= VRAM_SIZE && 0 <= col < 256 && 0 <= py < 8
    ensures a + 1 < VRAM_SIZE
  {
    TileAddr(st.hramIo[IO_LCDC], st.vram[mapRow + col / 8], py)
  }

  /** The palette-mapped pixel at layer column col: the bit of the tile row
      that column selects, leftmost pixel in bit 7. */
  function LayerPixel(st: GbState, mapRow: nat, col: int, py: int): (r: byte)
    requires Wf(st) && mapRow + 32 <= VRAM_SIZE && 0 <= col < 256 && 0 <= py < 8
  {
    var tile := LayerTile(st, mapRow, col, py);
    var bit := 7 - col % 8;
    st.bgPalette[Colour(Shr(st.vram[tile], bit), Shr(st.vram[tile + 1], bit))]
  }

  /** The column of a 256-pixel-wide layer that screen column x shows when
      the layer is displaced by offset, with the wrap-around of the uint8_t
      column variable. */
  function Col(x: int, offset: int): (c: int)
    ensures 0 <= c < 256
  {
    (x + offset) % 256
  }

  /** Moving one screen column left moves one layer column left, wrapping
      at 0; within a tile the bit index grows by one, and past its left
      edge the new column is the rightmost of its tile. */
  lemma ColStep(x: int, offset: int)
    ensures Col(x - 1, offset) == if Col(x, offset) == 0 then 255 else Col(x, offset) - 1
    ensures Col(x, offset) % 8 != 0 ==> Col(x - 1, offset) / 8 == Col(x, offset) / 8
    ensures Col(x, offset) % 8 != 0 ==> Col(x - 1, offset) % 8 == Col(x, offset) % 8 - 1
    ensures Col(x, offset) % 8 == 0 ==> Col(x - 1, offset) % 8 == 7
  {
  }

  // ---------------------------------------------------------------------
  // The layer loop shared by the background and the window
  // ---------------------------------------------------------------------

  /** Where the row loop stands at screen column x: px counts the bits
      already shifted out of the current tile row (8 when the next column
      needs a new fetch), and t1, t2 hold that tile row shifted by px. */
  ghost predicate Cursor(st: GbState, mapRow: nat, offset: int, py: int, x: int,
                         px: int, tile: nat, t1: byte, t2: byte)
    requires Wf(st) && mapRow + 32 <= VRAM_SIZE && 0 <= py < 8
  {
    && 0 <= px <= 8
    && (px == 8 ==> Col(x, offset) % 8 == 7)
    && (px < 8 ==> px == 7 - Col(x, offset) % 8
                   && tile == LayerTile(st, mapRow, Col(x, offset), py)
                   && t1 == Shr(st.vram[tile], px) && t2 == Shr(st.vram[tile + 1], px))
  }

  /** The two bit planes advance by one bit. */
  method ShiftPlanes(t1: byte, t2: byte, ghost lo: byte, ghost hi: byte, ghost px: int) returns (u1: byte, u2: byte)
    requires 0 <= px < 8 && t1 == Shr(lo, px) && t2 == Shr(hi, px)
    ensures u1 == Shr(lo, px + 1) && u2 == Shr(hi, px + 1)
  {
    ShrStep(lo, px);
    ShrStep(hi, px);
    u1 := t1 >> 1;
    u2 := t2 >> 1;
  }

  /** Looks up the tile of layer column col in the map row and fetches its
      row py, shifted right by px. */
  method FetchTile(gb: GameBoy, ghost st: GbState, mapRow: nat, col: int, py: int, px: int)
    returns (tile: nat, t1: byte, t2: byte)
    requires gb.Valid() && gb.State() == st
    requires mapRow + 32 <= VRAM_SIZE && 0 <= col < 256 && 0 <= py < 8 && 0 <= px < 8
    ensures tile == LayerTile(st, mapRow, col, py)
    ensures t1 == Shr(st.vram[tile], px) && t2 == Shr(st.vram[tile + 1], px)
  {
    var idx := gb.vram[mapRow + col / 8];
    tile := TileAddr(gb.hramIo[IO_LCDC], idx, py);
    t1 := Shr(gb.vram[tile], px);
    t2 := Shr(gb.vram[tile + 1], px);
  }

  /** One iteration of the row loop: fetch a tile row when the current one is
      used up, draw the pixel of column x through bg_palette, and shift to
      the next bit. */
  method LayerStep(gb: GameBoy, ghost st: GbState, pixels: array<byte>, mapRow: nat, offset: int,
                   py: int, x: int, px: int, tile: nat, t1: byte, t2: byte)
    returns (px': int, tile': nat, t1': byte, t2': byte)
    requires gb.Valid() && gb.State() == st && pixels.Length == LCD_WIDTH && Apart(gb, pixels)
    requires mapRow + 32 <= VRAM_SIZE && 0 <= py < 8 && 0 <= x < LCD_WIDTH
    requires Cursor(st, mapRow, offset, py, x, px, tile, t1, t2)
    modifies pixels
    ensures Cursor(st, mapRow, offset, py, x - 1, px', tile', t1', t2')
    ensures pixels[..] == old(pixels[..])[x := LayerPixel(st, mapRow, Col(x, offset), py)]
  {
    px', tile', t1', t2' := px, tile, t1, t2;
    if px' == 8 {
      px' := 0;
      tile', t1', t2' := FetchTile(gb, st, mapRow, Col(x, offset), py, 0);
    }
    var c := Colour(t1', t2');
    assert gb.bgPalette[c] == st.bgPalette[c];
    pixels[x] := gb.bgPalette[c];
    t1', t2' := ShiftPlanes(t1', t2', st.vram[tile'], st.vram[tile' + 1], px');
    px' := px' + 1;
    ColStep(x, offset);
  }

  /** The row after the layer loop has drawn screen columns 159 down to
      last + 1, each from column Col(x, offset) of the map row; the columns
      up to last keep what p held. */
  function LayerRow(st: GbState, p: seq<byte>, mapRow: nat, offset: int, py: int, last: int): (r: seq<byte>)
    requires Wf(st) && |p| == LCD_WIDTH && mapRow + 32 <= VRAM_SIZE && 0 <= py < 8
    ensures |r| == LCD_WIDTH
  {
    seq(LCD_WIDTH, x requires 0 <= x < LCD_WIDTH =>
          if x > last then LayerPixel(st, mapRow, Col(x, offset), py) else p[x])
  }

  /** The loop of the background and of the window. */
  method DrawLayer(gb: GameBoy, ghost st: GbState, pixels: array<byte>, mapRow: nat, offset: int, py: int, last: int)
    requires gb.Valid() && gb.State() == st && pixels.Length == LCD_WIDTH && Apart(gb, pixels)
    requires mapRow + 32 <= VRAM_SIZE && 0 <= py < 8 && -1 <= last < LCD_WIDTH as int
    modifies pixels
    ensures pixels[..] == LayerRow(st, old(pixels[..]), mapRow, offset, py, last)
  {
    ghost var p0 := pixels[..];
    var dispX: int := LCD_WIDTH - 1;
    assert p0 == LayerRow(st, p0, mapRow, offset, py, dispX);
    var col := Col(dispX, offset);
    var px := 7 - col % 8;
    var tile, t1, t2 := FetchTile(gb, st, mapRow, col, py, px);
    while dispX != last
      invariant last <= dispX < LCD_WIDTH
      invariant Cursor(st, mapRow, offset, py, dispX, px, tile, t1, t2)
      invariant pixels[..] == LayerRow(st, p0, mapRow, offset, py, dispX)
      decreases dispX
    {
      px, tile, t1, t2 := LayerStep(gb, st, pixels, mapRow, offset, py, dispX, px, tile, t1, t2);
      LayerRowStep(st, p0, mapRow, offset, py, dispX);
      dispX := dispX - 1;
    }
  }

  /** Drawing column x extends the row drawn down to x by one column. */
  lemma LayerRowStep(st: GbState, p: seq<byte>, mapRow: nat, offset: int, py: int, x: int)
    requires Wf(st) && |p| == LCD_WIDTH && mapRow + 32 <= VRAM_SIZE && 0 <= py < 8 && 0 <= x < LCD_WIDTH
    ensures LayerRow(st, p, mapRow, offset, py, x)[x := LayerPixel(st, mapRow, Col(x, offset), py)]
            == LayerRow(st, p, mapRow, offset, py, x - 1)
  {
  }

  /** A layer row is made of bg_palette entries and what p held. */
  lemma LayerRowColours(st: GbState, p: seq<byte>, mapRow: nat, offset: int, py: int, last: int, x: int)
    requires Wf(st) && |p| == LCD_WIDTH && mapRow + 32 <= VRAM_SIZE && 0 <= py < 8 && 0 <= x < LCD_WIDTH
    ensures var r := LayerRow(st, p, mapRow, offset, py, last);
      r[x] == p[x] || r[x] in st.bgPalette
  {
  }

  // ---------------------------------------------------------------------
  // Background
  // ---------------------------------------------------------------------

  predicate BgEnabled(st: GbState)
    requires Wf(st)
  {
    st.hramIo[IO_LCDC] & LCDC_BG_ENABLE != 0
  }

  /** The background line drawn: LY + SCY in uint8_t arithmetic. */
  function BgY(st: GbState): (y: int)
    requires Wf(st)
    ensures 0 <= y < 256
  {
    (st.hramIo[IO_LY] as int + st.hramIo[IO_SCY] as int) % 256
  }

  /** The start of the map row of that line in the map LCDC selects. */
  function BgMap(st: GbState): (m: nat)
    requires Wf(st)
    ensures m + 32 <= VRAM_SIZE
  {
    (if st.hramIo[IO_LCDC] & LCDC_BG_MAP != 0 then VRAM_BMAP_2 else VRAM_BMAP_1) + (BgY(st) / 8) * 0x20
  }

  /** The V-blank request the background pass makes on line 144. */
  function VBlankFlag(st: GbState): (r: GbState)
    requires Wf(st)
    ensures Wf(r)
  {
    if st.hramIo[IO_LY] == LCD_HEIGHT then
      st.(hramIo := st.hramIo[IO_IF := st.hramIo[IO_IF] | VBLANK_INTR])
    else st
  }

  /** The background pass: the V-blank request, then every column redrawn. */
  function Background(f: Frame): (r: Frame)
    requires FrameOk(f)
    ensures FrameOk(r)
  {
    var st := VBlankFlag(f.st);
    Frame(st, LayerRow(st, f.pixels, BgMap(st), st.hramIo[IO_SCX] as int, BgY(st) % 8, -1))
  }

  /** Two contexts that agree on everything the compositor reads. */
  predicate SameDisplay(a: GbState, b: GbState)
    requires Wf(a) && Wf(b)
  {
    && a.hramIo[IO_LCDC] == b.hramIo[IO_LCDC] && a.hramIo[IO_LY] == b.hramIo[IO_LY]
    && a.hramIo[IO_SCX] == b.hramIo[IO_SCX] && a.hramIo[IO_SCY] == b.hramIo[IO_SCY]
    && a.hramIo[IO_WX] == b.hramIo[IO_WX] && a.wy == b.wy && a.windowClear == b.windowClear
    && a.vram == b.vram && a.oam == b.oam && a.bgPalette == b.bgPalette && a.spPalette == b.spPalette
  }

  /** Writing IF leaves everything the compositor reads alone. */
  lemma IfWriteSameDisplay(st: GbState, flags: byte)
    requires Wf(st)
    ensures Wf(st.(hramIo := st.hramIo[IO_IF := flags]))
    ensures SameDisplay(st.(hramIo := st.hramIo[IO_IF := flags]), st)
  {
  }

  /** Contexts that agree on what the compositor reads agree on every
      decision of the background pass... */
  lemma SameDisplayBackground(a: GbState, b: GbState)
    requires Wf(a) && Wf(b) && SameDisplay(a, b)
    ensures BgEnabled(a) == BgEnabled(b) && BgY(a) == BgY(b) && BgMap(a) == BgMap(b)
  {
  }

  /** ... and of the window pass. */
  lemma SameDisplayWindow(a: GbState, b: GbState)
    requires Wf(a) && Wf(b) && SameDisplay(a, b)
    ensures WindowShown(a) == WindowShown(b) && WinMap(a) == WinMap(b) && WinFirst(a) == WinFirst(b)
  {
  }

  /** ... and on every layer pixel. */
  lemma SameDisplayPixel(a: GbState, b: GbState, mapRow: nat, col: int, py: int)
    requires Wf(a) && Wf(b) && SameDisplay(a, b)
    requires mapRow + 32 <= VRAM_SIZE && 0 <= col < 256 && 0 <= py < 8
    ensures LayerPixel(a, mapRow, col, py) == LayerPixel(b, mapRow, col, py)
  {
  }

  /** The V-blank request changes at most IF... */
  lemma VBlankFlagOnlyIf(st: GbState)
    requires Wf(st)
    ensures VBlankFlag(st) == st.(hramIo := st.hramIo[IO_IF := VBlankFlag(st).hramIo[IO_IF]])
  {
    if st.hramIo[IO_LY] != LCD_HEIGHT {
      assert st.hramIo[IO_IF := st.hramIo[IO_IF]] == st.hramIo;
    }
  }

  /** ... and sets bit 0 of IF exactly on line 144. */
  lemma VBlankFlagIf(st: GbState)
    requires Wf(st)
    ensures VBlankFlag(st).hramIo[IO_IF]
      == if st.hramIo[IO_LY] == LCD_HEIGHT then st.hramIo[IO_IF] | VBLANK_INTR else st.hramIo[IO_IF]
  {
  }

  /** The background of column x is the pixel of map column (x + SCX) mod
      256 and line (LY + SCY) mod 256: the map entry at that column and line
      names the tile, and bit 7 - column mod 8 of its two planes, through
      bg_palette, is the pixel. The V-blank request does not disturb it. */
  lemma BackgroundPixel(f: Frame, x: int)
    requires FrameOk(f) && 0 <= x < LCD_WIDTH
    ensures Background(f).pixels[x]
      == LayerPixel(f.st, BgMap(f.st), (x + f.st.hramIo[IO_SCX] as int) % 256, BgY(f.st) % 8)
  {
    var s1 := VBlankFlag(f.st);
    VBlankFlagOnlyIf(f.st);
    IfWriteSameDisplay(f.st, s1.hramIo[IO_IF]);
    SameDisplayBackground(s1, f.st);
    SameDisplayPixel(s1, f.st, BgMap(f.st), Col(x, f.st.hramIo[IO_SCX] as int), BgY(f.st) % 8);
  }

  /** The interrupt-flag write of the background pass. */
  method RequestVBlank(gb: GameBoy)
    requires gb.Valid()
    modifies gb.hramIo
    ensures gb.State() == VBlankFlag(old(gb.State()))
  {
    ghost var before := gb.State();
    if gb.hramIo[IO_LY] == LCD_HEIGHT {
      var flags := gb.hramIo[IO_IF] | VBLANK_INTR;
      gb.hramIo[IO_IF] := flags;
      assert gb.State() == before.(hramIo := before.hramIo[IO_IF := flags]);
    }
  }

  /** The background pass. */
  method DrawBackground(gb: GameBoy, pixels: array<byte>)
    requires gb.Valid() && pixels.Length == LCD_WIDTH && Apart(gb, pixels)
    modifies gb.hramIo, pixels
    ensures Frame(gb.State(), pixels[..]) == Background(Frame(old(gb.State()), old(pixels[..])))
  {
    var bgY := (gb.hramIo[IO_LY] as int + gb.hramIo[IO_SCY] as int) % 256;
    var bgMap := (if gb.hramIo[IO_LCDC] & LCDC_BG_MAP != 0 then VRAM_BMAP_2 else VRAM_BMAP_1) + (bgY / 8) * 0x20;
    RequestVBlank(gb);
    ghost var st := gb.State();
    assert bgY == BgY(st) && bgMap == BgMap(st);
    DrawLayer(gb, st, pixels, bgMap, gb.hramIo[IO_SCX] as int, bgY % 8, -1);
  }

  // ---------------------------------------------------------------------
  // Window
  // ---------------------------------------------------------------------

  /** The window is drawn when LCDC enables it, the line has reached WY and
      WX is at most 166. */
  predicate WindowShown(st: GbState)
    requires Wf(st)
  {
    st.hramIo[IO_LCDC] & LCDC_WINDOW_ENABLE != 0 && st.hramIo[IO_LY] as int >= st.wy as int && st.hramIo[IO_WX] <= 166
  }

  /** The start of the window-map row of the window's own line counter. */
  function WinMap(st: GbState): (m: nat)
    requires Wf(st)
    ensures m + 32 <= VRAM_SIZE
  {
    (if st.hramIo[IO_LCDC] & LCDC_WINDOW_MAP != 0 then VRAM_BMAP_2 else VRAM_BMAP_1)
      + (st.windowClear as nat / 8) * 0x20
  }

  /** The leftmost screen column the window covers: WX - 7, or 0. */
  function WinFirst(st: GbState): (x: int)
    requires Wf(st)
  {
    if st.hramIo[IO_WX] < 7 then 0 else st.hramIo[IO_WX] as int - 7
  }

  /** How far the window map is shifted against the screen: 7 - WX. */
  function WinOffset(st: GbState): (r: int)
    requires Wf(st)
  {
    7 - st.hramIo[IO_WX] as int
  }

  /** The pixel row within the window's tiles. */
  function WinPy(st: GbState): (py: int)
    ensures 0 <= py < 8
  {
    st.windowClear as int % 8
  }

  /** The row after the window pass: columns from WinFirst on are redrawn
      from the window map, at the window's own line counter. */
  function WindowRow(f: Frame): (r: seq<byte>)
    requires FrameOk(f)
    ensures |r| == LCD_WIDTH
  {
    var st := f.st;
    LayerRow(st, f.pixels, WinMap(st), WinOffset(st), WinPy(st), WinFirst(st) - 1)
  }

  /** The window pass: the row redrawn, then the window line counter
      advanced. */
  function Window(f: Frame): (r: Frame)
    requires FrameOk(f)
    ensures FrameOk(r)
  {
    Frame(f.st.(windowClear := f.st.windowClear + 1), WindowRow(f))
  }

  /** The window overwrites exactly the columns from max(WX - 7, 0) to 159,
      where column x shows window column x - (WX - 7) without wrapping... */
  lemma WindowCovers(f: Frame, x: int)
    requires FrameOk(f) && WindowShown(f.st) && 0 <= x < LCD_WIDTH
    requires x >= f.st.hramIo[IO_WX] as int - 7
    ensures Window(f).pixels[x]
      == LayerPixel(f.st, WinMap(f.st), x - f.st.hramIo[IO_WX] as int + 7, f.st.windowClear as int % 8)
  {
    var wx := f.st.hramIo[IO_WX] as int;
    WindowCoversColumn(f.st, wx, x);
    assert WinOffset(f.st) == 7 - wx && WinPy(f.st) == f.st.windowClear as int % 8;
  }

  /** A covered column lies right of WinFirst - 1 and its layer column does
      not wrap. */
  lemma WindowCoversColumn(st: GbState, wx: int, x: int)
    requires Wf(st) && wx == st.hramIo[IO_WX] as int && 0 <= x < LCD_WIDTH && x >= wx - 7
    ensures x > WinFirst(st) - 1 && Col(x, 7 - wx) == x - wx + 7
  {
  }

  /** ... and leaves the columns to their left alone. */
  lemma WindowLeavesLeft(f: Frame, x: int)
    requires FrameOk(f) && WindowShown(f.st) && 0 <= x < LCD_WIDTH
    requires x < f.st.hramIo[IO_WX] as int - 7
    ensures Window(f).pixels[x] == f.pixels[x]
  {
    assert x < WinFirst(f.st);
  }

  /** The window pass advances window_clear by one, modulo 256, and changes
      nothing else in the context. */
  lemma WindowLineCounter(f: Frame)
    requires FrameOk(f)
    ensures Window(f).st.windowClear as int == (f.st.windowClear as int + 1) % 256
    ensures Window(f).st == f.st.(windowClear := Window(f).st.windowClear)
  {
    var wc := f.st.windowClear;
    if wc == 0xFF {
      assert (wc + 1) as int == 0;
    } else {
      assert (wc + 1) as int == wc as int + 1;
    }
  }

  /** The window line counter advances, with uint8_t wrap-around. */
  method NextWindowLine(gb: GameBoy)
    requires gb.Valid()
    modifies gb
    ensures gb.State() == old(gb.State()).(windowClear := old(gb.windowClear) + 1)
  {
    gb.windowClear := gb.windowClear + 1;
  }

  /** The drawing loop of the window pass. */
  method DrawWindowRow(gb: GameBoy, ghost st: GbState, pixels: array<byte>)
    requires gb.Valid() && gb.State() == st && pixels.Length == LCD_WIDTH && Apart(gb, pixels) && WindowShown(st)
    modifies pixels
    ensures pixels[..] == WindowRow(Frame(st, old(pixels[..])))
  {
    var winLine := (if gb.hramIo[IO_LCDC] & LCDC_WINDOW_MAP != 0 then VRAM_BMAP_2 else VRAM_BMAP_1)
      + (gb.windowClear as nat / 8) * 0x20;
    var first := if gb.hramIo[IO_WX] < 7 then 0 else gb.hramIo[IO_WX] as int - 7;
    var offset := 7 - gb.hramIo[IO_WX] as int;
    var py := gb.windowClear as int % 8;
    assert winLine == WinMap(st) && first == WinFirst(st) && offset == WinOffset(st) && py == WinPy(st);
    ghost var p0 := pixels[..];
    DrawLayer(gb, st, pixels, winLine, offset, py, first - 1);
    WindowRowIsLayer(st, p0);
  }

  lemma WindowRowIsLayer(st: GbState, p: seq<byte>)
    requires FrameOk(Frame(st, p))
    ensures WindowRow(Frame(st, p))
         == LayerRow(st, p, WinMap(st), WinOffset(st), WinPy(st), WinFirst(st) - 1)
  {
  }

  /** The window pass. */
  method DrawWindow(gb: GameBoy, ghost st: GbState, pixels: array<byte>)
    requires gb.Valid() && gb.State() == st && pixels.Length == LCD_WIDTH && Apart(gb, pixels) && WindowShown(st)
    modifies gb, pixels
    ensures gb.State() == st.(windowClear := st.windowClear + 1)
    ensures pixels[..] == WindowRow(Frame(st, old(pixels[..])))
  {
    DrawWindowRow(gb, st, pixels);
    NextWindowLine(gb);
  }

  // ---------------------------------------------------------------------
  // Sprites
  // ---------------------------------------------------------------------

  /** A byte read as the int it is promoted to in the sprite loop's
      comparisons and sums. */
  type Coord = c: int | 0 <= c < 256

  /** An OAM entry: Y and X positions, tile number (bit 0 cleared for 8x16
      sprites) and attribute flags. */
  datatype Sprite = Sprite(y: Coord, x: Coord, tile: byte, flags: byte)

  /** The attribute bits of an OAM entry. */
  predicate FlipX(sp: Sprite)
  {
    sp.flags & OBJ_FLIP_X != 0
  }

  predicate Tall(st: GbState)
    requires Wf(st)
  {
    st.hramIo[IO_LCDC] & LCDC_OBJ_SIZE != 0
  }

  /** The height of every sprite, by LCDC's size bit. */
  function Height(st: GbState): (r: int)
    requires Wf(st)
  {
    if Tall(st) then 16 else 8
  }

  /** OAM entry s. */
  function SpriteOf(st: GbState, s: int): (sp: Sprite)
    requires Wf(st) && 0 <= s < NUM_SPRITES
    ensures Tall(st) ==> sp.tile & 1 == 0
  {
    Sprite(st.oam[4 * s] as int, st.oam[4 * s + 1] as int,
           st.oam[4 * s + 2] & (if Tall(st) then 0xFE else 0xFF), st.oam[4 * s + 3])
  }

  /** The line test of the sprite loop: not skipped when LY + (tall ? 0 : 8)
      is below Y and LY + 16 is not. */
  predicate OnLine(st: GbState, sp: Sprite)
    requires Wf(st)
  {
    !(st.hramIo[IO_LY] as int + (if Tall(st) then 0 else 8) >= sp.y
      || st.hramIo[IO_LY] as int + 16 < sp.y)
  }

  /** The column test: X is neither 0 nor 168 or more. */
  predicate InView(sp: Sprite)
  {
    !(sp.x == 0 || sp.x >= 168)
  }

  /** A sprite covers screen lines Y - 16 up to Y - 16 + height - 1: the
      line test is that range, read in both directions. */
  lemma OnLineRange(st: GbState, sp: Sprite)
    requires Wf(st)
    ensures OnLine(st, sp) <==>
      sp.y - 16 <= st.hramIo[IO_LY] as int < sp.y - 16 + Height(st)
  {
  }

  /** The tile row of the sprite on this line, counted from its top, or from
      its bottom when it is flipped vertically. */
  function SpriteRow(st: GbState, sp: Sprite): (py: int)
    requires Wf(st) && OnLine(st, sp)
    ensures 0 <= py < Height(st)
  {
    var py := st.hramIo[IO_LY] as int - sp.y + 16;
    if sp.flags & OBJ_FLIP_Y != 0 then (if Tall(st) then 15 else 7) - py else py
  }

  /** The offset of the two bytes of that row: always in the first tile
      block, unsigned. */
  function SpriteRowAddr(st: GbState, sp: Sprite): (a: nat)
    requires Wf(st) && OnLine(st, sp)
    ensures a + 1 < VRAM_BMAP_1
  {
    VRAM_TILES_1 + sp.tile as nat * 0x10 + 2 * SpriteRow(st, sp)
  }

  /** The screen columns the sprite covers: from X - 8 (or 0) up to X (or
      160), exclusive. */
  function SpriteFirst(sp: Sprite): (r: int)
  {
    if sp.x < 8 then 0 else sp.x - 8
  }

  function SpriteEnd(sp: Sprite): (r: int)
  {
    if sp.x < LCD_WIDTH then sp.x else LCD_WIDTH
  }

  /** The bit of the tile row that screen column x shows: bit 7 at the
      sprite's left edge X - 8, or bit 0 there when it is flipped
      horizontally. */
  function SpriteBit(sp: Sprite, x: int): (r: int)
  {
    if FlipX(sp) then x - sp.x + 8 else sp.x - 1 - x
  }

  /** The covered columns lie on screen and show bits 0 to 7; flipping mirrors
      the bit order. */
  lemma SpriteColumns(sp: Sprite, x: int)
    requires InView(sp) && SpriteFirst(sp) <= x < SpriteEnd(sp)
    ensures 0 <= x < LCD_WIDTH && sp.x - 8 <= x < sp.x
    ensures 0 <= SpriteBit(sp, x) < 8
    ensures !FlipX(sp) ==> SpriteBit(sp, x) == 7 - (x - (sp.x - 8))
    ensures FlipX(sp) ==> SpriteBit(sp, x) == x - (sp.x - 8)
  {
  }

  /** What a sprite pixel of colour number c does to the pixel cur under it:
      colour 0 is transparent; a sprite behind the background shows only
      where cur equals bg_palette[0]; the palette bit picks the second
      sprite palette. */
  function SpritePut(st: GbState, sp: Sprite, c: byte, cur: byte): (r: byte)
    requires Wf(st) && c <= 3
  {
    var write := if sp.flags & OBJ_PRIORITY != 0 then c != 0 && cur & 0x3 == st.bgPalette[0] else c != 0;
    if write then (if sp.flags & OBJ_PALETTE != 0 then st.spPalette[c + 4] else st.spPalette[c]) else cur
  }

  /** The colour number that column x of a visible sprite takes from the
      tile row lo, hi. */
  function RowColour(sp: Sprite, lo: byte, hi: byte, x: int): (c: byte)
    requires InView(sp) && SpriteFirst(sp) <= x < SpriteEnd(sp)
    ensures c <= 3
  {
    SpriteColumns(sp, x);
    Colour(Shr(lo, SpriteBit(sp, x)), Shr(hi, SpriteBit(sp, x)))
  }

  /** The colour number of column x of a visible sprite. */
  function SpriteColour(st: GbState, sp: Sprite, x: int): (c: byte)
    requires Wf(st) && OnLine(st, sp) && InView(sp) && SpriteFirst(sp) <= x < SpriteEnd(sp)
    ensures c <= 3
  {
    var a := SpriteRowAddr(st, sp);
    RowColour(sp, st.vram[a], st.vram[a + 1], x)
  }

  /** Drawing OAM entry s over the row p. */
  function DrawSpriteSpec(st: GbState, p: seq<byte>, s: int): (r: seq<byte>)
    requires Wf(st) && |p| == LCD_WIDTH && 0 <= s < NUM_SPRITES
    ensures |r| == LCD_WIDTH
  {
    var sp := SpriteOf(st, s);
    if !OnLine(st, sp) || !InView(sp) then p
    else seq(LCD_WIDTH, x requires 0 <= x < LCD_WIDTH =>
               if SpriteFirst(sp) <= x < SpriteEnd(sp) then SpritePut(st, sp, SpriteColour(st, sp, x), p[x]) else p[x])
  }

  /** The row after the sprite loop has drawn entries 39 down to k. */
  function SpritesFrom(st: GbState, p: seq<byte>, k: int): (r: seq<byte>)
    requires Wf(st) && |p| == LCD_WIDTH && 0 <= k <= NUM_SPRITES
    ensures |r| == LCD_WIDTH
    decreases NUM_SPRITES - k
  {
    if k == NUM_SPRITES then p else DrawSpriteSpec(st, SpritesFrom(st, p, k + 1), k)
  }

  /** The sprite pass. */
  function Sprites(f: Frame): (r: Frame)
    requires FrameOk(f)
    ensures FrameOk(r)
  {
    Frame(f.st, SpritesFrom(f.st, f.pixels, 0))
  }

  /** What one sprite does to one column: a pixel changes only inside the
      columns the sprite covers, only for a non-zero colour, only over
      bg_palette[0] when the sprite is behind the background, and only to the
      sprite-palette entry its palette bit selects. */
  lemma SpriteWrites(st: GbState, p: seq<byte>, s: int, x: int)
    requires Wf(st) && |p| == LCD_WIDTH && 0 <= s < NUM_SPRITES && 0 <= x < LCD_WIDTH
    requires DrawSpriteSpec(st, p, s)[x] != p[x]
    ensures var sp := SpriteOf(st, s);
      && OnLine(st, sp) && InView(sp) && SpriteFirst(sp) <= x < SpriteEnd(sp)
      && SpriteColour(st, sp, x) != 0
      && (sp.flags & OBJ_PRIORITY != 0 ==> p[x] & 0x3 == st.bgPalette[0])
      && DrawSpriteSpec(st, p, s)[x]
         == if sp.flags & OBJ_PALETTE != 0 then st.spPalette[SpriteColour(st, sp, x) + 4]
            else st.spPalette[SpriteColour(st, sp, x)]
  {
  }

  /** Sprite s draws column x in front of the background with a non-zero
      colour, whatever lies under it. */
  predicate OpaqueAt(st: GbState, s: int, x: int)
    requires Wf(st) && 0 <= s < NUM_SPRITES && 0 <= x < LCD_WIDTH
  {
    var sp := SpriteOf(st, s);
    OnLine(st, sp) && InView(sp) && SpriteFirst(sp) <= x < SpriteEnd(sp)
    && sp.flags & OBJ_PRIORITY == 0 && SpriteColour(st, sp, x) != 0
  }

  /** Sprite s does not touch column x at all. */
  predicate Misses(st: GbState, s: int, x: int)
    requires Wf(st) && 0 <= s < NUM_SPRITES && 0 <= x < LCD_WIDTH
  {
    var sp := SpriteOf(st, s);
    !(OnLine(st, sp) && InView(sp) && SpriteFirst(sp) <= x < SpriteEnd(sp))
  }

  /** The colour an opaque sprite pixel shows. */
  function OpaqueColour(st: GbState, s: int, x: int): (r: byte)
    requires Wf(st) && 0 <= s < NUM_SPRITES && 0 <= x < LCD_WIDTH && OpaqueAt(st, s, x)
  {
    var sp := SpriteOf(st, s);
    if sp.flags & OBJ_PALETTE != 0 then st.spPalette[SpriteColour(st, sp, x) + 4]
    else st.spPalette[SpriteColour(st, sp, x)]
  }

  /** The loop runs from entry 39 down to entry 0, so among the sprites on a
      column the lowest-numbered one is drawn last: an opaque pixel of entry
      i shows in the finished row when no lower entry touches the column. */
  lemma {:induction false} LowestIndexWins(st: GbState, p: seq<byte>, k: int, i: int, x: int)
    requires Wf(st) && |p| == LCD_WIDTH && 0 <= k <= i < NUM_SPRITES && 0 <= x < LCD_WIDTH
    requires OpaqueAt(st, i, x)
    requires forall j :: k <= j < i ==> Misses(st, j, x)
    ensures SpritesFrom(st, p, k)[x] == OpaqueColour(st, i, x)
    decreases i - k
  {
    if k < i {
      LowestIndexWins(st, p, k + 1, i, x);
      MissKeeps(st, SpritesFrom(st, p, k + 1), k, x);
    } else {
      OpaqueDraws(st, SpritesFrom(st, p, i + 1), i, x);
    }
  }

  lemma MissKeeps(st: GbState, p: seq<byte>, s: int, x: int)
    requires Wf(st) && |p| == LCD_WIDTH && 0 <= s < NUM_SPRITES && 0 <= x < LCD_WIDTH
    requires Misses(st, s, x)
    ensures DrawSpriteSpec(st, p, s)[x] == p[x]
  {
  }

  lemma OpaqueDraws(st: GbState, p: seq<byte>, s: int, x: int)
    requires Wf(st) && |p| == LCD_WIDTH && 0 <= s < NUM_SPRITES && 0 <= x < LCD_WIDTH
    requires OpaqueAt(st, s, x)
    ensures DrawSpriteSpec(st, p, s)[x] == OpaqueColour(st, s, x)
  {
  }

  /** Column x of the row is 0 or an entry of one of the palettes. */
  predicate PaletteEntry(st: GbState, v: byte)
  {
    v == 0 || v in st.bgPalette || v in st.spPalette
  }

  predicate PaletteRow(st: GbState, p: seq<byte>)
  {
    forall x :: 0 <= x < |p| ==> PaletteEntry(st, p[x])
  }

  /** Drawing a sprite writes only sprite-palette entries. */
  lemma DrawSpritePalette(st: GbState, p: seq<byte>, s: int)
    requires Wf(st) && |p| == LCD_WIDTH && 0 <= s < NUM_SPRITES && PaletteRow(st, p)
    ensures PaletteRow(st, DrawSpriteSpec(st, p, s))
  {
    var r := DrawSpriteSpec(st, p, s);
    forall x | 0 <= x < LCD_WIDTH
      ensures PaletteEntry(st, r[x])
    {
      if r[x] != p[x] {
        SpriteWrites(st, p, s, x);
      }
    }
  }

  /** The sprite loop keeps the row made of palette entries. */
  lemma {:induction false} SpritesPalette(st: GbState, p: seq<byte>, k: int)
    requires Wf(st) && |p| == LCD_WIDTH && 0 <= k <= NUM_SPRITES && PaletteRow(st, p)
    ensures PaletteRow(st, SpritesFrom(st, p, k))
    decreases NUM_SPRITES - k
  {
    if k < NUM_SPRITES {
      SpritesPalette(st, p, k + 1);
      DrawSpritePalette(st, SpritesFrom(st, p, k + 1), k);
    }
  }

  /** One column of a sprite loop: the pixel under the sprite is replaced as
      SpritePut says, and the bit planes advance. */
  method SpriteStep(gb: GameBoy, ghost st: GbState, pixels: array<byte>, sp: Sprite, x: int,
                    t1: byte, t2: byte, ghost lo: byte, ghost hi: byte, ghost bit: int)
    returns (u1: byte, u2: byte)
    requires gb.Valid() && Wf(st) && gb.bgPalette[..] == st.bgPalette && gb.spPalette[..] == st.spPalette
    requires pixels.Length == LCD_WIDTH && Apart(gb, pixels)
    requires 0 <= x < LCD_WIDTH && 0 <= bit < 8 && t1 == Shr(lo, bit) && t2 == Shr(hi, bit)
    modifies pixels
    ensures u1 == Shr(lo, bit + 1) && u2 == Shr(hi, bit + 1)
    ensures pixels[..] == old(pixels[..])[x := SpritePut(st, sp, Colour(t1, t2), old(pixels[x]))]
  {
    var c := Colour(t1, t2);
    if sp.flags & OBJ_PRIORITY != 0 {
      if c != 0 && pixels[x] & 0x3 == gb.bgPalette[0] {
        pixels[x] := if sp.flags & OBJ_PALETTE != 0 then gb.spPalette[c + 4] else gb.spPalette[c];
      }
    } else {
      if c != 0 {
        pixels[x] := if sp.flags & OBJ_PALETTE != 0 then gb.spPalette[c + 4] else gb.spPalette[c];
      }
    }
    u1, u2 := ShiftPlanes(t1, t2, lo, hi, bit);
  }

  /** The columns first <= x < upTo of the row after drawing them, the others
      as in p. */
  ghost function SpriteDrawn(st: GbState, sp: Sprite, row1: byte, row2: byte, p: seq<byte>, lo: int, hi: int): (r: seq<byte>)
    requires Wf(st) && |p| == LCD_WIDTH && InView(sp)
    requires SpriteFirst(sp) <= lo <= hi <= SpriteEnd(sp)
    ensures |r| == LCD_WIDTH
  {
    seq(LCD_WIDTH, x requires 0 <= x < LCD_WIDTH =>
          if lo <= x < hi then SpritePut(st, sp, RowColour(sp, row1, row2, x), p[x]) else p[x])
  }

  /** The bit planes t1 and t2 hold the tile row shifted to the bit that
      column x shows. */
  ghost predicate SpriteCursor(sp: Sprite, lo: byte, hi: byte, x: int, t1: byte, t2: byte)
  {
    0 <= SpriteBit(sp, x) <= 8 && t1 == Shr(lo, SpriteBit(sp, x)) && t2 == Shr(hi, SpriteBit(sp, x))
  }

  /** One column x of a sprite: the pixel under it is replaced as
      SpritePut says with the sprite's colour there, and the bit planes move
      on to the bit of column x + 1 (flipped) or x - 1 (not flipped). */
  method SpriteColumn(gb: GameBoy, ghost st: GbState, pixels: array<byte>, sp: Sprite, x: int,
                      t1: byte, t2: byte, ghost lo: byte, ghost hi: byte)
    returns (u1: byte, u2: byte)
    requires gb.Valid() && Wf(st) && gb.bgPalette[..] == st.bgPalette && gb.spPalette[..] == st.spPalette
    requires pixels.Length == LCD_WIDTH && Apart(gb, pixels)
    requires InView(sp) && SpriteFirst(sp) <= x < SpriteEnd(sp)
    requires SpriteCursor(sp, lo, hi, x, t1, t2)
    modifies pixels
    ensures SpriteCursor(sp, lo, hi, if FlipX(sp) then x + 1 else x - 1, u1, u2)
    ensures pixels[..] == old(pixels[..])[x := SpritePut(st, sp, RowColour(sp, lo, hi, x), old(pixels[x]))]
  {
    SpriteColumns(sp, x);
    u1, u2 := SpriteStep(gb, st, pixels, sp, x, t1, t2, lo, hi, SpriteBit(sp, x));
  }

  /** Drawing column b next to the drawn columns a <= x < b. */
  lemma SpriteDrawnRight(st: GbState, sp: Sprite, row1: byte, row2: byte, p: seq<byte>, a: int, b: int)
    requires Wf(st) && |p| == LCD_WIDTH && InView(sp) && SpriteFirst(sp) <= a <= b < SpriteEnd(sp)
    ensures var q := SpriteDrawn(st, sp, row1, row2, p, a, b);
      q[b := SpritePut(st, sp, RowColour(sp, row1, row2, b), q[b])] == SpriteDrawn(st, sp, row1, row2, p, a, b + 1)
  {
    SpriteColumns(sp, b);
  }

  /** Drawing column a - 1 next to the drawn columns a <= x < b. */
  lemma SpriteDrawnLeft(st: GbState, sp: Sprite, row1: byte, row2: byte, p: seq<byte>, a: int, b: int)
    requires Wf(st) && |p| == LCD_WIDTH && InView(sp) && SpriteFirst(sp) < a <= b <= SpriteEnd(sp)
    ensures var q := SpriteDrawn(st, sp, row1, row2, p, a, b);
      q[a - 1 := SpritePut(st, sp, RowColour(sp, row1, row2, a - 1), q[a - 1])] == SpriteDrawn(st, sp, row1, row2, p, a - 1, b)
  {
    SpriteColumns(sp, a - 1);
  }

  /** The flipped loop's step: column x joins the drawn columns a <= c < x. */
  method ColumnRight(gb: GameBoy, ghost st: GbState, pixels: array<byte>, sp: Sprite, x: int,
                     t1: byte, t2: byte, ghost row1: byte, ghost row2: byte, ghost p0: seq<byte>, ghost a: int)
    returns (u1: byte, u2: byte)
    requires gb.Valid() && Wf(st) && gb.bgPalette[..] == st.bgPalette && gb.spPalette[..] == st.spPalette
    requires pixels.Length == LCD_WIDTH && Apart(gb, pixels) && |p0| == LCD_WIDTH
    requires InView(sp) && FlipX(sp) && SpriteFirst(sp) <= a <= x < SpriteEnd(sp)
    requires SpriteCursor(sp, row1, row2, x, t1, t2)
    requires pixels[..] == SpriteDrawn(st, sp, row1, row2, p0, a, x)
    modifies pixels
    ensures SpriteCursor(sp, row1, row2, x + 1, u1, u2)
    ensures pixels[..] == SpriteDrawn(st, sp, row1, row2, p0, a, x + 1)
  {
    SpriteDrawnRight(st, sp, row1, row2, p0, a, x);
    u1, u2 := SpriteColumn(gb, st, pixels, sp, x, t1, t2, row1, row2);
  }

  /** The unflipped loop's step: column x joins the drawn columns x < c < b. */
  method ColumnLeft(gb: GameBoy, ghost st: GbState, pixels: array<byte>, sp: Sprite, x: int,
                    t1: byte, t2: byte, ghost row1: byte, ghost row2: byte, ghost p0: seq<byte>, ghost b: int)
    returns (u1: byte, u2: byte)
    requires gb.Valid() && Wf(st) && gb.bgPalette[..] == st.bgPalette && gb.spPalette[..] == st.spPalette
    requires pixels.Length == LCD_WIDTH && Apart(gb, pixels) && |p0| == LCD_WIDTH
    requires InView(sp) && !FlipX(sp) && SpriteFirst(sp) <= x < b <= SpriteEnd(sp)
    requires SpriteCursor(sp, row1, row2, x, t1, t2)
    requires pixels[..] == SpriteDrawn(st, sp, row1, row2, p0, x + 1, b)
    modifies pixels
    ensures SpriteCursor(sp, row1, row2, x - 1, u1, u2)
    ensures pixels[..] == SpriteDrawn(st, sp, row1, row2, p0, x, b)
  {
    SpriteDrawnLeft(st, sp, row1, row2, p0, x + 1, b);
    u1, u2 := SpriteColumn(gb, st, pixels, sp, x, t1, t2, row1, row2);
  }

  /** A horizontally flipped sprite, drawn left to right: bit 0 of the tile
      row goes to the sprite's left edge. */
  method DrawFlipped(gb: GameBoy, ghost st: GbState, pixels: array<byte>, sp: Sprite, row1: byte, row2: byte)
    requires gb.Valid() && Wf(st) && gb.bgPalette[..] == st.bgPalette && gb.spPalette[..] == st.spPalette
    requires pixels.Length == LCD_WIDTH && Apart(gb, pixels)
    requires InView(sp) && FlipX(sp)
    modifies pixels
    ensures pixels[..] == SpriteDrawn(st, sp, row1, row2, old(pixels[..]), SpriteFirst(sp), SpriteEnd(sp))
  {
    ghost var p0 := pixels[..];
    var start := if sp.x < 8 then 0 else sp.x - 8;
    var end := if sp.x < LCD_WIDTH then sp.x else LCD_WIDTH;
    var t1 := Shr(row1, 8 - sp.x + start);
    var t2 := Shr(row2, 8 - sp.x + start);
    var dispX := start;
    while dispX != end
      invariant start <= dispX <= end
      invariant SpriteCursor(sp, row1, row2, dispX, t1, t2)
      invariant pixels[..] == SpriteDrawn(st, sp, row1, row2, p0, start, dispX)
      decreases end - dispX
    {
      t1, t2 := ColumnRight(gb, st, pixels, sp, dispX, t1, t2, row1, row2, p0, start);
      dispX := dispX + 1;
    }
  }

  /** A sprite that is not flipped horizontally, drawn right to left: bit 0
      of the tile row goes to the sprite's right edge. */
  method DrawUnflipped(gb: GameBoy, ghost st: GbState, pixels: array<byte>, sp: Sprite, row1: byte, row2: byte)
    requires gb.Valid() && Wf(st) && gb.bgPalette[..] == st.bgPalette && gb.spPalette[..] == st.spPalette
    requires pixels.Length == LCD_WIDTH && Apart(gb, pixels)
    requires InView(sp) && !FlipX(sp)
    modifies pixels
    ensures pixels[..] == SpriteDrawn(st, sp, row1, row2, old(pixels[..]), SpriteFirst(sp), SpriteEnd(sp))
  {
    ghost var p0 := pixels[..];
    var start := (if sp.x < LCD_WIDTH then sp.x else LCD_WIDTH) - 1;
    var end := (if sp.x < 8 then 0 else sp.x - 8) - 1;
    var t1 := Shr(row1, sp.x - (start + 1));
    var t2 := Shr(row2, sp.x - (start + 1));
    var dispX := start;
    while dispX != end
      invariant end <= dispX <= start
      invariant SpriteCursor(sp, row1, row2, dispX, t1, t2)
      invariant pixels[..] == SpriteDrawn(st, sp, row1, row2, p0, dispX + 1, start + 1)
      decreases dispX - end
    {
      t1, t2 := ColumnLeft(gb, st, pixels, sp, dispX, t1, t2, row1, row2, p0, start + 1);
      dispX := dispX - 1;
    }
  }

  /** Drawing a visible sprite redraws exactly the columns it covers. */
  lemma DrawSpriteSpecColumns(st: GbState, p: seq<byte>, s: int)
    requires Wf(st) && |p| == LCD_WIDTH && 0 <= s < NUM_SPRITES
    ensures var sp := SpriteOf(st, s);
      && (!OnLine(st, sp) || !InView(sp) ==> DrawSpriteSpec(st, p, s) == p)
      && (OnLine(st, sp) && InView(sp) ==>
            DrawSpriteSpec(st, p, s)
            == SpriteDrawn(st, sp, st.vram[SpriteRowAddr(st, sp)], st.vram[SpriteRowAddr(st, sp) + 1],
                           p, SpriteFirst(sp), SpriteEnd(sp)))
  {
  }

  /** OAM entry s, read as the sprite loop reads it. */
  method ReadSprite(gb: GameBoy, s: int) returns (sp: Sprite)
    requires gb.Valid() && 0 <= s < NUM_SPRITES
    ensures sp == SpriteOf(gb.State(), s)
  {
    var tall := gb.hramIo[IO_LCDC] & LCDC_OBJ_SIZE != 0;
    sp := Sprite(gb.oam[4 * s] as int, gb.oam[4 * s + 1] as int,
                 gb.oam[4 * s + 2] & (if tall then 0xFE else 0xFF), gb.oam[4 * s + 3]);
  }

  /** The two bytes of the tile row a sprite shows on this line. */
  method ReadSpriteRow(gb: GameBoy, sp: Sprite) returns (t1: byte, t2: byte)
    requires gb.Valid() && OnLine(gb.State(), sp)
    ensures t1 == gb.vram[SpriteRowAddr(gb.State(), sp)] && t2 == gb.vram[SpriteRowAddr(gb.State(), sp) + 1]
  {
    var tall := gb.hramIo[IO_LCDC] & LCDC_OBJ_SIZE != 0;
    var py := gb.hramIo[IO_LY] as int - sp.y + 16;
    if sp.flags & OBJ_FLIP_Y != 0 {
      py := (if tall then 15 else 7) - py;
    }
    assert py == SpriteRow(gb.State(), sp);
    t1 := gb.vram[VRAM_TILES_1 + sp.tile as nat * 0x10 + 2 * py];
    t2 := gb.vram[VRAM_TILES_1 + sp.tile as nat * 0x10 + 2 * py + 1];
  }

  /** One iteration of the sprite loop: OAM entry s, skipped when it is off
      this line or off screen. */
  method DrawSprite(gb: GameBoy, pixels: array<byte>, s: int)
    requires gb.Valid() && pixels.Length == LCD_WIDTH && Apart(gb, pixels) && 0 <= s < NUM_SPRITES
    modifies pixels
    ensures pixels[..] == DrawSpriteSpec(gb.State(), old(pixels[..]), s)
  {
    ghost var st := gb.State();
    DrawSpriteSpecColumns(st, pixels[..], s);
    var sp := ReadSprite(gb, s);
    var ly := gb.hramIo[IO_LY] as int;
    if ly + (if gb.hramIo[IO_LCDC] & LCDC_OBJ_SIZE != 0 then 0 else 8) >= sp.y || ly + 16 < sp.y {
      assert !OnLine(st, sp);
      return;
    }
    if sp.x == 0 || sp.x >= 168 {
      return;
    }
    DrawShown(gb, st, pixels, sp);
  }

  /** The drawing half of that iteration, for an entry on this line and on
      screen: its tile row is read and drawn in the direction FlipX says. */
  method DrawShown(gb: GameBoy, ghost st: GbState, pixels: array<byte>, sp: Sprite)
    requires gb.Valid() && gb.State() == st && pixels.Length == LCD_WIDTH && Apart(gb, pixels)
    requires OnLine(st, sp) && InView(sp)
    modifies pixels
    ensures pixels[..] == SpriteDrawn(st, sp, st.vram[SpriteRowAddr(st, sp)], st.vram[SpriteRowAddr(st, sp) + 1],
                                      old(pixels[..]), SpriteFirst(sp), SpriteEnd(sp))
  {
    var t1, t2 := ReadSpriteRow(gb, sp);
    if FlipX(sp) {
      DrawFlipped(gb, st, pixels, sp, t1, t2);
    } else {
      DrawUnflipped(gb, st, pixels, sp, t1, t2);
    }
  }

  /** The sprite pass: OAM entries 39 down to 0. */
  method DrawSprites(gb: GameBoy, pixels: array<byte>)
    requires gb.Valid() && pixels.Length == LCD_WIDTH && Apart(gb, pixels)
    modifies pixels
    ensures pixels[..] == Sprites(Frame(gb.State(), old(pixels[..]))).pixels
  {
    ghost var st := gb.State();
    ghost var p0 := pixels[..];
    var s: int := NUM_SPRITES - 1;
    while s != -1
      invariant -1 <= s < NUM_SPRITES
      invariant pixels[..] == SpritesFrom(st, p0, s + 1)
      decreases s
    {
      DrawSprite(gb, pixels, s);
      s := s - 1;
    }
  }

  // ---------------------------------------------------------------------
  // The whole line
  // ---------------------------------------------------------------------

  /** The result of gpu_draw_line: the new context and the call of the
      lcd_draw_line callback, if any. */
  datatype Drawn = Drawn(st: GbState, line: Option<Line>)

  /** Nothing is drawn when the callback is not set or LCDC is 0. */
  predicate Skipped(st: GbState)
    requires Wf(st)
  {
    !st.lcdDrawLine || st.hramIo[IO_LCDC] == 0x00
  }

  predicate ObjEnabled(st: GbState)
    requires Wf(st)
  {
    st.hramIo[IO_LCDC] & LCDC_OBJ_ENABLE != 0
  }

  /** The three passes, each run when LCDC enables it (the window also needs
      WindowShown). */
  function BgStage(f: Frame): (r: Frame)
    requires FrameOk(f)
    ensures FrameOk(r)
  {
    if BgEnabled(f.st) then Background(f) else f
  }

  function WindowStage(f: Frame): (r: Frame)
    requires FrameOk(f)
    ensures FrameOk(r)
  {
    if WindowShown(f.st) then Window(f) else f
  }

  function SpriteStage(f: Frame): (r: Frame)
    requires FrameOk(f)
    ensures FrameOk(r)
  {
    if ObjEnabled(f.st) then Sprites(f) else f
  }

  /** The zeroed row buffer through the three passes. */
  function LineFrame(st: GbState): (r: Frame)
    requires Wf(st)
    ensures FrameOk(r)
  {
    SpriteStage(WindowStage(BgStage(Frame(st, Blank()))))
  }

  function DrawLineSpec(st: GbState): (r: Drawn)
    requires Wf(st)
    ensures Wf(r.st)
  {
    if Skipped(st) then Drawn(st, None)
    else Drawn(LineFrame(st).st, Some(Line(LineFrame(st).pixels, st.hramIo[IO_LY])))
  }

  /** The background block of gpu_draw_line. */
  method BackgroundPass(gb: GameBoy, pixels: array<byte>)
    requires gb.Valid() && pixels.Length == LCD_WIDTH && Apart(gb, pixels)
    modifies gb.hramIo, pixels
    ensures Frame(gb.State(), pixels[..]) == BgStage(Frame(old(gb.State()), old(pixels[..])))
  {
    if BgEnabled(gb.State()) {
      DrawBackground(gb, pixels);
    }
  }

  /** The window block of gpu_draw_line. */
  method WindowPass(gb: GameBoy, ghost st: GbState, pixels: array<byte>)
    requires gb.Valid() && gb.State() == st && pixels.Length == LCD_WIDTH && Apart(gb, pixels)
    modifies gb, pixels
    ensures Frame(gb.State(), pixels[..]) == WindowStage(Frame(st, old(pixels[..])))
  {
    if WindowShown(gb.State()) {
      DrawWindow(gb, st, pixels);
    }
  }

  /** The sprite block of gpu_draw_line. */
  method SpritePass(gb: GameBoy, pixels: array<byte>)
    requires gb.Valid() && pixels.Length == LCD_WIDTH && Apart(gb, pixels)
    modifies pixels
    ensures Frame(gb.State(), pixels[..]) == SpriteStage(Frame(gb.State(), old(pixels[..])))
  {
    if ObjEnabled(gb.State()) {
      DrawSprites(gb, pixels);
    }
  }

  /** gpu_draw_line. */
  method GpuDrawLine(gb: GameBoy) returns (line: Option<Line>)
    requires gb.Valid()
    modifies gb, gb.hramIo
    ensures Drawn(gb.State(), line) == DrawLineSpec(old(gb.State()))
  {
    var pixels := new byte[LCD_WIDTH](_ => 0);
    if !gb.lcdDrawLine {
      return None;
    }
    if gb.hramIo[IO_LCDC] == 0x00 {
      return None;
    }
    ghost var f0 := Frame(gb.State(), pixels[..]);
    assert f0.pixels == Blank();
    BackgroundPass(gb, pixels);
    WindowPass(gb, gb.State(), pixels);
    SpritePass(gb, pixels);
    StagesKeepLy(f0);
    line := Some(Line(pixels[..], gb.hramIo[IO_LY]));
  }

  // ---------------------------------------------------------------------
  // Properties of the whole line
  // ---------------------------------------------------------------------

  /** The function returns without drawing and without changing anything
      exactly when the callback is missing or LCDC is 0. */
  lemma SkipIff(st: GbState)
    requires Wf(st)
    ensures DrawLineSpec(st).line.None? <==> Skipped(st)
    ensures Skipped(st) ==> DrawLineSpec(st).st == st
  {
  }

  /** The background pass changes at most IF, by the V-blank request. */
  lemma BgStageState(f: Frame)
    requires FrameOk(f)
    ensures BgStage(f).st == f.st.(hramIo := f.st.hramIo[IO_IF := BgStage(f).st.hramIo[IO_IF]])
    ensures BgStage(f).st.hramIo[IO_IF]
      == if BgEnabled(f.st) && f.st.hramIo[IO_LY] == LCD_HEIGHT then f.st.hramIo[IO_IF] | VBLANK_INTR
         else f.st.hramIo[IO_IF]
    ensures SameDisplay(BgStage(f).st, f.st)
  {
    if BgEnabled(f.st) {
      VBlankFlagOnlyIf(f.st);
      VBlankFlagIf(f.st);
    } else {
      assert f.st.hramIo[IO_IF := f.st.hramIo[IO_IF]] == f.st.hramIo;
    }
    IfWriteSameDisplay(f.st, BgStage(f).st.hramIo[IO_IF]);
  }

  /** The window pass changes at most the window line counter, which it
      advances exactly when the window is shown. */
  lemma WindowStageState(f: Frame)
    requires FrameOk(f)
    ensures WindowStage(f).st
      == f.st.(windowClear := if WindowShown(f.st) then f.st.windowClear + 1 else f.st.windowClear)
  {
  }

  /** The sprite pass changes nothing in the context. */
  lemma SpriteStageState(f: Frame)
    requires FrameOk(f)
    ensures SpriteStage(f).st == f.st
  {
  }

  /** LY is the same after the three passes. */
  lemma StagesKeepLy(f: Frame)
    requires FrameOk(f)
    ensures SpriteStage(WindowStage(BgStage(f))).st.hramIo[IO_LY] == f.st.hramIo[IO_LY]
  {
    BgStageState(f);
    WindowStageState(BgStage(f));
    SpriteStageState(WindowStage(BgStage(f)));
  }

  /** A drawn line changes only IF, which gains bit 0 on line 144 when the
      background is enabled, and the window line counter, which advances by
      one exactly when the window is drawn; the callback gets line LY. */
  lemma LineSideEffects(st: GbState)
    requires Wf(st) && !Skipped(st)
    ensures var d := DrawLineSpec(st);
      && d.line.Some? && d.line.value.ly == st.hramIo[IO_LY]
      && d.st == st.(hramIo := st.hramIo[IO_IF := if BgEnabled(st) && st.hramIo[IO_LY] == 144
                                                 then st.hramIo[IO_IF] | VBLANK_INTR else st.hramIo[IO_IF]],
                     windowClear := if WindowShown(st) then st.windowClear + 1 else st.windowClear)
  {
    var f0 := Frame(st, Blank());
    BgStageState(f0);
    var f1 := BgStage(f0);
    SameDisplayWindow(f1.st, st);
    WindowStageState(f1);
    SpriteStageState(WindowStage(f1));
  }

  /** A row whose pixels are 0 or palette entries of its context. */
  predicate InPalettes(f: Frame)
  {
    PaletteRow(f.st, f.pixels)
  }

  /** The background pass keeps the palettes and writes bg_palette
      entries. */
  lemma BgStageColours(f: Frame)
    requires FrameOk(f) && InPalettes(f)
    ensures InPalettes(BgStage(f))
    ensures BgStage(f).st.bgPalette == f.st.bgPalette && BgStage(f).st.spPalette == f.st.spPalette
  {
    BgStageState(f);
    if BgEnabled(f.st) {
      var st := VBlankFlag(f.st);
      var r := Background(f);
      forall x | 0 <= x < LCD_WIDTH
        ensures PaletteEntry(r.st, r.pixels[x])
      {
        LayerRowColours(st, f.pixels, BgMap(st), st.hramIo[IO_SCX] as int, BgY(st) % 8, -1, x);
      }
    }
  }

  /** The window pass keeps the palettes and writes bg_palette entries. */
  lemma WindowStageColours(f: Frame)
    requires FrameOk(f) && InPalettes(f)
    ensures InPalettes(WindowStage(f))
    ensures WindowStage(f).st.bgPalette == f.st.bgPalette && WindowStage(f).st.spPalette == f.st.spPalette
  {
    if WindowShown(f.st) {
      var st := f.st;
      var r := Window(f);
      forall x | 0 <= x < LCD_WIDTH
        ensures PaletteEntry(r.st, r.pixels[x])
      {
        LayerRowColours(st, f.pixels, WinMap(st), 7 - st.hramIo[IO_WX] as int, st.windowClear as int % 8, WinFirst(st) - 1, x);
      }
    }
  }

  /** The sprite pass writes sp_palette entries. */
  lemma SpriteStageColours(f: Frame)
    requires FrameOk(f) && InPalettes(f)
    ensures InPalettes(SpriteStage(f))
  {
    if ObjEnabled(f.st) {
      SpritesPalette(f.st, f.pixels, 0);
    }
  }

  /** Every pixel handed to the callback is 0 or an entry of bg_palette or
      sp_palette. */
  lemma LinePalette(st: GbState)
    requires Wf(st) && !Skipped(st)
    ensures var line := DrawLineSpec(st).line;
      && line.Some? && |line.value.pixels| == LCD_WIDTH
      && PaletteRow(st, line.value.pixels)
  {
    var f0 := Frame(st, Blank());
    BgStageColours(f0);
    WindowStageColours(BgStage(f0));
    SpriteStageColours(WindowStage(BgStage(f0)));
    SpriteStageState(WindowStage(BgStage(f0)));
  }

  /** With 2-bit palettes, every pixel handed to the callback is in 0..3. */
  lemma TwoBitLine(st: GbState, x: int)
    requires Wf(st) && !Skipped(st) && 0 <= x < LCD_WIDTH
    requires forall i :: 0 <= i < 4 ==> st.bgPalette[i] <= 3
    requires forall i :: 0 <= i < 8 ==> st.spPalette[i] <= 3
    ensures DrawLineSpec(st).line.Some? && DrawLineSpec(st).line.value.pixels[x] <= 3
  {
    LinePalette(st);
    assert PaletteEntry(st, DrawLineSpec(st).line.value.pixels[x]);
  }
}
