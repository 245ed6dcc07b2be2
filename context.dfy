/** The emulator context `struct gb_s` and the hardware constants the core
    uses. The struct's declaration is not part of this model; its fields are
    declared here with the widths the core's assignments imply, and the
    constants with the standard Game Boy values. */
module Context {
  import opened Bytes

  const ROM_BANK_SIZE: nat := 0x4000
  const CRAM_BANK_SIZE: nat := 0x2000
  const DIV_CYCLES: nat := 256
  const OAM_SIZE: nat := 160
  const WRAM_SIZE: nat := 0x2000
  const VRAM_SIZE: nat := 0x2000
  const HRAM_IO_SIZE: nat := 0x100
  const LCD_WIDTH: nat := 160
  const LCD_HEIGHT: byte := 144
  const NUM_SPRITES: nat := 40

  /** Offsets of the I/O registers inside hram_io (address - 0xFF00). */
  const IO_JOYP: nat := 0x00
  const IO_DIV: nat := 0x04
  const IO_IF: nat := 0x0F
  const IO_LCDC: nat := 0x40
  const IO_STAT: nat := 0x41
  const IO_SCY: nat := 0x42
  const IO_SCX: nat := 0x43
  const IO_LY: nat := 0x44
  const IO_DMA: nat := 0x46
  const IO_BGP: nat := 0x47
  const IO_OBP0: nat := 0x48
  const IO_OBP1: nat := 0x49
  const IO_WY: nat := 0x4A
  const IO_WX: nat := 0x4B
  const IO_IE: nat := 0xFF

  /** LCDC bits. */
  const LCDC_BG_ENABLE: byte := 0x01
  const LCDC_OBJ_ENABLE: byte := 0x02
  const LCDC_OBJ_SIZE: byte := 0x04
  const LCDC_BG_MAP: byte := 0x08
  const LCDC_TILE_SELECT: byte := 0x10
  const LCDC_WINDOW_ENABLE: byte := 0x20
  const LCDC_WINDOW_MAP: byte := 0x40
  const LCDC_ENABLE: byte := 0x80

  /** STAT mode field and the two modes the core writes. */
  const STAT_MODE: byte := 0x03
  const LCD_MODE_HBLANK: byte := 0x00
  const LCD_MODE_OAM_SCAN: byte := 0x02

  /** Bits of a sprite's attribute byte. */
  const OBJ_PALETTE: byte := 0x10
  const OBJ_FLIP_X: byte := 0x20
  const OBJ_FLIP_Y: byte := 0x40
  const OBJ_PRIORITY: byte := 0x80

  /** Interrupt-flag bit of V-blank. */
  const VBLANK_INTR: byte := 0x01

  /** The cartridge callbacks `gb_rom_read` and `gb_cart_ram_read` of the
      context, as functions of the offset the bus hands them. */
  datatype Cartridge = Cartridge(romRead: nat -> byte, ramRead: nat -> byte)

  /** One call of the cartridge-RAM write callback `gb_cart_ram_write`. */
  datatype RamWrite = RamWrite(offset: nat, val: byte)

  /** A snapshot of every field of the context the core reads or writes. */
  datatype GbState = GbState(
    wram: seq<byte>,
    vram: seq<byte>,
    oam: seq<byte>,
    hramIo: seq<byte>,
    bgPalette: seq<byte>,
    spPalette: seq<byte>,
    mbc: byte,
    cartRam: bool,
    enableCartRam: bool,
    cartModeSelect: byte,
    selectedRomBank: byte,
    cartRamBank: byte,
    numRamBanks: byte,
    numRomBanks: byte,
    numRomBanksMask: byte,
    divCount: nat,
    lcdCount: nat,
    lcdBlank: bool,
    wy: byte,
    windowClear: byte,
    joypad: byte,
    lcdDrawLine: bool,
    rom: Option<seq<byte>>,
    ramWrites: seq<RamWrite>)

  /** The memories of a snapshot have their hardware sizes. */
  predicate Wf(st: GbState)
  {
    |st.wram| == WRAM_SIZE && |st.vram| == VRAM_SIZE && |st.oam| == OAM_SIZE
    && |st.hramIo| == HRAM_IO_SIZE && |st.bgPalette| == 4 && |st.spPalette| == 8
  }

  /** `struct gb_s`: the fixed-size memories are arrays updated in place,
      `lcdDrawLine` says whether the scanline callback is set, and `ramWrites`
      records the calls of the cartridge-RAM write callback in order. */
  class GameBoy {
    const cart: Cartridge
    const wram: array<byte>
    const vram: array<byte>
    const oam: array<byte>
    const hramIo: array<byte>
    const bgPalette: array<byte>
    const spPalette: array<byte>
    var mbc: byte
    var cartRam: bool
    var enableCartRam: bool
    var cartModeSelect: byte
    var selectedRomBank: byte
    var cartRamBank: byte
    var numRamBanks: byte
    var numRomBanks: byte
    var numRomBanksMask: byte
    var divCount: nat
    var lcdCount: nat
    var lcdBlank: bool
    var wy: byte
    var windowClear: byte
    var joypad: byte
    var lcdDrawLine: bool
    var rom: Option<seq<byte>>
    var ramWrites: seq<RamWrite>

    /** The arrays have their hardware sizes; the two 8 KiB memories are
        distinct (the others differ in length). */
    predicate Valid()
    {
      wram.Length == WRAM_SIZE && vram.Length == VRAM_SIZE && oam.Length == OAM_SIZE
      && hramIo.Length == HRAM_IO_SIZE && bgPalette.Length == 4 && spPalette.Length == 8
      && wram != vram
    }

    function State(): (st: GbState)
      requires Valid()
      ensures Wf(st)
      reads this, wram, vram, oam, hramIo, bgPalette, spPalette
    {
      GbState(wram[..], vram[..], oam[..], hramIo[..], bgPalette[..], spPalette[..],
              mbc, cartRam, enableCartRam, cartModeSelect, selectedRomBank, cartRamBank,
              numRamBanks, numRomBanks, numRomBanksMask, divCount, lcdCount, lcdBlank,
              wy, windowClear, joypad, lcdDrawLine, rom, ramWrites)
    }

    /** A context with zeroed memories and the given callbacks. */
    constructor (cart: Cartridge)
      ensures Valid() && this.cart == cart
      ensures fresh(wram) && fresh(vram) && fresh(oam) && fresh(hramIo)
      ensures fresh(bgPalette) && fresh(spPalette)
    {
      this.cart := cart;
      wram := new byte[WRAM_SIZE];
      vram := new byte[VRAM_SIZE];
      oam := new byte[OAM_SIZE];
      hramIo := new byte[HRAM_IO_SIZE];
      bgPalette := new byte[4];
      spPalette := new byte[8];
      mbc := 0;
      cartRam := false;
      enableCartRam := false;
      cartModeSelect := 0;
      selectedRomBank := 1;
      cartRamBank := 0;
      numRamBanks := 0;
      numRomBanks := 2;
      numRomBanksMask := 1;
      divCount := 0;
      lcdCount := 0;
      lcdBlank := false;
      wy := 0;
      windowClear := 0;
      joypad := 0xFF;
      lcdDrawLine := false;
      rom := None;
      ramWrites := [];
    }
  }
}
