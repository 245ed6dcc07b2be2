/** The memory bus of app/src/memory.c: address dispatch for reads and
    writes, MBC1 bank control, the I/O register side effects, OAM DMA,
    power-on initialisation and the save-size lookup.

    Reads are pure functions of a snapshot of the context. Writes are methods
    on the context proved against the function MmuWriteSpec, which gives the
    whole new state. */
module Memory {
  import opened Bytes
  import opened Context
  import MemMap

  // ---------------------------------------------------------------------
  // Reads
  // ---------------------------------------------------------------------

  /** The ROM bank shown in the 0x4000-0x7FFF window: MBC1 in mode 1 uses
      only the low five bits of the selected bank. */
  function WindowBank(st: GbState): (r: nat)
  {
    if st.mbc == 1 && st.cartModeSelect != 0 then (st.selectedRomBank & 0x1F) as nat
    else st.selectedRomBank as nat
  }

  /** The offset handed to the ROM callback for an address of the switchable
      window: the C formula `addr + (bank - 1) * ROM_BANK_SIZE`, which is
      never negative because addr is at least 0x4000. */
  function RomBankNOffset(st: GbState, addr: Address): (off: nat)
    requires 0x4000 <= addr < 0x8000
    ensures off == WindowBank(st) * ROM_BANK_SIZE + addr - 0x4000
  {
    if st.mbc == 1 && st.cartModeSelect != 0 then
      addr + ((st.selectedRomBank & 0x1F) as int - 1) * ROM_BANK_SIZE
    else
      addr + (st.selectedRomBank as int - 1) * ROM_BANK_SIZE
  }

  /** Whether cartridge-RAM accesses are banked: MBC1 in mode 1 with a bank
      number below the number of RAM banks. */
  predicate RamBanked(st: GbState)
  {
    st.mbc == 1 && st.cartModeSelect != 0 && st.cartRamBank < st.numRamBanks
  }

  /** The offset handed to the cartridge-RAM callbacks: the position inside
      the 8 KiB window plus the bank base when banking applies. */
  function CartRamOffset(st: GbState, addr: Address): (off: nat)
    requires 0xA000 <= addr < 0xC000
    ensures off % CRAM_BANK_SIZE == addr - 0xA000
    ensures off / CRAM_BANK_SIZE == if RamBanked(st) then st.cartRamBank as nat else 0
  {
    var ramOffset := addr - 0xA000;
    if RamBanked(st) then ramOffset + st.cartRamBank as nat * CRAM_BANK_SIZE else ramOffset
  }

  /** The synthesized JOYP register: the stored select bits with the low
      nibble taken from the selected half of the joypad state. */
  function JoypRead(joyp: byte, joypad: byte): (r: byte)
    ensures r & 0xF0 == joyp & 0xF0
    ensures joyp & 0x10 == 0 ==> r & 0x0F == (joypad >> 4) & 0x0F
    ensures joyp & 0x10 != 0 && joyp & 0x20 == 0 ==> r & 0x0F == joypad & 0x0F
    ensures joyp & 0x30 == 0x30 ==> r & 0x0F == 0x0F
  {
    var result := joyp | 0x0F;
    if joyp & 0x10 == 0 then result & ((joypad >> 4) | 0xF0)
    else if joyp & 0x20 == 0 then result & (joypad | 0xF0)
    else result
  }

  /** mmu_read. */
  function MmuRead(st: GbState, cart: Cartridge, addr: Address): (r: byte)
    requires Wf(st)
  {
    if addr < 0x4000 then cart.romRead(addr)
    else if addr < 0x8000 then cart.romRead(RomBankNOffset(st, addr))
    else if addr < 0xA000 then st.vram[addr - 0x8000]
    else if addr < 0xC000 then
      if !st.cartRam || !st.enableCartRam then 0xFF
      else cart.ramRead(CartRamOffset(st, addr))
    else if addr < 0xE000 then st.wram[addr - 0xC000]
    else if addr < 0xFE00 then st.wram[addr - 0xE000]
    else if addr < 0xFEA0 then st.oam[addr - 0xFE00]
    else if addr < 0xFF00 then 0xFF
    else if addr == 0xFF00 then JoypRead(st.hramIo[IO_JOYP], st.joypad)
    else st.hramIo[addr - 0xFF00]
  }

  /** The read dispatch agrees with the region table of the memory map:
      each region is served by its own memory at the header's offset, echo RAM
      by WRAM 0x2000 lower, the unusable area and absent or disabled
      cartridge RAM by 0xFF. */
  lemma ReadByRegion(st: GbState, cart: Cartridge, a: Address)
    requires Wf(st)
    ensures var r := MemMap.RegionOf(a); var v := MmuRead(st, cart, a);
      && (r == MemMap.RomBank0 ==> v == cart.romRead(a))
      && (r == MemMap.RomBankN ==>
            v == cart.romRead(WindowBank(st) * ROM_BANK_SIZE + a - 0x4000))
      && (r == MemMap.Vram ==> v == st.vram[MemMap.VramOffset(a)])
      && (r == MemMap.CartRam && (!st.cartRam || !st.enableCartRam) ==> v == 0xFF)
      && (r == MemMap.CartRam && st.cartRam && st.enableCartRam ==>
            v == cart.ramRead(CartRamOffset(st, a)))
      && (r == MemMap.Wram ==> v == st.wram[MemMap.WramOffset(a)])
      && (r == MemMap.Echo ==> v == st.wram[MemMap.WramOffset(a - 0x2000)])
      && (r == MemMap.Oam ==> v == st.oam[MemMap.OamOffset(a)])
      && (r == MemMap.Unused ==> v == 0xFF)
      && (r == MemMap.Io && a != 0xFF00 ==> v == st.hramIo[MemMap.IoOffset(a)])
      && (a == 0xFF00 ==> v == JoypRead(st.hramIo[IO_JOYP], st.joypad))
      && (r == MemMap.Hram ==> v == st.hramIo[0x80 + MemMap.HramOffset(a)])
      && (r == MemMap.IeReg ==> v == st.hramIo[IO_IE])
  {
  }

  // ---------------------------------------------------------------------
  // Write specification
  // ---------------------------------------------------------------------

  /** A byte stored in VRAM, WRAM or OAM at an array index. */
  function StoreVram(st: GbState, i: nat, v: byte): (r: GbState)
    requires Wf(st) && i < VRAM_SIZE
    ensures Wf(r)
  {
    st.(vram := st.vram[i := v])
  }

  function StoreWram(st: GbState, i: nat, v: byte): (r: GbState)
    requires Wf(st) && i < WRAM_SIZE
    ensures Wf(r)
  {
    st.(wram := st.wram[i := v])
  }

  function StoreOam(st: GbState, i: nat, v: byte): (r: GbState)
    requires Wf(st) && i < OAM_SIZE
    ensures Wf(r)
  {
    st.(oam := st.oam[i := v])
  }

  /** One call of the cartridge-RAM write callback, appended to the log. */
  function LogCartRamWrite(st: GbState, offset: nat, v: byte): (r: GbState)
    requires Wf(st)
    ensures Wf(r)
  {
    st.(ramWrites := st.ramWrites + [RamWrite(offset, v)])
  }

  /** The bank number after an MBC1 write to 0x2000-0x3FFF, before masking:
      the low five bits come from the value (0 read as 1), bits 5-6 are kept. */
  function Mbc1LowBank(bank: byte, val: byte): (b: byte)
    ensures b & 0x1F != 0
    ensures b & 0x1F == if val & 0x1F == 0 then 1 else val & 0x1F
    ensures b & 0x60 == bank & 0x60 && b & 0x80 == 0
  {
    var b := (val & 0x1F) | (bank & 0x60);
    if b & 0x1F == 0 then b + 1 else b
  }

  /** The bank number after an MBC1 write to 0x4000-0x5FFF, before masking:
      bits 5-6 come from the value's low two bits, the low five are kept. */
  function Mbc1HighBank(bank: byte, val: byte): (b: byte)
    ensures b & 0x1F == bank & 0x1F
    ensures (b >> 5) == val & 0x03
  {
    ((val & 0x03) << 5) | (bank & 0x1F)
  }

  /** The four MBC1 control registers, 0x0000, 0x2000, 0x4000 and 0x6000. */
  function SetRamEnable(st: GbState, val: byte): (r: GbState)
    requires Wf(st)
    ensures Wf(r)
  {
    st.(enableCartRam := val & 0x0F == 0x0A)
  }

  function SetRomBankLow(st: GbState, val: byte): (r: GbState)
    requires Wf(st)
    ensures Wf(r)
  {
    st.(selectedRomBank := Mbc1LowBank(st.selectedRomBank, val) & st.numRomBanksMask)
  }

  function SetRomBankHigh(st: GbState, val: byte): (r: GbState)
    requires Wf(st)
    ensures Wf(r)
  {
    st.(cartRamBank := val & 0x03,
        selectedRomBank := Mbc1HighBank(st.selectedRomBank, val) & st.numRomBanksMask)
  }

  function SetBankingMode(st: GbState, val: byte): (r: GbState)
    requires Wf(st)
    ensures Wf(r)
  {
    st.(cartModeSelect := val & 0x01)
  }

  /** An MBC1 control write below 0x8000. */
  function Mbc1Write(st: GbState, addr: Address, val: byte): (r: GbState)
    requires Wf(st) && addr < 0x8000
    ensures Wf(r)
  {
    if addr < 0x2000 then SetRamEnable(st, val)
    else if addr < 0x4000 then SetRomBankLow(st, val)
    else if addr < 0x6000 then SetRomBankHigh(st, val)
    else SetBankingMode(st, val)
  }

  /** The four 2-bit colours of a palette register, lowest pair first. The
      table keeps every bit of the register. */
  function PaletteOf(val: byte): (p: seq<byte>)
    ensures |p| == 4
    ensures p[0] == val & 0x03 && p[1] == (val >> 2) & 0x03
    ensures p[2] == (val >> 4) & 0x03 && p[3] == (val >> 6) & 0x03
    ensures p[0] | (p[1] << 2) | (p[2] << 4) | (p[3] << 6) == val
  {
    [val & 0x03, (val >> 2) & 0x03, (val >> 4) & 0x03, (val >> 6) & 0x03]
  }

  /** Stores a byte of the I/O page. */
  function StoreIo(st: GbState, io: nat, v: byte): (r: GbState)
    requires Wf(st) && io < HRAM_IO_SIZE
    ensures Wf(r)
  {
    st.(hramIo := st.hramIo[io := v])
  }

  /** A write to DIV: the register and the divider's sub-counter restart. */
  function DivReset(st: GbState): (r: GbState)
    requires Wf(st)
    ensures Wf(r)
  {
    st.(hramIo := st.hramIo[IO_DIV := 0], divCount := 0)
  }

  /** A write to WY goes to the context's copy of the register. */
  function SetWy(st: GbState, val: byte): (r: GbState)
    requires Wf(st)
    ensures Wf(r)
  {
    st.(wy := val)
  }

  /** The decoded background palette, and one half (k = 0 for OBP0, 4 for
      OBP1) of the decoded sprite palettes. */
  function SetBgPalette(st: GbState, val: byte): (r: GbState)
    requires Wf(st)
    ensures Wf(r)
  {
    st.(bgPalette := PaletteOf(val))
  }

  function SetSpPalette(st: GbState, k: nat, val: byte): (r: GbState)
    requires Wf(st) && (k == 0 || k == 4)
    ensures Wf(r)
  {
    st.(spPalette := st.spPalette[..k] + PaletteOf(val) + st.spPalette[k + 4..])
  }

  /** A write to BGP, OBP0 or OBP1: the register is stored and decoded. */
  function PaletteWrite(st: GbState, io: nat, val: byte): (r: GbState)
    requires Wf(st) && (io == IO_BGP || io == IO_OBP0 || io == IO_OBP1)
    ensures Wf(r)
  {
    var s := StoreIo(st, io, val);
    if io == IO_BGP then SetBgPalette(s, val)
    else if io == IO_OBP0 then SetSpPalette(s, 0, val)
    else SetSpPalette(s, 4, val)
  }

  /** STAT with its mode field replaced and the other bits kept. */
  function WithMode(stat: byte, mode: byte): (r: byte)
    requires mode & !STAT_MODE == 0
    ensures r & STAT_MODE == mode && r & !STAT_MODE == stat & !STAT_MODE
  {
    (stat & !STAT_MODE) | mode
  }

  /** LY and the LCD counter restart when the display is switched. */
  function RestartLine(st: GbState): (r: GbState)
    requires Wf(st)
    ensures Wf(r)
  {
    st.(hramIo := st.hramIo[IO_LY := 0], lcdCount := 0)
  }

  /** The display switched on: blanked, OAM-scan mode, line restarted. */
  function LcdSwitchOn(st: GbState): (r: GbState)
    requires Wf(st)
    ensures Wf(r)
  {
    RestartLine(StoreIo(st.(lcdBlank := true), IO_STAT, WithMode(st.hramIo[IO_STAT], LCD_MODE_OAM_SCAN)))
  }

  /** The display switched off: H-blank mode, line restarted. */
  function LcdSwitchOff(st: GbState): (r: GbState)
    requires Wf(st)
    ensures Wf(r)
  {
    RestartLine(StoreIo(st, IO_STAT, WithMode(st.hramIo[IO_STAT], LCD_MODE_HBLANK)))
  }

  /** A write to LCDC: the value is stored, then an off-to-on or on-to-off
      transition of bit 7 switches the display. */
  function LcdcWrite(st: GbState, val: byte): (r: GbState)
    requires Wf(st)
    ensures Wf(r)
  {
    var lcdWasOn := st.hramIo[IO_LCDC] & LCDC_ENABLE != 0;
    var lcdIsNowOn := val & LCDC_ENABLE != 0;
    var s := StoreIo(st, IO_LCDC, val);
    if !lcdWasOn && lcdIsNowOn then LcdSwitchOn(s)
    else if lcdWasOn && !lcdIsNowOn then LcdSwitchOff(s)
    else s
  }

  /** mmu_dma_transfer as the C loop runs it: step i stores the byte read
      from source + i, in the state left by the earlier steps. */
  function DmaCopy(st: GbState, cart: Cartridge, source: Address, i: nat): (r: GbState)
    requires Wf(st) && source <= 0xFF00 && i <= OAM_SIZE
    ensures Wf(r)
    decreases OAM_SIZE - i
  {
    if i == OAM_SIZE then st
    else DmaCopy(StoreOam(st, i, MmuRead(st, cart, source + i)), cart, source, i + 1)
  }

  /** The DMA source address `source_high << 8`: a page boundary, and never
      within 160 bytes below OAM, so a copy never reads an OAM byte it has
      already written. */
  function DmaSource(sourceHigh: byte): (a: Address)
    ensures a % 256 == 0 && a / 256 == sourceHigh as int
    ensures a <= 0xFE00 - OAM_SIZE || 0xFE00 <= a <= 0xFF00
  {
    sourceHigh as int * 256
  }

  /** A write to the DMA register: the value is stored, then the copy runs
      from val << 8. */
  function DmaWrite(st: GbState, cart: Cartridge, val: byte): (r: GbState)
    requires Wf(st)
    ensures Wf(r)
  {
    DmaCopy(StoreIo(st, IO_DMA, val), cart, DmaSource(val), 0)
  }

  /** A write to the I/O and HRAM page, at offset io = addr - 0xFF00. */
  function IoWrite(st: GbState, cart: Cartridge, io: nat, val: byte): (r: GbState)
    requires Wf(st) && io < HRAM_IO_SIZE
    ensures Wf(r)
  {
    if io == IO_JOYP then StoreIo(st, IO_JOYP, (val & 0x30) | 0xC0)
    else if io == IO_DIV then DivReset(st)
    else if io == IO_DMA then DmaWrite(st, cart, val)
    else if io == IO_BGP || io == IO_OBP0 || io == IO_OBP1 then PaletteWrite(st, io, val)
    else if io == IO_LCDC then LcdcWrite(st, val)
    else if io == IO_STAT then StoreIo(st, IO_STAT, (val & 0x78) | (st.hramIo[IO_STAT] & 0x07) | 0x80)
    else if io == IO_LY then st
    else if io == IO_IF then StoreIo(st, IO_IF, val | 0xE0)
    else if io == IO_WY then SetWy(st, val)
    else StoreIo(st, io, val)
  }

  /** mmu_write: the whole state after writing val at addr. */
  function MmuWriteSpec(st: GbState, cart: Cartridge, addr: Address, val: byte): (r: GbState)
    requires Wf(st)
    ensures Wf(r)
  {
    if addr < 0x8000 then
      if st.mbc != 1 then st else Mbc1Write(st, addr, val)
    else if addr < 0xA000 then StoreVram(st, addr - 0x8000, val)
    else if addr < 0xC000 then
      if !st.cartRam || !st.enableCartRam then st
      else LogCartRamWrite(st, CartRamOffset(st, addr), val)
    else if addr < 0xE000 then StoreWram(st, addr - 0xC000, val)
    else if addr < 0xFE00 then StoreWram(st, addr - 0xE000, val)
    else if addr < 0xFEA0 then StoreOam(st, addr - 0xFE00, val)
    else if addr < 0xFF00 then st
    else IoWrite(st, cart, addr - 0xFF00, val)
  }

  // ---------------------------------------------------------------------
  // Properties of the bus
  // ---------------------------------------------------------------------

  /** Echo RAM mirrors WRAM both ways: a byte written in one is read back in
      the other. */
  lemma EchoMirrorsWram(st: GbState, cart: Cartridge, a: Address, v: byte)
    requires Wf(st)
    requires 0xC000 <= a < 0xDE00
    ensures MmuRead(st, cart, a + 0x2000) == MmuRead(st, cart, a)
    ensures MmuRead(MmuWriteSpec(st, cart, a, v), cart, a + 0x2000) == v
    ensures MmuRead(MmuWriteSpec(st, cart, a + 0x2000, v), cart, a) == v
  {
  }

  /** Writing a RAM address (VRAM, WRAM, echo, OAM) and reading it back
      gives the value written. */
  lemma RamReadBack(st: GbState, cart: Cartridge, a: Address, v: byte)
    requires Wf(st)
    requires 0x8000 <= a < 0xA000 || 0xC000 <= a < 0xFEA0
    ensures MmuRead(MmuWriteSpec(st, cart, a, v), cart, a) == v
  {
    if a < 0xA000 {
      VramReadBack(st, cart, a, v);
    } else if a < 0xE000 {
      WramReadBack(st, cart, a, v);
    } else if a < 0xFE00 {
      EchoReadBack(st, cart, a, v);
    } else {
      OamReadBack(st, cart, a, v);
    }
  }

  lemma VramReadBack(st: GbState, cart: Cartridge, a: Address, v: byte)
    requires Wf(st) && 0x8000 <= a < 0xA000
    ensures MmuRead(MmuWriteSpec(st, cart, a, v), cart, a) == v
  {
    RamWriteStores(st, cart, a, v);
    ReadBackVram(st, cart, a - 0x8000, v);
  }

  lemma WramReadBack(st: GbState, cart: Cartridge, a: Address, v: byte)
    requires Wf(st) && 0xC000 <= a < 0xE000
    ensures MmuRead(MmuWriteSpec(st, cart, a, v), cart, a) == v
  {
    RamWriteStores(st, cart, a, v);
    ReadBackWram(st, cart, a - 0xC000, v);
  }

  lemma EchoReadBack(st: GbState, cart: Cartridge, a: Address, v: byte)
    requires Wf(st) && 0xE000 <= a < 0xFE00
    ensures MmuRead(MmuWriteSpec(st, cart, a, v), cart, a) == v
  {
    RamWriteStores(st, cart, a, v);
    ReadBackWram(st, cart, a - 0xE000, v);
  }

  lemma OamReadBack(st: GbState, cart: Cartridge, a: Address, v: byte)
    requires Wf(st) && 0xFE00 <= a < 0xFEA0
    ensures MmuRead(MmuWriteSpec(st, cart, a, v), cart, a) == v
  {
    RamWriteStores(st, cart, a, v);
    ReadBackOam(st, cart, a - 0xFE00, v);
  }

  /** The store a RAM write makes, by region. */
  lemma RamWriteStores(st: GbState, cart: Cartridge, a: Address, v: byte)
    requires Wf(st)
    ensures 0x8000 <= a < 0xA000 ==> MmuWriteSpec(st, cart, a, v) == StoreVram(st, a - 0x8000, v)
    ensures 0xC000 <= a < 0xE000 ==> MmuWriteSpec(st, cart, a, v) == StoreWram(st, a - 0xC000, v)
    ensures 0xE000 <= a < 0xFE00 ==> MmuWriteSpec(st, cart, a, v) == StoreWram(st, a - 0xE000, v)
    ensures 0xFE00 <= a < 0xFEA0 ==> MmuWriteSpec(st, cart, a, v) == StoreOam(st, a - 0xFE00, v)
  {
  }

  /** A stored byte reads back at its own address (and at the echo address
      for WRAM). */
  lemma ReadBackVram(st: GbState, cart: Cartridge, j: nat, v: byte)
    requires Wf(st) && j < VRAM_SIZE
    ensures MmuRead(StoreVram(st, j, v), cart, 0x8000 + j) == v
  {
  }

  lemma ReadBackWram(st: GbState, cart: Cartridge, j: nat, v: byte)
    requires Wf(st) && j < WRAM_SIZE
    ensures MmuRead(StoreWram(st, j, v), cart, 0xC000 + j) == v
    ensures j < 0x1E00 ==> MmuRead(StoreWram(st, j, v), cart, 0xE000 + j) == v
  {
  }

  lemma ReadBackOam(st: GbState, cart: Cartridge, j: nat, v: byte)
    requires Wf(st) && j < OAM_SIZE
    ensures MmuRead(StoreOam(st, j, v), cart, 0xFE00 + j) == v
  {
  }

  /** A read depends only on the bank-control fields, the joypad state and
      the one byte of memory the address is backed by. */
  lemma ReadFrame(st: GbState, st': GbState, cart: Cartridge, a: Address)
    requires Wf(st) && Wf(st')
    requires st'.mbc == st.mbc && st'.cartModeSelect == st.cartModeSelect
    requires st'.selectedRomBank == st.selectedRomBank && st'.cartRamBank == st.cartRamBank
    requires st'.numRamBanks == st.numRamBanks && st'.joypad == st.joypad
    requires st'.cartRam == st.cartRam && st'.enableCartRam == st.enableCartRam
    requires 0x8000 <= a < 0xA000 ==> st'.vram[a - 0x8000] == st.vram[a - 0x8000]
    requires 0xC000 <= a < 0xE000 ==> st'.wram[a - 0xC000] == st.wram[a - 0xC000]
    requires 0xE000 <= a < 0xFE00 ==> st'.wram[a - 0xE000] == st.wram[a - 0xE000]
    requires 0xFE00 <= a < 0xFEA0 ==> st'.oam[a - 0xFE00] == st.oam[a - 0xFE00]
    requires 0xFF00 <= a ==> st'.hramIo[a - 0xFF00] == st.hramIo[a - 0xFF00]
    ensures MmuRead(st', cart, a) == MmuRead(st, cart, a)
  {
  }

  /** A store into VRAM, WRAM or OAM changes the read of no other address
      than the ones backed by the stored byte. */
  lemma ReadAfterVramStore(st: GbState, cart: Cartridge, j: nat, b: byte, a: Address)
    requires Wf(st) && j < VRAM_SIZE && a != 0x8000 + j
    ensures MmuRead(StoreVram(st, j, b), cart, a) == MmuRead(st, cart, a)
  {
    ReadFrame(st, StoreVram(st, j, b), cart, a);
  }

  lemma ReadAfterWramStore(st: GbState, cart: Cartridge, j: nat, b: byte, a: Address)
    requires Wf(st) && j < WRAM_SIZE && a != 0xC000 + j && (j < 0x1E00 ==> a != 0xE000 + j)
    ensures MmuRead(StoreWram(st, j, b), cart, a) == MmuRead(st, cart, a)
  {
    ReadFrame(st, StoreWram(st, j, b), cart, a);
  }

  lemma ReadAfterOamStore(st: GbState, cart: Cartridge, j: nat, b: byte, a: Address)
    requires Wf(st) && j < OAM_SIZE && a != 0xFE00 + j
    ensures MmuRead(StoreOam(st, j, b), cart, a) == MmuRead(st, cart, a)
  {
    ReadFrame(st, StoreOam(st, j, b), cart, a);
  }

  /** The other address of a WRAM/echo pair, when a has one. */
  function Mirror(a: Address): (m: Option<Address>)
    ensures m.Some? ==> m.value != a && (m.value - a == 0x2000 || a - m.value == 0x2000)
  {
    if 0xC000 <= a < 0xDE00 then Some(a + 0x2000)
    else if 0xE000 <= a < 0xFE00 then Some(a - 0x2000)
    else None
  }

  /** A RAM write changes the read of no address other than itself and its
      mirror. */
  lemma RamWriteIsLocal(st: GbState, cart: Cartridge, a: Address, b: Address, v: byte)
    requires Wf(st)
    requires 0x8000 <= a < 0xA000 || 0xC000 <= a < 0xFEA0
    requires b != a && Mirror(a) != Some(b)
    ensures MmuRead(MmuWriteSpec(st, cart, a, v), cart, b) == MmuRead(st, cart, b)
  {
    RamWriteStores(st, cart, a, v);
    if a < 0xA000 {
      ReadAfterVramStore(st, cart, a - 0x8000, v, b);
    } else if a < 0xE000 {
      ReadAfterWramStore(st, cart, a - 0xC000, v, b);
    } else if a < 0xFE00 {
      ReadAfterWramStore(st, cart, a - 0xE000, v, b);
    } else {
      ReadAfterOamStore(st, cart, a - 0xFE00, v, b);
    }
  }

  /** Sentinel reads and silent writes: the unusable area and absent or
      disabled cartridge RAM read as 0xFF, and writes there change nothing. */
  lemma DisabledAreas(st: GbState, cart: Cartridge, a: Address, v: byte)
    requires Wf(st)
    ensures 0xFEA0 <= a < 0xFF00 ==>
      MmuRead(st, cart, a) == 0xFF && MmuWriteSpec(st, cart, a, v) == st
    ensures 0xA000 <= a < 0xC000 && (!st.cartRam || !st.enableCartRam) ==>
      MmuRead(st, cart, a) == 0xFF && MmuWriteSpec(st, cart, a, v) == st
  {
  }

  /** Enabled cartridge RAM hands each write to the callback, at the same
      offset a read of that address uses, and changes nothing else. */
  lemma CartRamWrite(st: GbState, cart: Cartridge, a: Address, v: byte)
    requires Wf(st)
    requires 0xA000 <= a < 0xC000 && st.cartRam && st.enableCartRam
    ensures MmuWriteSpec(st, cart, a, v)
      == st.(ramWrites := st.ramWrites + [RamWrite(CartRamOffset(st, a), v)])
    ensures MmuRead(st, cart, a) == cart.ramRead(CartRamOffset(st, a))
  {
  }

  /** Below 0x8000 only an MBC1 cartridge reacts to writes; on MBC1 a write
      below 0x2000 enables cartridge RAM iff its low nibble is 0xA. */
  lemma RomAreaWrites(st: GbState, cart: Cartridge, a: Address, v: byte)
    requires Wf(st)
    requires a < 0x8000
    ensures st.mbc != 1 ==> MmuWriteSpec(st, cart, a, v) == st
    ensures st.mbc == 1 && a < 0x2000 ==>
      MmuWriteSpec(st, cart, a, v) == st.(enableCartRam := v & 0x0F == 0x0A)
  {
  }

  /** An MBC1 write to 0x2000-0x3FFF never selects a bank outside the mask,
      and only changes the selected bank; when the mask keeps the low five
      bits, the selected bank is never 0 in them. */
  lemma {:induction false} RomBankWriteMasked(st: GbState, cart: Cartridge, a: Address, v: byte)
    requires Wf(st)
    requires st.mbc == 1 && 0x2000 <= a < 0x4000
    ensures var s := MmuWriteSpec(st, cart, a, v);
      && s.selectedRomBank & !st.numRomBanksMask == 0
      && s == st.(selectedRomBank := s.selectedRomBank)
    ensures st.numRomBanksMask & 0x1F == 0x1F ==>
      MmuWriteSpec(st, cart, a, v).selectedRomBank & 0x1F != 0
  {
    var b := Mbc1LowBank(st.selectedRomBank, v);
    assert (b & st.numRomBanksMask) & !st.numRomBanksMask == 0;
    assert st.numRomBanksMask & 0x1F == 0x1F ==> (b & st.numRomBanksMask) & 0x1F == b & 0x1F;
  }

  /** With a mask of 0x03, writing 0 or 5 to the bank register selects bank 1. */
  lemma RomBankWriteExamples(st: GbState, cart: Cartridge)
    requires Wf(st)
    requires st.mbc == 1 && st.numRomBanksMask == 0x03
    ensures MmuWriteSpec(st, cart, 0x2000, 0).selectedRomBank == 1
    ensures MmuWriteSpec(st, cart, 0x2000, 5).selectedRomBank == 1
  {
  }

  /** An MBC1 write to 0x4000-0x5FFF sets the RAM bank to the low two bits
      and moves them into bits 5-6 of the ROM bank; 0x6000-0x7FFF sets the
      banking mode. */
  lemma UpperBankAndModeWrites(st: GbState, cart: Cartridge, a: Address, v: byte)
    requires Wf(st)
    requires st.mbc == 1 && 0x4000 <= a < 0x8000
    ensures var s := MmuWriteSpec(st, cart, a, v);
      a < 0x6000 ==>
        && s.cartRamBank == v & 0x03
        && s.selectedRomBank & !st.numRomBanksMask == 0
        && s.selectedRomBank & 0x1F == st.selectedRomBank & 0x1F & st.numRomBanksMask
        && (s.selectedRomBank >> 5) == v & 0x03 & (st.numRomBanksMask >> 5)
    ensures 0x6000 <= a ==>
      MmuWriteSpec(st, cart, a, v) == st.(cartModeSelect := v & 0x01)
  {
  }

  /** The register write rules: STAT keeps its read-only low bits and bit 7
      reads 1, IF's top three bits read 1, LY ignores writes, a DIV write
      zeroes DIV and the divider counter whatever the value, JOYP keeps only
      the select bits. */
  lemma RegisterWriteRules(st: GbState, cart: Cartridge, v: byte)
    requires Wf(st)
    ensures MmuWriteSpec(st, cart, 0xFF41, v)
      == st.(hramIo := st.hramIo[IO_STAT := (v & 0x78) | (st.hramIo[IO_STAT] & 0x07) | 0x80])
    ensures MmuWriteSpec(st, cart, 0xFF0F, v) == st.(hramIo := st.hramIo[IO_IF := v | 0xE0])
    ensures MmuWriteSpec(st, cart, 0xFF44, v) == st
    ensures MmuWriteSpec(st, cart, 0xFF04, v) == st.(hramIo := st.hramIo[IO_DIV := 0], divCount := 0)
    ensures MmuWriteSpec(st, cart, 0xFF00, v) == st.(hramIo := st.hramIo[IO_JOYP := (v & 0x30) | 0xC0])
  {
  }

  /** A write to 0xFF46 stores the value in the DMA register, then runs the
      copy from val << 8 on the state that holds it. */
  lemma DmaWriteRunsCopy(st: GbState, cart: Cartridge, v: byte)
    requires Wf(st)
    ensures MmuWriteSpec(st, cart, 0xFF46, v) == DmaCopy(StoreIo(st, IO_DMA, v), cart, DmaSource(v), 0)
  {
    assert MmuWriteSpec(st, cart, 0xFF46, v) == IoWrite(st, cart, IO_DMA, v);
  }

  /** A palette write stores the register and decodes it into 2-bit
      colours: BGP fills the background palette, OBP0 the first and OBP1 the
      second half of the sprite palettes, the other half is kept. */
  lemma PaletteWrites(st: GbState, cart: Cartridge, io: nat, v: byte)
    requires Wf(st) && (io == IO_BGP || io == IO_OBP0 || io == IO_OBP1)
    ensures var s := MmuWriteSpec(st, cart, 0xFF00 + io, v);
      && s == st.(hramIo := st.hramIo[io := v], bgPalette := s.bgPalette, spPalette := s.spPalette)
      && (io == IO_BGP ==> s.bgPalette == PaletteOf(v) && s.spPalette == st.spPalette)
      && (io == IO_OBP0 ==> s.spPalette[..4] == PaletteOf(v) && s.spPalette[4..] == st.spPalette[4..]
                            && s.bgPalette == st.bgPalette)
      && (io == IO_OBP1 ==> s.spPalette[..4] == st.spPalette[..4] && s.spPalette[4..] == PaletteOf(v)
                            && s.bgPalette == st.bgPalette)
  {
    var s := MmuWriteSpec(st, cart, 0xFF00 + io, v);
    assert s == PaletteWrite(st, io, v);
    if io == IO_OBP0 {
      assert s.spPalette == PaletteOf(v) + st.spPalette[4..];
    } else if io == IO_OBP1 {
      assert s.spPalette == st.spPalette[..4] + PaletteOf(v);
    }
  }

  /** LCDC writes: switching on blanks the display and enters OAM scan,
      switching off enters H-blank, both with LY and the LCD counter reset and
      the other STAT bits kept; otherwise only LCDC changes. */
  lemma LcdcTransitions(st: GbState, cart: Cartridge, v: byte)
    requires Wf(st)
    ensures var s := MmuWriteSpec(st, cart, 0xFF40, v);
      var wasOn := st.hramIo[IO_LCDC] & LCDC_ENABLE != 0;
      var isOn := v & LCDC_ENABLE != 0;
      && s.hramIo[IO_LCDC] == v
      && (!wasOn && isOn ==>
            s.lcdBlank && s.hramIo[IO_STAT] & STAT_MODE == LCD_MODE_OAM_SCAN
            && s.hramIo[IO_STAT] & !STAT_MODE == st.hramIo[IO_STAT] & !STAT_MODE
            && s.hramIo[IO_LY] == 0 && s.lcdCount == 0)
      && (wasOn && !isOn ==>
            s.hramIo[IO_STAT] & STAT_MODE == LCD_MODE_HBLANK
            && s.hramIo[IO_STAT] & !STAT_MODE == st.hramIo[IO_STAT] & !STAT_MODE
            && s.hramIo[IO_LY] == 0 && s.lcdCount == 0 && s.lcdBlank == st.lcdBlank)
      && (wasOn == isOn ==> s == st.(hramIo := st.hramIo[IO_LCDC := v]))
  {
  }

  /** The loop from step i on: it stores the bytes read from source + k, for
      k >= i, as the state before step i has them, and nothing else changes. */
  lemma {:induction false} DmaCopyFrom(st: GbState, cart: Cartridge, source: Address, i: nat)
    requires Wf(st)
    requires source <= 0xFE00 - OAM_SIZE || 0xFE00 <= source <= 0xFF00
    requires i <= OAM_SIZE
    ensures var s := DmaCopy(st, cart, source, i);
      && s == st.(oam := s.oam)
      && (forall k :: 0 <= k < i ==> s.oam[k] == st.oam[k])
      && (forall k :: i <= k < OAM_SIZE ==> s.oam[k] == MmuRead(st, cart, source + k))
    decreases OAM_SIZE - i
  {
    if i < OAM_SIZE {
      var b := MmuRead(st, cart, source + i);
      DmaCopyFrom(StoreOam(st, i, b), cart, source, i + 1);
      forall a: Address | a != 0xFE00 + i
        ensures MmuRead(StoreOam(st, i, b), cart, a) == MmuRead(st, cart, a)
      {
        ReadAfterOamStore(st, cart, i, b, a);
      }
    }
  }

  /** The copy a DMA-register write runs fills all 160 OAM bytes so that
      oam[i] is the bus value at (val << 8) + i before the copy, since no step
      reads an OAM byte an earlier step wrote; nothing else changes. */
  lemma DmaRegisterCopies(st: GbState, cart: Cartridge, v: byte)
    requires Wf(st)
    ensures var s := DmaCopy(StoreIo(st, IO_DMA, v), cart, DmaSource(v), 0);
      var st' := StoreIo(st, IO_DMA, v);
      && s == st'.(oam := s.oam)
      && forall k :: 0 <= k < OAM_SIZE ==> s.oam[k] == MmuRead(st', cart, DmaSource(v) + k)
  {
    DmaCopyFrom(StoreIo(st, IO_DMA, v), cart, DmaSource(v), 0);
  }

  // ---------------------------------------------------------------------
  // Write methods
  // ---------------------------------------------------------------------

  /** The stores of mmu_write into VRAM, WRAM and OAM, by array index. */
  method WriteVram(gb: GameBoy, i: nat, v: byte)
    requires gb.Valid() && i < VRAM_SIZE
    modifies gb.vram
    ensures gb.State() == StoreVram(old(gb.State()), i, v)
  {
    gb.vram[i] := v;
  }

  method WriteWram(gb: GameBoy, i: nat, v: byte)
    requires gb.Valid() && i < WRAM_SIZE
    modifies gb.wram
    ensures gb.State() == StoreWram(old(gb.State()), i, v)
  {
    gb.wram[i] := v;
  }

  method WriteOam(gb: GameBoy, i: nat, v: byte)
    requires gb.Valid() && i < OAM_SIZE
    modifies gb.oam
    ensures gb.State() == StoreOam(old(gb.State()), i, v)
  {
    gb.oam[i] := v;
  }

  /** Calls the cartridge-RAM write callback. */
  method WriteCartRam(gb: GameBoy, offset: nat, v: byte)
    requires gb.Valid()
    modifies gb
    ensures gb.State() == LogCartRamWrite(old(gb.State()), offset, v)
  {
    gb.ramWrites := gb.ramWrites + [RamWrite(offset, v)];
  }

  /** The four MBC1 control registers. */
  method WriteRamEnable(gb: GameBoy, val: byte)
    requires gb.Valid()
    modifies gb
    ensures gb.State() == SetRamEnable(old(gb.State()), val)
  {
    gb.enableCartRam := val & 0x0F == 0x0A;
  }

  method WriteRomBankLow(gb: GameBoy, val: byte)
    requires gb.Valid()
    modifies gb
    ensures gb.State() == SetRomBankLow(old(gb.State()), val)
  {
    gb.selectedRomBank := Mbc1LowBank(gb.selectedRomBank, val) & gb.numRomBanksMask;
  }

  method WriteRomBankHigh(gb: GameBoy, val: byte)
    requires gb.Valid()
    modifies gb
    ensures gb.State() == SetRomBankHigh(old(gb.State()), val)
  {
    ghost var before := gb.State();
    var bank := Mbc1HighBank(gb.selectedRomBank, val) & gb.numRomBanksMask;
    gb.cartRamBank := val & 0x03;
    gb.selectedRomBank := bank;
    assert gb.State() == before.(cartRamBank := val & 0x03, selectedRomBank := bank);
  }

  method WriteBankingMode(gb: GameBoy, val: byte)
    requires gb.Valid()
    modifies gb
    ensures gb.State() == SetBankingMode(old(gb.State()), val)
  {
    gb.cartModeSelect := val & 0x01;
  }

  /** The MBC1 branch of mmu_write, below 0x8000. */
  method Mbc1ControlWrite(gb: GameBoy, addr: Address, val: byte)
    requires gb.Valid() && addr < 0x8000
    modifies gb
    ensures gb.State() == Mbc1Write(old(gb.State()), addr, val)
  {
    if addr < 0x2000 {
      WriteRamEnable(gb, val);
    } else if addr < 0x4000 {
      WriteRomBankLow(gb, val);
    } else if addr < 0x6000 {
      WriteRomBankHigh(gb, val);
    } else {
      WriteBankingMode(gb, val);
    }
  }

  /** Stores a byte of the I/O page. */
  method WriteIo(gb: GameBoy, io: nat, v: byte)
    requires gb.Valid() && io < HRAM_IO_SIZE
    modifies gb.hramIo
    ensures gb.State() == StoreIo(old(gb.State()), io, v)
  {
    gb.hramIo[io] := v;
  }

  /** The DIV case of mmu_write. */
  method ResetDiv(gb: GameBoy)
    requires gb.Valid()
    modifies gb, gb.hramIo
    ensures gb.State() == DivReset(old(gb.State()))
  {
    gb.hramIo[IO_DIV] := 0;
    gb.divCount := 0;
  }

  /** The WY case of mmu_write. */
  method WriteWy(gb: GameBoy, val: byte)
    requires gb.Valid()
    modifies gb
    ensures gb.State() == SetWy(old(gb.State()), val)
  {
    gb.wy := val;
  }

  /** Stores the four colours of a palette register at bytes k..k+3. */
  method DecodePalette(p: array<byte>, k: nat, val: byte)
    requires k + 4 <= p.Length
    modifies p
    ensures p[..] == old(p[..])[..k] + PaletteOf(val) + old(p[..])[k + 4..]
  {
    p[k] := (val >> 0) & 0x03;
    p[k + 1] := (val >> 2) & 0x03;
    p[k + 2] := (val >> 4) & 0x03;
    p[k + 3] := (val >> 6) & 0x03;
  }

  /** Decodes a palette register into the background palette, or into one
      half of the sprite palettes. */
  method DecodeBgPalette(gb: GameBoy, val: byte)
    requires gb.Valid()
    modifies gb.bgPalette
    ensures gb.State() == SetBgPalette(old(gb.State()), val)
  {
    DecodePalette(gb.bgPalette, 0, val);
    assert gb.bgPalette[..] == PaletteOf(val);
  }

  method DecodeSpPalette(gb: GameBoy, k: nat, val: byte)
    requires gb.Valid() && (k == 0 || k == 4)
    modifies gb.spPalette
    ensures gb.State() == SetSpPalette(old(gb.State()), k, val)
  {
    DecodePalette(gb.spPalette, k, val);
  }

  /** The BGP, OBP0 and OBP1 cases of mmu_write. */
  method PaletteRegisterWrite(gb: GameBoy, io: nat, val: byte)
    requires gb.Valid() && (io == IO_BGP || io == IO_OBP0 || io == IO_OBP1)
    modifies gb.hramIo, gb.bgPalette, gb.spPalette
    ensures gb.State() == PaletteWrite(old(gb.State()), io, val)
  {
    WriteIo(gb, io, val);
    if io == IO_BGP {
      DecodeBgPalette(gb, val);
    } else if io == IO_OBP0 {
      DecodeSpPalette(gb, 0, val);
    } else {
      DecodeSpPalette(gb, 4, val);
    }
  }

  /** The display switching on or off inside an LCDC write. */
  method RestartLcdLine(gb: GameBoy)
    requires gb.Valid()
    modifies gb, gb.hramIo
    ensures gb.State() == RestartLine(old(gb.State()))
  {
    gb.hramIo[IO_LY] := 0;
    gb.lcdCount := 0;
  }

  method SwitchLcdOn(gb: GameBoy)
    requires gb.Valid()
    modifies gb, gb.hramIo
    ensures gb.State() == LcdSwitchOn(old(gb.State()))
  {
    gb.lcdBlank := true;
    WriteIo(gb, IO_STAT, WithMode(gb.hramIo[IO_STAT], LCD_MODE_OAM_SCAN));
    RestartLcdLine(gb);
  }

  method SwitchLcdOff(gb: GameBoy)
    requires gb.Valid()
    modifies gb, gb.hramIo
    ensures gb.State() == LcdSwitchOff(old(gb.State()))
  {
    WriteIo(gb, IO_STAT, WithMode(gb.hramIo[IO_STAT], LCD_MODE_HBLANK));
    RestartLcdLine(gb);
  }

  /** The LCDC case of mmu_write. */
  method LcdcRegisterWrite(gb: GameBoy, val: byte)
    requires gb.Valid()
    modifies gb, gb.hramIo
    ensures gb.State() == LcdcWrite(old(gb.State()), val)
  {
    var lcdWasOn := gb.hramIo[IO_LCDC] & LCDC_ENABLE != 0;
    WriteIo(gb, IO_LCDC, val);
    var lcdIsNowOn := val & LCDC_ENABLE != 0;
    if !lcdWasOn && lcdIsNowOn {
      SwitchLcdOn(gb);
    } else if lcdWasOn && !lcdIsNowOn {
      SwitchLcdOff(gb);
    }
  }

  /** One iteration of the copy loop of mmu_dma_transfer. */
  method DmaStep(gb: GameBoy, source: Address, i: nat)
    requires gb.Valid() && source <= 0xFF00 && i < OAM_SIZE
    modifies gb.oam
    ensures gb.State() == StoreOam(old(gb.State()), i, MmuRead(old(gb.State()), gb.cart, source + i))
  {
    var b := MmuRead(gb.State(), gb.cart, source + i);
    WriteOam(gb, i, b);
  }

  /** The copy loop of mmu_dma_transfer. */
  method DmaCopyLoop(gb: GameBoy, source: Address)
    requires gb.Valid() && source <= 0xFF00
    modifies gb.oam
    ensures gb.State() == DmaCopy(old(gb.State()), gb.cart, source, 0)
  {
    var i := 0;
    while i < OAM_SIZE
      invariant 0 <= i <= OAM_SIZE
      invariant DmaCopy(gb.State(), gb.cart, source, i) == DmaCopy(old(gb.State()), gb.cart, source, 0)
    {
      DmaStep(gb, source, i);
      i := i + 1;
    }
  }

  /** mmu_dma_transfer: the source is source_high << 8. */
  method DmaTransfer(gb: GameBoy, sourceHigh: byte)
    requires gb.Valid()
    modifies gb.oam
    ensures gb.State() == DmaCopy(old(gb.State()), gb.cart, DmaSource(sourceHigh), 0)
  {
    DmaCopyLoop(gb, DmaSource(sourceHigh));
  }

  /** The DMA case of mmu_write. */
  method DmaRegisterWrite(gb: GameBoy, val: byte)
    requires gb.Valid()
    modifies gb.hramIo, gb.oam
    ensures gb.State() == DmaWrite(old(gb.State()), gb.cart, val)
  {
    WriteIo(gb, IO_DMA, val);
    DmaTransfer(gb, val);
  }

  /** The I/O and HRAM branch of mmu_write (the switch on the offset). */
  method IoRegisterWrite(gb: GameBoy, io: nat, val: byte)
    requires gb.Valid() && io < HRAM_IO_SIZE
    modifies gb, gb.hramIo, gb.oam, gb.bgPalette, gb.spPalette
    ensures gb.State() == IoWrite(old(gb.State()), gb.cart, io, val)
  {
    if io == IO_JOYP {
      WriteIo(gb, IO_JOYP, (val & 0x30) | 0xC0);
    } else if io == IO_DIV {
      ResetDiv(gb);
    } else if io == IO_DMA {
      DmaRegisterWrite(gb, val);
    } else if io == IO_BGP || io == IO_OBP0 || io == IO_OBP1 {
      PaletteRegisterWrite(gb, io, val);
    } else if io == IO_LCDC {
      LcdcRegisterWrite(gb, val);
    } else if io == IO_STAT {
      WriteIo(gb, IO_STAT, (val & 0x78) | (gb.hramIo[IO_STAT] & 0x07) | 0x80);
    } else if io == IO_LY {
    } else if io == IO_IF {
      WriteIo(gb, IO_IF, val | 0xE0);
    } else if io == IO_WY {
      WriteWy(gb, val);
    } else {
      WriteIo(gb, io, val);
    }
  }

  /** The branches of mmu_write between 0x8000 and 0xFEFF: VRAM, cartridge
      RAM, WRAM, echo RAM, OAM and the unusable area. */
  method MemoryAreaWrite(gb: GameBoy, addr: Address, val: byte)
    requires gb.Valid() && 0x8000 <= addr < 0xFF00
    modifies gb, gb.wram, gb.vram, gb.oam
    ensures gb.State() == MmuWriteSpec(old(gb.State()), gb.cart, addr, val)
  {
    if addr < 0xA000 {
      WriteVram(gb, addr - 0x8000, val);
    } else if addr < 0xC000 {
      if gb.cartRam && gb.enableCartRam {
        WriteCartRam(gb, CartRamOffset(gb.State(), addr), val);
      }
    } else if addr < 0xE000 {
      WriteWram(gb, addr - 0xC000, val);
    } else if addr < 0xFE00 {
      WriteWram(gb, addr - 0xE000, val);
    } else if addr < 0xFEA0 {
      WriteOam(gb, addr - 0xFE00, val);
    }
  }

  /** mmu_write. */
  method MmuWrite(gb: GameBoy, addr: Address, val: byte)
    requires gb.Valid()
    modifies gb, gb.wram, gb.vram, gb.oam, gb.hramIo, gb.bgPalette, gb.spPalette
    ensures gb.State() == MmuWriteSpec(old(gb.State()), gb.cart, addr, val)
  {
    if addr < 0x8000 {
      if gb.mbc == 1 {
        Mbc1ControlWrite(gb, addr, val);
      }
    } else if addr < 0xFF00 {
      MemoryAreaWrite(gb, addr, val);
    } else {
      IoRegisterWrite(gb, addr - 0xFF00, val);
    }
  }

  // ---------------------------------------------------------------------
  // Initialisation and save size
  // ---------------------------------------------------------------------

  /** The I/O page after mmu_init's memset and power-on register values. */
  function PowerOnIo(): (io: seq<byte>)
    ensures |io| == HRAM_IO_SIZE
  {
    seq(0x100, _ => 0 as byte)[IO_JOYP := 0xCF][IO_DIV := 0xAB][IO_IF := 0xE1]
      [IO_LCDC := 0x91][IO_STAT := 0x85][IO_BGP := 0xFC][IO_OBP0 := 0xFF][IO_OBP1 := 0xFF]
  }

  /** The memories after mmu_init's memsets and register stores. */
  function ClearedMemories(st: GbState): (r: GbState)
    requires Wf(st)
    ensures Wf(r)
  {
    st.(wram := seq(0x2000, _ => 0 as byte), vram := seq(0x2000, _ => 0 as byte),
        oam := seq(160, _ => 0 as byte), hramIo := PowerOnIo())
  }

  /** The bank fields mmu_init leaves: bank 1, RAM bank 0, RAM disabled,
      mode 0. */
  function DefaultBanks(st: GbState): (r: GbState)
    requires Wf(st)
    ensures Wf(r)
  {
    st.(selectedRomBank := 1, cartRamBank := 0, enableCartRam := false, cartModeSelect := 0)
  }

  /** mmu_init: cleared memories, power-on registers, the three palette
      writes through the bus, then the bank fields. */
  function PowerOn(st: GbState, cart: Cartridge): (r: GbState)
    requires Wf(st)
    ensures Wf(r)
  {
    var s := MmuWriteSpec(ClearedMemories(st), cart, 0xFF47, 0xFC);
    DefaultBanks(MmuWriteSpec(MmuWriteSpec(s, cart, 0xFF48, 0xFF), cart, 0xFF49, 0xFF))
  }

  /** What mmu_init leaves: zeroed RAM, the power-on register values, the
      palettes decoded from them, bank 1 selected, RAM disabled, mode 0, and
      every other field as before. */
  lemma PowerOnValues(st: GbState, cart: Cartridge)
    requires Wf(st)
    ensures var s := PowerOn(st, cart);
      && s.wram == seq(0x2000, _ => 0 as byte) && s.vram == seq(0x2000, _ => 0 as byte)
      && s.oam == seq(160, _ => 0 as byte) && s.hramIo == PowerOnIo()
      && s.bgPalette == [0, 3, 3, 3] && s.spPalette == [3, 3, 3, 3, 3, 3, 3, 3]
      && s == st.(wram := s.wram, vram := s.vram, oam := s.oam, hramIo := s.hramIo,
                  bgPalette := s.bgPalette, spPalette := s.spPalette, selectedRomBank := 1,
                  cartRamBank := 0, enableCartRam := false, cartModeSelect := 0)
  {
    PowerOnPalettes(ClearedMemories(st), cart);
  }

  /** The three palette writes of mmu_init, on the cleared state. */
  lemma PowerOnPalettes(c: GbState, cart: Cartridge)
    requires Wf(c) && c.hramIo == PowerOnIo()
    ensures var s := MmuWriteSpec(MmuWriteSpec(MmuWriteSpec(c, cart, 0xFF47, 0xFC), cart, 0xFF48, 0xFF),
                                  cart, 0xFF49, 0xFF);
      s == c.(bgPalette := [0, 3, 3, 3], spPalette := [3, 3, 3, 3, 3, 3, 3, 3])
  {
    assert PaletteOf(0xFC) == [0, 3, 3, 3];
    assert PaletteOf(0xFF) == [3, 3, 3, 3];
  }

  /** memset(a, 0, length). */
  method ZeroFill(a: array<byte>)
    modifies a
    ensures a[..] == seq(a.Length, _ => 0 as byte)
  {
    forall i | 0 <= i < a.Length {
      a[i] := 0;
    }
  }

  /** The power-on register stores of mmu_init, after the memset. */
  method StorePowerOnRegisters(io: array<byte>)
    requires io.Length == HRAM_IO_SIZE && io[..] == seq(0x100, _ => 0 as byte)
    modifies io
    ensures io[..] == PowerOnIo()
  {
    io[IO_JOYP] := 0xCF;
    io[IO_DIV] := 0xAB;
    io[IO_IF] := 0xE1;
    io[IO_LCDC] := 0x91;
    io[IO_STAT] := 0x85;
    io[IO_BGP] := 0xFC;
    io[IO_OBP0] := 0xFF;
    io[IO_OBP1] := 0xFF;
  }

  /** The memsets and register stores of mmu_init. */
  method ClearMemories(gb: GameBoy)
    requires gb.Valid()
    modifies gb.wram, gb.vram, gb.oam, gb.hramIo
    ensures gb.State() == ClearedMemories(old(gb.State()))
  {
    ZeroFill(gb.wram);
    ZeroFill(gb.vram);
    ZeroFill(gb.oam);
    ZeroFill(gb.hramIo);
    StorePowerOnRegisters(gb.hramIo);
  }

  /** The bank initialisation of mmu_init. */
  method SelectDefaultBanks(gb: GameBoy)
    requires gb.Valid()
    modifies gb
    ensures gb.State() == DefaultBanks(old(gb.State()))
  {
    gb.selectedRomBank, gb.cartRamBank, gb.enableCartRam, gb.cartModeSelect := 1, 0, false, 0;
  }

  /** mmu_init. */
  method MmuInit(gb: GameBoy)
    requires gb.Valid()
    modifies gb, gb.wram, gb.vram, gb.oam, gb.hramIo, gb.bgPalette, gb.spPalette
    ensures gb.State() == PowerOn(old(gb.State()), gb.cart)
  {
    ClearMemories(gb);
    MmuWrite(gb, 0xFF47, 0xFC);
    MmuWrite(gb, 0xFF48, 0xFF);
    MmuWrite(gb, 0xFF49, 0xFF);
    SelectDefaultBanks(gb);
  }

  /** mmu_reset: the same as mmu_init. */
  method MmuReset(gb: GameBoy)
    requires gb.Valid()
    modifies gb, gb.wram, gb.vram, gb.oam, gb.hramIo, gb.bgPalette, gb.spPalette
    ensures gb.State() == PowerOn(old(gb.State()), gb.cart)
  {
    MmuInit(gb);
  }

  /** The table of mmu_get_save_size, indexed by the header's RAM-size code. */
  const SAVE_SIZES: seq<nat> := [0x0000, 0x0800, 0x2000, 0x8000, 0x20000, 0x10000]

  /** mmu_get_save_size: the save size for the RAM-size code read from the
      header byte 0x0149 through the bus, or None (-1) for a code without an
      entry. */
  function MmuGetSaveSize(st: GbState, cart: Cartridge): (r: Option<nat>)
    requires Wf(st)
    ensures var code := cart.romRead(0x0149);
      && (r.Some? <==> code < 6)
      && (r.Some? ==> r.value == SAVE_SIZES[code])
  {
    var code := MmuRead(st, cart, 0x0149);
    if code as nat >= |SAVE_SIZES| then None else Some(SAVE_SIZES[code])
  }
}
