/** The memory map of app/include/memory.h: the region boundaries MEM_*, the
    region predicates MMU_IS_* and the offset macros MMU_*_OFFSET. */
module MemMap {
  import opened Bytes

  const MEM_ROM_BANK_0_START: Address := 0x0000
  const MEM_ROM_BANK_0_END: Address := 0x3FFF
  const MEM_ROM_BANK_N_START: Address := 0x4000
  const MEM_ROM_BANK_N_END: Address := 0x7FFF
  const MEM_VRAM_START: Address := 0x8000
  const MEM_VRAM_END: Address := 0x9FFF
  const MEM_CART_RAM_START: Address := 0xA000
  const MEM_CART_RAM_END: Address := 0xBFFF
  const MEM_WRAM_START: Address := 0xC000
  const MEM_WRAM_END: Address := 0xDFFF
  const MEM_ECHO_START: Address := 0xE000
  const MEM_ECHO_END: Address := 0xFDFF
  const MEM_OAM_START: Address := 0xFE00
  const MEM_OAM_END: Address := 0xFE9F
  const MEM_UNUSED_START: Address := 0xFEA0
  const MEM_UNUSED_END: Address := 0xFEFF
  const MEM_IO_START: Address := 0xFF00
  const MEM_IO_END: Address := 0xFF7F
  const MEM_HRAM_START: Address := 0xFF80
  const MEM_HRAM_END: Address := 0xFFFE
  const MEM_IE_REG: Address := 0xFFFF

  /** The eleven regions of the header's table, in address order. */
  datatype Region =
    | RomBank0 | RomBankN | Vram | CartRam | Wram | Echo
    | Oam | Unused | Io | Hram | IeReg

  /** First address of a region, as the MEM_*_START constants give it. */
  function Start(r: Region): (a: Address)
  {
    match r
    case RomBank0 => MEM_ROM_BANK_0_START
    case RomBankN => MEM_ROM_BANK_N_START
    case Vram => MEM_VRAM_START
    case CartRam => MEM_CART_RAM_START
    case Wram => MEM_WRAM_START
    case Echo => MEM_ECHO_START
    case Oam => MEM_OAM_START
    case Unused => MEM_UNUSED_START
    case Io => MEM_IO_START
    case Hram => MEM_HRAM_START
    case IeReg => MEM_IE_REG
  }

  /** Last address of a region, as the MEM_*_END constants give it. */
  function End(r: Region): (a: Address)
  {
    match r
    case RomBank0 => MEM_ROM_BANK_0_END
    case RomBankN => MEM_ROM_BANK_N_END
    case Vram => MEM_VRAM_END
    case CartRam => MEM_CART_RAM_END
    case Wram => MEM_WRAM_END
    case Echo => MEM_ECHO_END
    case Oam => MEM_OAM_END
    case Unused => MEM_UNUSED_END
    case Io => MEM_IO_END
    case Hram => MEM_HRAM_END
    case IeReg => MEM_IE_REG
  }

  /** The region that follows r in the table (None after the IE register). */
  function Next(r: Region): (next: Option<Region>)
  {
    match r
    case RomBank0 => Some(RomBankN)
    case RomBankN => Some(Vram)
    case Vram => Some(CartRam)
    case CartRam => Some(Wram)
    case Wram => Some(Echo)
    case Echo => Some(Oam)
    case Oam => Some(Unused)
    case Unused => Some(Io)
    case Io => Some(Hram)
    case Hram => Some(IeReg)
    case IeReg => None
  }

  predicate IsRomBank0(a: Address) { a <= MEM_ROM_BANK_0_END }
  predicate IsRomBankN(a: Address) { a >= MEM_ROM_BANK_N_START && a <= MEM_ROM_BANK_N_END }
  predicate IsVram(a: Address) { a >= MEM_VRAM_START && a <= MEM_VRAM_END }
  predicate IsCartRam(a: Address) { a >= MEM_CART_RAM_START && a <= MEM_CART_RAM_END }
  predicate IsWram(a: Address) { a >= MEM_WRAM_START && a <= MEM_WRAM_END }
  predicate IsOam(a: Address) { a >= MEM_OAM_START && a <= MEM_OAM_END }
  predicate IsIo(a: Address) { a >= MEM_IO_START && a <= MEM_IO_END }
  predicate IsHram(a: Address) { a >= MEM_HRAM_START && a <= MEM_HRAM_END }

  /** MMU_*_OFFSET: the C macros subtract in int, so the result may be
      negative for an address below the region. */
  function VramOffset(a: Address): (r: int) { a - MEM_VRAM_START }
  function CartRamOffset(a: Address): (r: int) { a - MEM_CART_RAM_START }
  function WramOffset(a: Address): (r: int) { a - MEM_WRAM_START }
  function OamOffset(a: Address): (r: int) { a - MEM_OAM_START }
  function IoOffset(a: Address): (r: int) { a - MEM_IO_START }
  function HramOffset(a: Address): (r: int) { a - MEM_HRAM_START }

  /** The ranges tile the address space: the table starts at 0, each region
      ends where the next one starts, and the last one ends at 0xFFFF. */
  lemma RangesTile(r: Region)
    ensures Start(RomBank0) == 0 && End(IeReg) == 0xFFFF
    ensures Start(r) <= End(r)
    ensures Next(r).Some? ==> End(r) + 1 == Start(Next(r).value)
    ensures Next(r).None? <==> r == IeReg
  {
  }

  /** The region holding an address. Its contract says that the header's
      predicates agree with the table and that no two of them hold at once. */
  function RegionOf(a: Address): (r: Region)
    ensures Start(r) <= a <= End(r)
    ensures IsRomBank0(a) <==> r == RomBank0
    ensures IsRomBankN(a) <==> r == RomBankN
    ensures IsVram(a) <==> r == Vram
    ensures IsCartRam(a) <==> r == CartRam
    ensures IsWram(a) <==> r == Wram
    ensures IsOam(a) <==> r == Oam
    ensures IsIo(a) <==> r == Io
    ensures IsHram(a) <==> r == Hram
  {
    if a <= MEM_ROM_BANK_0_END then RomBank0
    else if a <= MEM_ROM_BANK_N_END then RomBankN
    else if a <= MEM_VRAM_END then Vram
    else if a <= MEM_CART_RAM_END then CartRam
    else if a <= MEM_WRAM_END then Wram
    else if a <= MEM_ECHO_END then Echo
    else if a <= MEM_OAM_END then Oam
    else if a <= MEM_UNUSED_END then Unused
    else if a <= MEM_IO_END then Io
    else if a <= MEM_HRAM_END then Hram
    else IeReg
  }

  /** No address lies in two regions of the table. */
  lemma RegionUnique(a: Address, r: Region)
    requires Start(r) <= a <= End(r)
    ensures r == RegionOf(a)
  {
  }

  /** For an address of VRAM, cart RAM or WRAM the offset indexes an 8 KiB array. */
  lemma OffsetsInRange(a: Address)
    ensures IsVram(a) ==> 0 <= VramOffset(a) < 0x2000
    ensures IsCartRam(a) ==> 0 <= CartRamOffset(a) < 0x2000
    ensures IsWram(a) ==> 0 <= WramOffset(a) < 0x2000
    ensures IsOam(a) ==> 0 <= OamOffset(a) < 160
  {
  }

  /** OAM spans exactly 160 bytes, and 0xFFFF is neither I/O nor HRAM. */
  lemma OamSizeAndIe()
    ensures MEM_OAM_END - MEM_OAM_START + 1 == 160
    ensures !IsIo(MEM_IE_REG) && !IsHram(MEM_IE_REG)
  {
  }
}
