/** The cartridge side of app/src/rom.c: the banked ROM read gb_rom_read,
    the bank selection gb_rom_select_bank, and the three header tables the
    bootloader consults (ROM size, cartridge type, RAM size).

    gb_rom_read takes a possibly NULL context, modelled as an Option of the
    context's state; the ROM buffer is the context's `rom`, None when NULL.
    gb_rom_select_bank changes the context and is a method proved against
    the function SelectBank. */
module Rom {
  import opened Bytes
  import opened Context
  import Memory

  /** gb_read_byte_t: the byte read and whether the read succeeded. */
  datatype ReadByte = ReadByte(value: byte, valid: bool)

  /** The result of a failed read. */
  const FAILED: ReadByte := ReadByte(0, false)

  /** Addresses from this one up are refused by gb_rom_read. */
  const ROM_READ_LIMIT: nat := 2 * ROM_BANK_SIZE - 1

  /** The offset into the ROM buffer that gb_rom_read computes: the selected
      bank times the bank size, plus the address. */
  function RomOffset(st: GbState, addr: word): (r: nat)
  {
    st.selectedRomBank as nat * ROM_BANK_SIZE + addr as nat
  }

  /** A context and a ROM are present and the address is below the limit. */
  predicate Readable(ctx: Option<GbState>, addr: word)
  {
    ctx.Some? && ctx.value.rom.Some? && addr as nat < ROM_READ_LIMIT
  }

  /** A readable address falls inside the ROM buffer. An index past the
      buffer is undefined behaviour in C, so callers must not reach it. */
  predicate InBuffer(ctx: Option<GbState>, addr: word)
  {
    Readable(ctx, addr) ==> RomOffset(ctx.value, addr) < |ctx.value.rom.value|
  }

  /** gb_rom_read: {0, false} for a NULL context, a NULL ROM or an address at
      or above 2 * ROM_BANK_SIZE - 1; otherwise the byte at the banked offset,
      valid. */
  function GbRomRead(ctx: Option<GbState>, addr: word): (r: ReadByte)
    requires InBuffer(ctx, addr)
    ensures r.valid <==> Readable(ctx, addr)
    ensures !r.valid ==> r.value == 0
    ensures r.valid ==> r.value == ctx.value.rom.value[RomOffset(ctx.value, addr)]
  {
    if ctx.None? then FAILED
    else if ctx.value.rom.None? then FAILED
    else if addr as nat >= 2 * ROM_BANK_SIZE - 1 then FAILED
    else ReadByte(ctx.value.rom.value[RomOffset(ctx.value, addr)], true)
  }

  /** The last address of the switchable bank, 0x7FFF, is refused along with
      everything above it, while 0x7FFE is still read. */
  lemma ReadLimit(st: GbState, addr: word)
    requires st.rom.Some? && InBuffer(Some(st), addr)
    ensures GbRomRead(Some(st), addr).valid <==> addr < 0x7FFF
  {
  }

  /** A ROM of num_rom_banks banks, as the bootloader allocates it, with the
      last bank selected: gb_rom_read's bound lets through offsets past the
      end of the buffer, so the precondition InBuffer is a real restriction
      and not a consequence of the bound. */
  lemma LastBankOverrun(st: GbState)
    requires st.rom.Some? && 1 <= st.numRomBanks
    requires |st.rom.value| == st.numRomBanks as nat * ROM_BANK_SIZE
    requires st.selectedRomBank == st.numRomBanks - 1
    ensures Readable(Some(st), 0x4000) && !InBuffer(Some(st), 0x4000)
  {
    var n := st.numRomBanks as nat;
    assert st.selectedRomBank as nat == n - 1;
    assert RomOffset(st, 0x4000) == (n - 1) * ROM_BANK_SIZE + 0x4000 == n * ROM_BANK_SIZE;
  }

  /** With the buffer the bootloader allocates and a bank below
      num_rom_banks, every address of the fixed window 0x0000-0x3FFF is in
      the buffer. */
  lemma LowWindowInBuffer(st: GbState, addr: word)
    requires st.rom.Some? && |st.rom.value| == st.numRomBanks as nat * ROM_BANK_SIZE
    requires st.selectedRomBank < st.numRomBanks && addr < 0x4000
    ensures InBuffer(Some(st), addr)
  {
    var b := st.selectedRomBank as nat;
    var n := st.numRomBanks as nat;
    var a := addr as nat;
    assert b < n && a < ROM_BANK_SIZE;
    assert RomOffset(st, addr) == b * ROM_BANK_SIZE + a;
    assert (b + 1) * ROM_BANK_SIZE == b * ROM_BANK_SIZE + ROM_BANK_SIZE;
    MulMonotone(b + 1, n, ROM_BANK_SIZE);
  }

  /** Multiplying by a natural number keeps the order. */
  lemma MulMonotone(x: nat, y: nat, k: nat)
    requires x <= y
    ensures x * k <= y * k
  {
    assert y * k == x * k + (y - x) * k;
  }

  // ---------------------------------------------------------------------
  // gb_rom_select_bank
  // ---------------------------------------------------------------------

  /** The new state and the int8_t status gb_rom_select_bank returns. */
  datatype Selection = Selection(st: GbState, status: int)

  /** The bank gb_rom_select_bank tries: bank 0 is remapped to 1. */
  function Remap(bank: byte): (b: byte)
    ensures b != 0
    ensures bank != 0 ==> b == bank
  {
    if bank == 0 then 1 else bank
  }

  /** gb_rom_select_bank on a non-NULL context: -1 without an MBC, -1 when
      the remapped bank is not below num_rom_banks, and otherwise the bank is
      selected and 0 returned. */
  function SelectBank(st: GbState, bank: byte): (r: Selection)
  {
    if st.mbc == 0 then Selection(st, -1)
    else
      var b := if bank == 0 then 1 else bank;
      if b >= st.numRomBanks then Selection(st, -1)
      else Selection(st.(selectedRomBank := b), 0)
  }

  /** gb_rom_select_bank succeeds exactly when the cartridge has an MBC and
      the remapped bank exists, and fails with -1 otherwise. */
  lemma SelectBankStatus(st: GbState, bank: byte)
    ensures var r := SelectBank(st, bank);
      && (r.status == 0 || r.status == -1)
      && (r.status == 0 <==> st.mbc != 0 && Remap(bank) < st.numRomBanks)
  {
  }

  /** Success selects the remapped bank, which is never bank 0 and is below
      num_rom_banks, and changes nothing else; failure changes nothing. */
  lemma SelectBankEffect(st: GbState, bank: byte)
    ensures var r := SelectBank(st, bank);
      && (r.status == 0 ==> r.st == st.(selectedRomBank := Remap(bank)))
      && (r.status == 0 ==> 0 < r.st.selectedRomBank < st.numRomBanks)
      && (r.status == -1 ==> r.st == st)
  {
  }

  /** Selecting the same bank twice is selecting it once. */
  lemma SelectBankIdempotent(st: GbState, bank: byte)
    ensures SelectBank(SelectBank(st, bank).st, bank) == SelectBank(st, bank)
  {
  }

  /** After a successful selection, gb_rom_read at addr reads the ROM at the
      remapped bank times the bank size plus addr. */
  lemma ReadAfterSelect(st: GbState, bank: byte, addr: word)
    requires st.rom.Some? && SelectBank(st, bank).status == 0
    requires addr as nat < ROM_READ_LIMIT
    requires Remap(bank) as nat * ROM_BANK_SIZE + addr as nat < |st.rom.value|
    ensures var s := SelectBank(st, bank).st;
      InBuffer(Some(s), addr)
      && GbRomRead(Some(s), addr) == ReadByte(st.rom.value[Remap(bank) as nat * ROM_BANK_SIZE + addr as nat], true)
  {
    SelectBankEffect(st, bank);
  }

  /** The bootloader selects bank 0 and then reads the cartridge type at
      0x0147 through gb_rom_read. When that selection succeeds the bank is 1,
      so the byte read lies in bank 1, at 0x4147, and not in the header. */
  lemma HeaderReadThroughBank(st: GbState)
    requires st.rom.Some? && 0x4148 <= |st.rom.value|
    requires SelectBank(st, 0).status == 0
    ensures GbRomRead(Some(SelectBank(st, 0).st), 0x0147) == ReadByte(st.rom.value[0x4147], true)
  {
    ReadAfterSelect(st, 0, 0x0147);
  }

  /** gb_rom_select_bank; a NULL context is the null reference. */
  method RomSelectBank(gb: GameBoy?, bank: byte) returns (status: int)
    requires gb != null ==> gb.Valid()
    modifies gb
    ensures gb == null ==> status == -1
    ensures gb != null ==> gb.Valid() && gb.State() == SelectBank(old(gb.State()), bank).st
    ensures gb != null ==> status == SelectBank(old(gb.State()), bank).status
  {
    if gb == null {
      return -1;
    }
    ghost var before := gb.State();
    if gb.mbc == 0 {
      assert SelectBank(before, bank) == Selection(before, -1);
      return -1;
    }
    var b := bank;
    if b == 0 {
      b := 1;
    }
    if b >= gb.numRomBanks {
      assert SelectBank(before, bank) == Selection(before, -1);
      return -1;
    }
    StoreSelectedBank(gb, b);
    assert SelectBank(before, bank) == Selection(gb.State(), 0);
    return 0;
  }

  /** The assignment gb->selected_rom_bank = bank. */
  method StoreSelectedBank(gb: GameBoy, b: byte)
    requires gb.Valid()
    modifies gb
    ensures gb.Valid() && gb.State() == old(gb.State()).(selectedRomBank := b)
  {
    ghost var before := gb.State();
    gb.selectedRomBank := b;
    assert gb.State() == before.(selectedRomBank := b);
  }

  // ---------------------------------------------------------------------
  // Header tables of the bootloader
  // ---------------------------------------------------------------------

  /** The ROM-size switch on the byte at 0x0148: the number of 16 KiB banks,
      None for an unsupported code. */
  function RomBanksOf(code: byte): (r: Option<byte>)
    ensures r.Some? <==> code <= 0x06 || 0x52 <= code <= 0x54
    ensures code <= 0x06 ==> r == Some(2 << code)
  {
    if code == 0x00 then Some(2)
    else if code == 0x01 then Some(4)
    else if code == 0x02 then Some(8)
    else if code == 0x03 then Some(16)
    else if code == 0x04 then Some(32)
    else if code == 0x05 then Some(64)
    else if code == 0x06 then Some(128)
    else if code == 0x52 then Some(72)
    else if code == 0x53 then Some(80)
    else if code == 0x54 then Some(96)
    else None
  }

  /** The ROM sizes the codes name, in KiB: 32 KiB doubled per code from 0
      to 6, and 1152, 1280 and 1536 KiB for 0x52 to 0x54. */
  function RomKiB(code: byte): (r: nat)
  {
    if code <= 0x06 then 32 * Pow2(code as nat)
    else if code == 0x52 then 1152
    else if code == 0x53 then 1280
    else if code == 0x54 then 1536
    else 0
  }

  /** 2 to the n. */
  function Pow2(n: nat): (p: nat)
    ensures p >= 1
  {
    if n == 0 then 1 else 2 * Pow2(n - 1)
  }

  /** The bank count of every supported code holds exactly the size the
      code names, 16 KiB per bank: rom_size = num_rom_banks * ROM_BANK_SIZE
      is the whole ROM. */
  lemma RomBanksCoverSize(code: byte)
    requires RomBanksOf(code).Some?
    ensures RomBanksOf(code).value as nat * ROM_BANK_SIZE == RomKiB(code) * 1024
  {
    if code <= 0x06 {
      assert Pow2(0) == 1 && Pow2(1) == 2 && Pow2(2) == 4 && Pow2(3) == 8;
      assert Pow2(4) == 16 && Pow2(5) == 32 && Pow2(6) == 64;
    }
  }

  /** What the cartridge-type switch on the byte at 0x0147 sets: the MBC,
      cart_ram_enable, and, for the types without an MBC, the number of RAM
      banks (types 0x01-0x03 leave it alone). */
  datatype CartKind = CartKind(mbc: byte, cartRamEnable: bool, ramBanks: Option<byte>)

  /** The cartridge-type switch; None for an unsupported type. */
  function CartKindOf(t: byte): (r: Option<CartKind>)
    ensures r.Some? <==> t <= 0x03 || t == 0x08 || t == 0x09
    ensures r.Some? ==> (r.value.mbc == 1 <==> 0x01 <= t <= 0x03)
    ensures r.Some? ==> (r.value.mbc == 0 <==> t == 0x00 || t == 0x08 || t == 0x09)
    ensures r.Some? ==> (r.value.cartRamEnable <==> t != 0x00 && t != 0x01)
    ensures r.Some? ==> (r.value.ramBanks.Some? <==> r.value.mbc == 0)
  {
    if t == 0x00 then Some(CartKind(0, false, Some(0)))
    else if t == 0x01 then Some(CartKind(1, false, None))
    else if t == 0x02 || t == 0x03 then Some(CartKind(1, true, None))
    else if t == 0x08 || t == 0x09 then Some(CartKind(0, true, Some(1)))
    else None
  }

  /** The RAM sizes the codes at 0x0149 name, in KiB. */
  function RamKiB(code: byte): (r: nat)
  {
    if code == 0x01 then 2
    else if code == 0x02 then 8
    else if code == 0x03 then 32
    else if code == 0x04 then 128
    else if code == 0x05 then 64
    else 0
  }

  /** The RAM-size switch: the number of 8 KiB banks; None for an
      unsupported code. */
  function RamBanksOf(code: byte): (r: Option<byte>)
    ensures r.Some? <==> code <= 0x05
    ensures r.Some? ==> r.value as nat == (RamKiB(code) + 7) / 8
  {
    if code == 0x00 then Some(0)
    else if code == 0x01 then Some(1)
    else if code == 0x02 then Some(1)
    else if code == 0x03 then Some(4)
    else if code == 0x04 then Some(16)
    else if code == 0x05 then Some(8)
    else None
  }

  /** The fields the bootloader's three switches leave in the context. */
  datatype Header = Header(numRomBanks: byte, mbc: byte, cartRamEnable: bool, numRamBanks: byte)

  /** The three switches in the bootloader's order; any unsupported code
      rejects the load. The RAM-size switch runs last and sets the number of
      RAM banks whatever the cartridge type set. */
  function DecodeHeader(romSize: byte, cartType: byte, ramSize: byte): (r: Option<Header>)
    ensures r.Some? <==> RomBanksOf(romSize).Some? && CartKindOf(cartType).Some? && RamBanksOf(ramSize).Some?
  {
    match RomBanksOf(romSize)
    case None => None
    case Some(n) =>
      match CartKindOf(cartType)
      case None => None
      case Some(k) =>
        match RamBanksOf(ramSize)
        case None => None
        case Some(m) =>
          var banks := match k.ramBanks case Some(c) => c case None => 0;
          var h := Header(n, k.mbc, k.cartRamEnable, banks);
          Some(h.(numRamBanks := m))
  }

  /** A loaded header has the MBC and RAM flag of its cartridge type, the
      ROM banks of its size code and the RAM banks of its RAM-size code:
      the bank count set by types 0x00, 0x08 and 0x09 never survives. */
  lemma HeaderFields(romSize: byte, cartType: byte, ramSize: byte)
    requires DecodeHeader(romSize, cartType, ramSize).Some?
    ensures var h := DecodeHeader(romSize, cartType, ramSize).value;
      && h.numRomBanks == RomBanksOf(romSize).value
      && h.mbc == CartKindOf(cartType).value.mbc
      && h.cartRamEnable == CartKindOf(cartType).value.cartRamEnable
      && h.numRamBanks == RamBanksOf(ramSize).value
  {
  }

  /** A RAM-enabled cartridge without MBC (type 0x08) and a RAM-size code of
      0 loads with RAM enabled and no RAM bank. */
  lemma RamEnabledWithoutBanks()
    ensures DecodeHeader(0x00, 0x08, 0x00) == Some(Header(2, 0, true, 0))
  {
  }

  /** The save size mmu_get_save_size reports and the bank count the
      loader's RAM-size switch chooses agree: both accept exactly the codes
      0..5, the save size is the size the code names, and the banks are that
      size in 8 KiB banks, rounded up. */
  lemma SaveSizeMatchesBanks(st: GbState, cart: Cartridge)
    requires Wf(st)
    ensures var code := cart.romRead(0x0149);
            var r := Memory.MmuGetSaveSize(st, cart);
            && (r.Some? <==> RamBanksOf(code).Some?)
            && (r.Some? ==> r.value == RamKiB(code) * 1024
                            && RamBanksOf(code).value as nat == (r.value + 0x1FFF) / 0x2000)
  {
  }
}
