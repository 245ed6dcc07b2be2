# A verified model of the BeagleBone Game Boy emulator core

This project models, in Dafny, the core of a Game Boy emulator written in C:
the memory bus and its MBC1 bank control, the CPU step, the scanline
compositor, the DIV timer, the register file, the instruction length and
cycle decoder, and the cartridge side of the ROM loader. It proves what
these pieces promise about each other and about the hardware they stand in
for.

The modules follow the C files:

- `Bytes` (bytes.dfy): uint8_t and uint16_t as `bv8` and `bv16`, so C's
  unsigned wrap-around is the types' own arithmetic; `U8_TO_U16`, the
  `(int8_t)` cast and the small named arithmetic helpers the CPU uses.
- `MemMap` (mem_map.dfy): the region table `MEM_*`, the predicates
  `MMU_IS_*` and the offsets `MMU_*_OFFSET` of app/include/memory.h.
- `Context` (context.dfy): the emulator context `struct gb_s` as the class
  `GameBoy` (WRAM, VRAM, OAM, HRAM/I-O and the palettes as arrays, the bank
  and display fields as scalars), its value snapshot `GbState`, and the
  hardware constants (`ROM_BANK_SIZE`, `DIV_CYCLES`, the `IO_*` offsets,
  the LCDC/STAT/OBJ bits) with their standard values.
- `Memory` (memory.dfy): `mmu_read` as a function of the snapshot;
  `mmu_write`, `mmu_dma_transfer` and `mmu_init` as methods on the context
  proved against the functions `MmuWriteSpec` (whose DMA case is
  `DmaWrite`), `DmaCopy` and `PowerOn`;
  `mmu_get_save_size` as a function.
- `Timers` (timers.dfy): the `while` loop of `timers_step` as a method
  proved against the recursive `DivSpin`, and `timers_reset`.
- `Registers` (registers.dfy): the file-scope registers of registers.c as
  the class `RegisterFile`, with the selector-indexed getters and setters
  and `copyReg`.
- `Decode` (decode.dfy): `gb_decode`, `decode_base` and `decode_cb` as
  functions returning the record `Decoded`; the mnemonic is the template
  and table indices handed to `vsnprintf`, not its characters.
- `Rom` (rom.dfy): `gb_rom_read`, `gb_rom_select_bank` (a method proved
  against `SelectBank`) and the ROM-size, cartridge-type and RAM-size
  tables of the loader.
- `Gpu` (gpu.dfy): `gpu_draw_line` as three layer methods (background,
  window, sprites) that fill the 160-pixel row with the source's loops,
  each proved against a function of the context snapshot; the
  `lcd_draw_line` callback is modelled by returning the row.
- `Cpu` (cpu.dfy): `cpu_step` as a method of the class `CpuContext`
  (PC, SP, A, F, BC, HL, IME, the halt flag and a 64 KiB memory standing in
  for `gb_read`/`gb_write`), proved against `CpuStepSpec`, which is built
  from one function per opcode group; the ROM read, the register helpers
  and the ALU macros, whose code is not part of this model, are parameters.

Every state-changing operation is a method whose `ensures` gives its whole
new state as a function of the old one (for instance
`gb.State() == MmuWriteSpec(old(gb.State()), cart, a, v)`), and the
properties the source promises are proved about those functions as lemmas:
the echo mirror, the read-back of every RAM write, the register side
effects, the bank-control rules, the timer's closed form, the decoder's
lengths and cycle costs, the compositor's layer rules, and the CPU's stack,
branch and flag behaviour. Several spec functions (`StoreVram`,
`SetRomBankLow`, `LcdSwitchOn`, `PowerOn`, `DivSpin`, `TimersStepSpec`, …)
carry only a well-formedness `ensures`; what they mean is stated by the
lemmas listed below.

Where the C code does something other than its comments or the hardware
would suggest, the model follows the code: `LD (a16),SP` writes both bytes
at the same address, `PUSH` writes `reg & 0x7` as its low byte, `POP`
reads an immediate at PC, `JP a16` assigns PC's low byte before reading the
high one, the rotate group's labels are off by one so CCF is unreachable,
HALT does nothing, L is unreachable through the 8-bit register accessors
because its case label is 0x0101, and the ADD HL half-carry is computed
from SP. The expression `pc += (int8_t) read(pc++)` of JR has no defined
order in C; the model fixes one reading: the signed operand is added to the
address that follows the operand.

## Model

| member | source | states |
|---|---|---|
| Bytes.Word | app/src/cpu.c:36-37 | `U8_TO_U16(h, l)`: its high byte is h and its low byte is l, so Hi and Lo invert it |
| Bytes.WordOfHalves | app/src/cpu.c:36-37 | recombining the two halves of a word gives the word back |
| Bytes.Signed | app/src/cpu.c:47 | `(int8_t) b` lies in -128..127 and is b modulo 256 |
| Bytes.SignExtend | app/src/cpu.c:263-267 | a byte widened as `(int8_t)` to 16 bits keeps its low byte and repeats the sign bit in the high byte |
| MemMap.RangesTile | app/include/memory.h:125-145 | the region table starts at 0, ends at 0xFFFF, and every region ends one below the start of the next |
| MemMap.RegionOf | app/include/memory.h:168-175 | each `MMU_IS_*` predicate holds exactly for the addresses of its region of the table, so no two hold at once and `MMU_IS_ROM_BANK_0(a)` iff a <= 0x3FFF |
| MemMap.RegionUnique | app/include/memory.h:125-145 | an address lies in one region of the table only |
| MemMap.OffsetsInRange | app/include/memory.h:129-138 | for a VRAM, cart-RAM or WRAM address the `MMU_*_OFFSET` is in [0, 0x2000), for OAM in [0, 160) |
| MemMap.OamSizeAndIe | app/include/memory.h:137-145 | OAM spans exactly 160 bytes and 0xFFFF is neither I/O nor HRAM |
| Context.GameBoy.State | app/src/memory.c:44-116 | the value snapshot of `struct gb_s` (the memories, bank fields, palettes and display fields `mmu_read` reads) that every spec function takes; its memories have the hardware sizes |
| Memory.RomBankNOffset | app/src/memory.c:33-40 | the offset handed to the ROM callback for 0x4000-0x7FFF is the window bank (low five bits on MBC1 in mode 1) times 0x4000 plus the address's position in the window |
| Memory.CartRamOffset | app/src/memory.c:54-63 | the cart-RAM offset is the position in the 8 KiB window plus, on MBC1 in mode 1 with an existing bank, that bank's base |
| Memory.JoypRead | app/src/memory.c:97-112 | JOYP reads its stored high nibble; the low nibble is the d-pad half when bit 4 is clear, the button half when only bit 5 is clear, and 0xF when neither is selected |
| Memory.ReadByRegion | app/src/memory.c:22-118 | `mmu_read` serves each region of the table from its own memory at the header's offset, echo RAM from WRAM 0x2000 lower, and the unusable area and absent or disabled cart RAM as 0xFF |
| Memory.EchoMirrorsWram | app/src/memory.c:69-76 | an echo address reads like the WRAM address 0x2000 below, and a write at either is read back at the other |
| Memory.RamReadBack | app/src/memory.c:164-202 | a byte written in VRAM, WRAM, echo RAM or OAM is read back at its address |
| Memory.VramReadBack | app/src/memory.c:164-166 | the same for VRAM |
| Memory.WramReadBack | app/src/memory.c:190-192 | the same for WRAM |
| Memory.EchoReadBack | app/src/memory.c:195-197 | the same for echo RAM |
| Memory.OamReadBack | app/src/memory.c:200-202 | the same for OAM |
| Memory.RamWriteStores | app/src/memory.c:164-202 | a RAM write is one array store at the region's offset (echo into WRAM) |
| Memory.ReadBackVram | app/src/memory.c:43-45 | a stored VRAM byte is what the bus reads at its address |
| Memory.ReadBackWram | app/src/memory.c:69-76 | a stored WRAM byte is what the bus reads at its address and at its echo address |
| Memory.ReadBackOam | app/src/memory.c:79-81 | a stored OAM byte is what the bus reads at its address |
| Memory.ReadFrame | app/src/memory.c:22-118 | a read depends only on the bank fields, the joypad state and the one byte backing the address |
| Memory.ReadAfterVramStore | app/src/memory.c:43-45 | a VRAM store changes the read of no other address |
| Memory.ReadAfterWramStore | app/src/memory.c:69-76 | a WRAM store changes the read of no address but its own and its echo |
| Memory.ReadAfterOamStore | app/src/memory.c:79-81 | an OAM store changes the read of no other address |
| Memory.Mirror | app/src/memory.c:69-76 | the mirror of a WRAM/echo address differs from it by exactly 0x2000 |
| Memory.RamWriteIsLocal | app/src/memory.c:164-202 | a RAM write changes the read of no address other than itself and its mirror |
| Memory.DisabledAreas | app/src/memory.c:50-52 | 0xFEA0-0xFEFF, and cart RAM when absent or disabled, read as 0xFF, and writes there leave the state unchanged (memory.c:84-86, 171-173, 205-207) |
| Memory.CartRamWrite | app/src/memory.c:169-187 | an enabled cart-RAM write only logs one callback call, at the same offset the read of that address uses |
| Memory.RomAreaWrites | app/src/memory.c:127-137 | below 0x8000 a non-MBC1 cart ignores writes; on MBC1 a write below 0x2000 sets only `enable_cart_ram`, to whether the low nibble is 0xA |
| Memory.RomBankWriteMasked | app/src/memory.c:138-149 | a write to 0x2000-0x3FFF changes only the selected bank, leaves no bit outside the bank mask, and (when the mask keeps the low five bits) never leaves them 0 |
| Memory.RomBankWriteExamples | app/src/memory.c:138-149 | with mask 0x03, writing 0 and writing 5 both select bank 1 |
| Memory.UpperBankAndModeWrites | app/src/memory.c:150-159 | 0x4000-0x5FFF sets the RAM bank to the low two bits and ROM-bank bits 5-6 to them, masked, keeping the low five bits; 0x6000-0x7FFF sets only the mode bit |
| Memory.RegisterWriteRules | app/src/memory.c:215-290 | the whole new state after a write to STAT (bits 3-6 from the value, bits 0-2 kept, bit 7 set), IF (the value with bits 5-7 set), LY (nothing changes), DIV (DIV and `div_count` become 0) and JOYP (bits 4-5 from the value, bits 6-7 set) |
| Memory.DmaWriteRunsCopy | app/src/memory.c:226-229 | a DMA write stores the register, then runs the copy from `val << 8` |
| Memory.PaletteWrites | app/src/memory.c:231-256 | BGP, OBP0 and OBP1 writes store the register and decode it into `bg_palette`, `sp_palette[0..3]` or `sp_palette[4..7]` as `(val >> 2i) & 3`, keeping the other palette (half) |
| Memory.LcdcTransitions | app/src/memory.c:258-277 | LCDC off-to-on blanks, sets STAT mode 2, LY 0 and `lcd_count` 0; on-to-off sets mode 0, LY 0, `lcd_count` 0; STAT's other bits are kept; otherwise only LCDC changes |
| Memory.DmaCopyFrom | app/src/memory.c:331-333 | the loop from step i stores the bus byte at source + k into `oam[k]` for every k >= i, and changes nothing else (induction over the steps) |
| Memory.DmaRegisterCopies | app/src/memory.c:226-229 | after a DMA write, `oam[k]` is the bus byte at `(val << 8) + k` before the copy, for all 160 k, and nothing else but the register changes |
| Memory.WriteVram | app/src/memory.c:165 | the VRAM store, in place |
| Memory.WriteWram | app/src/memory.c:191 | the WRAM store, in place |
| Memory.WriteOam | app/src/memory.c:201 | the OAM store, in place |
| Memory.WriteCartRam | app/src/memory.c:186 | one call of the cart-RAM write callback is logged |
| Memory.WriteRamEnable | app/src/memory.c:134-137 | the RAM-enable register |
| Memory.WriteRomBankLow | app/src/memory.c:138-149 | the low ROM-bank register |
| Memory.WriteRomBankHigh | app/src/memory.c:150-155 | the RAM-bank / upper ROM-bank register |
| Memory.WriteBankingMode | app/src/memory.c:156-159 | the banking-mode register |
| Memory.Mbc1ControlWrite | app/src/memory.c:133-160 | the MBC1 dispatch by address |
| Memory.WriteIo | app/src/memory.c:316 | a store into the I/O page |
| Memory.ResetDiv | app/src/memory.c:220-224 | DIV and `div_count` become 0 |
| Memory.WriteWy | app/src/memory.c:309-311 | WY goes to the context's copy |
| Memory.DecodePalette | app/src/memory.c:234-237 | the four 2-bit colours of a palette byte land at k..k+3 and the rest of the array is kept |
| Memory.DecodeBgPalette | app/src/memory.c:231-238 | BGP decoded into `bg_palette` |
| Memory.DecodeSpPalette | app/src/memory.c:240-256 | OBP0/OBP1 decoded into one half of `sp_palette` |
| Memory.PaletteRegisterWrite | app/src/memory.c:231-256 | the three palette cases |
| Memory.RestartLcdLine | app/src/memory.c:268-274 | LY and `lcd_count` become 0 |
| Memory.SwitchLcdOn | app/src/memory.c:265-270 | the off-to-on branch |
| Memory.SwitchLcdOff | app/src/memory.c:271-275 | the on-to-off branch |
| Memory.LcdcRegisterWrite | app/src/memory.c:258-277 | the LCDC case |
| Memory.DmaStep | app/src/memory.c:332 | one step of the copy loop |
| Memory.DmaCopyLoop | app/src/memory.c:331-333 | the 160-step loop leaves the state DmaCopy gives (loop invariant on the remaining copy) |
| Memory.DmaTransfer | app/src/memory.c:327-334 | `mmu_dma_transfer` copies from `source_high << 8` |
| Memory.DmaSource | app/src/memory.c:328 | the source is a page boundary `source_high * 256` |
| Memory.DmaRegisterWrite | app/src/memory.c:226-229 | the DMA case |
| Memory.IoRegisterWrite | app/src/memory.c:210-319 | the switch on the I/O offset, against IoWrite |
| Memory.MemoryAreaWrite | app/src/memory.c:163-207 | the branches between 0x8000 and 0xFEFF, against MmuWriteSpec |
| Memory.MmuWrite | app/src/memory.c:125-320 | `mmu_write` leaves exactly the state MmuWriteSpec gives |
| Memory.PowerOnValues | app/src/memory.c:340-367 | after `mmu_init` RAM is zero, the I/O page holds the power-on values, `bg_palette` is 0,3,3,3, `sp_palette` all 3, bank 1, RAM bank 0, RAM disabled, mode 0, and nothing else changed |
| Memory.PowerOnPalettes | app/src/memory.c:357-360 | the three palette writes of `mmu_init` only decode the palettes |
| Memory.ZeroFill | app/src/memory.c:342-345 | `memset` to 0 |
| Memory.StorePowerOnRegisters | app/src/memory.c:347-355 | the power-on register stores |
| Memory.ClearMemories | app/src/memory.c:341-355 | the memsets and register stores |
| Memory.SelectDefaultBanks | app/src/memory.c:362-366 | the bank fields |
| Memory.MmuInit | app/src/memory.c:340-367 | `mmu_init` leaves the state PowerOn gives |
| Memory.MmuReset | app/src/memory.c:369-372 | `mmu_reset` is `mmu_init` |
| Memory.MmuGetSaveSize | app/src/memory.c:379-399 | the save size is the table entry for the RAM-size code at 0x0149 exactly when the code is below 6, and an error (-1) otherwise |
| Rom.SaveSizeMatchesBanks | app/src/memory.c:379-399 | the save size `mmu_get_save_size` reports and the loader's RAM-size switch (rom.c:251-276) accept the same codes, 0..5; the size is the KiB the code names and the switch's bank count is that size in 8 KiB banks, rounded up |
| Memory.Mbc1LowBank | app/src/memory.c:140-145 | before masking, the low five bits are the value's (0 read as 1, so never 0), bits 5-6 are kept and bit 7 is clear |
| Memory.Mbc1HighBank | app/src/memory.c:153 | bits 5-6 come from the value's low two bits and the low five bits are kept |
| Memory.PaletteOf | app/src/memory.c:234-237 | entry i is `(val >> 2i) & 3`, and the four entries put back together give val |
| Memory.WithMode | app/src/memory.c:267-272 | STAT's mode field is replaced and its other bits are kept |
| Timers.IncrementsValue | app/src/timers.c:22 | n `uint8_t` increments of DIV add n modulo 256 (induction on n) |
| Timers.DivSpinCount | app/src/timers.c:20-23 | the loop leaves the sub-counter's remainder modulo `DIV_CYCLES` (induction on the counter) |
| Timers.DivSpinDiv | app/src/timers.c:20-23 | the loop increments DIV once per whole period of the sub-counter |
| Timers.TickFrame | app/src/timers.c:21-22 | an iteration changes only `div_count` and DIV |
| Timers.DivSpinFrame | app/src/timers.c:20-23 | the loop changes only `div_count` and DIV |
| Timers.TimersStepResult | app/src/timers.c:16-26 | after a step `div_count < DIV_CYCLES`; old count + cycles = new count + k periods; DIV advanced by k modulo 256; nothing but `div_count` and DIV changed |
| Timers.TimersStepIdle | app/src/timers.c:18-23 | with no cycles and a counter below the period, a step changes nothing |
| Timers.StepAfterReset | app/src/timers.c:31-34 | after a reset, a step of fewer than 65536 cycles leaves cycles mod 256 in the counter and cycles / 256 in DIV |
| Timers.Tick | app/src/timers.c:21-22 | the loop body, in place |
| Timers.TimersStep | app/src/timers.c:16-26 | `timers_step` leaves the state TimersStepSpec gives (loop invariant on the remaining spin) |
| Timers.TimersReset | app/src/timers.c:31-34 | `timers_reset` clears `div_count` and DIV, the same state change as a DIV write on the bus |
| Registers.LLabelUnreachable | app/src/registers.c:31 | no `uint8_t` selector equals L's case label 0x0101, so L cannot be reached through the 8-bit accessors (registers.c:67) |
| Registers.Reg8RoundTrip | app/src/registers.c:23-34 | `getReg8(s)` after `setReg8(s, v)` returns v for s in {0,1,2,3,4,7}; getReg8 at registers.c:59-71 |
| Registers.Reg8WriteIsLocal | app/src/registers.c:23-34 | setReg8 changes the read of no other selector and never touches F, L, SP or PC |
| Registers.DeadSelectors8 | app/src/registers.c:31-32 | every other selector (5 and 6 among them) reads 0 and writes nothing; getReg8 at registers.c:67-70 |
| Registers.PairsHighFirst | app/src/registers.c:73-82 | `getReg16` composes BC, DE, HL high byte first and selector 3 reads SP |
| Registers.Reg16RoundTrip | app/src/registers.c:36-53 | `getReg16(p)` after `setReg16(p, v)` returns v for p in 0..3 |
| Registers.Reg16WriteHalves | app/src/registers.c:38-49 | setReg16 on a pair sets its high register to `v >> 8` and its low register to v mod 256 and leaves all other registers as they were |
| Registers.DeadSelectors16 | app/src/registers.c:51 | 16-bit selectors from 4 on write nothing and read 0 (registers.c:79-81) |
| Registers.PairsAndBytes | app/src/registers.c:59-82 | the pairs' bytes are what the 8-bit selectors read, except that the low byte of HL is L while selector 5 reads 0 |
| Registers.RegisterFile.constructor | app/src/registers.c:7-18 | every register starts at zero |
| Registers.RegisterFile.SetReg8 | app/src/registers.c:23-34 | `setReg8` updates the fields as WithReg8 says (the L case is dead) |
| Registers.RegisterFile.SetReg16 | app/src/registers.c:36-53 | `setReg16` updates the fields as WithReg16 says |
| Registers.RegisterFile.GetReg8 | app/src/registers.c:59-71 | `getReg8` returns Reg8Of of the fields |
| Registers.RegisterFile.GetReg16 | app/src/registers.c:73-82 | `getReg16` returns Reg16Of of the fields |
| Registers.RegisterFile.CopyReg | app/src/registers.c:55-57 | `copyReg(r1, r2)` is `setReg8(r1, getReg8(r2))` |
| Rom.GbRomRead | app/src/rom.c:18-48 | `gb_rom_read` is valid exactly when the context and ROM are present and the address is below `2*ROM_BANK_SIZE-1`; a failed read is `{0, false}`; a valid one is the ROM byte at `selected_rom_bank*ROM_BANK_SIZE+addr` |
| Rom.ReadLimit | app/src/rom.c:35-38 | 0x7FFF and everything above it are refused while 0x7FFE is read |
| Rom.LastBankOverrun | app/src/rom.c:35-45 | with a ROM of `num_rom_banks` banks and the last bank selected, address 0x4000 passes the bound but lies past the buffer |
| Rom.LowWindowInBuffer | app/src/rom.c:42-45 | with the buffer the bootloader allocates (rom.c:153-155) and a bank below `num_rom_banks`, every address below 0x4000 reads inside the buffer |
| Rom.Remap | app/src/rom.c:66-69 | the bank tried is never 0 and is the requested one unless that was 0 |
| Rom.SelectBankStatus | app/src/rom.c:52-83 | the status is 0 or -1, and 0 exactly when the cart has an MBC and the remapped bank is below `num_rom_banks` |
| Rom.SelectBankEffect | app/src/rom.c:59-82 | success sets only `selected_rom_bank`, to the remapped bank (never 0, below `num_rom_banks`); failure changes nothing |
| Rom.SelectBankIdempotent | app/src/rom.c:52-83 | selecting a bank twice is selecting it once |
| Rom.ReadAfterSelect | app/src/rom.c:42-47 | after a successful selection a read returns the ROM byte at remapped bank * 0x4000 + addr |
| Rom.HeaderReadThroughBank | app/src/rom.c:186-189 | when the bootloader's `gb_rom_select_bank(gb, 0)` succeeds, its read of 0x0147 returns ROM byte 0x4147 |
| Rom.RomSelectBank | app/src/rom.c:52-83 | `gb_rom_select_bank` returns -1 for a NULL context and otherwise the state and status SelectBank gives |
| Rom.StoreSelectedBank | app/src/rom.c:81 | the assignment of `selected_rom_bank` |
| Rom.RomBanksOf | app/src/rom.c:126-143 | the ROM-size switch accepts exactly codes 0..6 and 0x52..0x54, and code c <= 6 gives `2 << c` banks |
| Rom.RomBanksCoverSize | app/src/rom.c:113-137 | each accepted code's bank count times 16 KiB is the ROM size the code names (72, 80, 96 banks for 0x52..0x54) |
| Rom.CartKindOf | app/src/rom.c:196-230 | the cart-type switch accepts exactly 0x00..0x03, 0x08, 0x09; MBC1 exactly for 0x01..0x03; cart RAM enabled for all but 0x00 and 0x01; the RAM-bank count set only when there is no MBC |
| Rom.RamBanksOf | app/src/rom.c:251-276 | the RAM-size switch accepts exactly codes 0..5 and gives the 8 KiB banks of the size the code names, rounded up (0, 1, 1, 4, 16, 8) |
| Rom.DecodeHeader | app/src/rom.c:126-276 | the load is accepted exactly when all three codes are |
| Rom.HeaderFields | app/src/rom.c:196-276 | an accepted header has the ROM banks of its size code, the MBC and RAM flag of its type, and the RAM banks of its RAM-size code (the type's own count is overwritten) |
| Rom.RamEnabledWithoutBanks | app/src/rom.c:214-254 | type 0x08 with RAM-size code 0 loads with RAM enabled and no RAM bank |
| Decode.MiscCase | hal/src/decode.c:60-62 | NOP and HALT are one byte and STOP two, all at 4 cycles, with a single cost; no undefined opcode is listed |
| Decode.ImmLoadCase | hal/src/decode.c:64-78 | LD r,imm8 and LD rr,imm16 have one cost each, a fmt-written text, and lie outside the patterned blocks |
| Decode.ImmLoadCycles | hal/src/decode.c:70 | an immediate load costs 8 or 12 cycles |
| Decode.IndirectLoadCase | hal/src/decode.c:80-90 | the eight loads of A through BC, DE, HL+ and HL- have a single cost and a fmt-written text |
| Decode.Arith16Case | hal/src/decode.c:92-100 | INC rr, DEC rr and ADD HL,rr have a single cost and a fmt-written text |
| Decode.SpCase | hal/src/decode.c:102-105 | ADD SP,e, LD HL,SP+e and LD SP,HL have a single cost and a fmt-written text |
| Decode.DirectCase | hal/src/decode.c:107-115 | the absolute and 0xFF00-page loads of A have a single cost and a fmt-written text |
| Decode.AccumulatorCase | hal/src/decode.c:117-125 | RLCA to CCF keep the one-byte, single-cost defaults |
| Decode.JrCase | hal/src/decode.c:127-132 | JR has one cost and JR cc two; neither accepts an undefined opcode |
| Decode.JpCase | hal/src/decode.c:134-140 | JP nn and JP (HL) have one cost and JP cc two |
| Decode.CallCase | hal/src/decode.c:142-152 | CALL nn and RST have one cost and CALL cc two |
| Decode.RetCase | hal/src/decode.c:154-158 | RET and RETI have one cost and RET cc two |
| Decode.StackCase | hal/src/decode.c:160-168 | PUSH, POP, EI and DI have a single cost and a fmt-written text |
| Decode.ListedCase | hal/src/decode.c:58-173 | every case of the first switch gives one to three bytes and 4 to 24 cycles, a written text, and two costs exactly for a conditional branch |
| Decode.PatternedCase | hal/src/decode.c:175-222 | the patterned blocks give one to three bytes and a single cost; the "DB" and empty-text outcomes are one byte and 4 cycles |
| Decode.DecodeReportsOpcode | hal/src/decode.c:225-235 | the record keeps the pc decoded at; after 0xCB it is a two-byte CB instruction reporting the next byte as its opcode, otherwise it reports the opcode fetched |
| Decode.CbCosts | hal/src/decode.c:28-32 | a CB instruction costs 16 cycles exactly when op & 0xC7 is 0x06, 0x86 or 0xC6, 12 exactly when it is 0x46, 8 otherwise, with one cost |
| Decode.CbHlCostsMore | hal/src/decode.c:28-32 | a CB instruction costs more than 8 cycles exactly when it operates on (HL) |
| Decode.ShapeBounds | hal/src/decode.c:225-235 | every decoded instruction is one to three bytes long and costs 4 to 24 cycles, the taken cost never below the untaken one |
| Decode.ListedByImmLoad | hal/src/decode.c:58-78 | an immediate-load opcode is decoded by its case of the first switch |
| Decode.ImmediateLoad8 | hal/src/decode.c:65-71 | LD r,imm8 is two bytes, 12 cycles exactly into (HL) and 8 exactly into a register, with the byte after the opcode as operand |
| Decode.ImmediateLoad16 | hal/src/decode.c:75-78 | LD rr,imm16 is three bytes and 12 cycles, its operand the two following bytes little endian |
| Decode.ConditionalByMask | hal/src/decode.c:129-158 | each conditional branch's four case labels are exactly the opcodes matching its mask on the condition bits |
| Decode.JrCcCosts | hal/src/decode.c:129-132 | JR cc is two bytes, 8 cycles not taken and 12 taken |
| Decode.JpCcCosts | hal/src/decode.c:136-139 | JP cc is three bytes, 12 cycles not taken and 16 taken |
| Decode.CallCcCosts | hal/src/decode.c:144-147 | CALL cc is three bytes, 12 cycles not taken and 24 taken |
| Decode.RetCcCosts | hal/src/decode.c:157-158 | RET cc is one byte, 8 cycles not taken and 20 taken |
| Decode.OnlyBranchesVary | hal/src/decode.c:52-222 | an instruction's maximum exceeds its minimum if and only if it is one of the four conditional branches |
| Decode.RegisterLoads | hal/src/decode.c:179-185 | 0x40-0x7F other than HALT is a one-byte LD r,r' costing 8 cycles exactly when either operand is (HL), 4 otherwise |
| Decode.AluRegisterCosts | hal/src/decode.c:187-193 | 0x80-0xBF is a one-byte ALU operation costing 8 cycles exactly when its source is (HL), 4 otherwise |
| Decode.AluImmediateCosts | hal/src/decode.c:195-201 | an ALU operation with an immediate is two bytes and 8 cycles, its operand the following byte |
| Decode.IncDecAlwaysFour | hal/src/decode.c:203-205 | INC r and DEC r always cost 4 cycles, INC (HL) and DEC (HL) included, since their test for register 6 looks at bits that are always 4 or 5 |
| Decode.DefaultsKept | hal/src/decode.c:210-222 | the opcodes reaching the final switch keep one byte and 4 cycles |
| Decode.StoreSpLeftEmpty | hal/src/decode.c:210-212 | LD (a16),SP is decoded as one byte, 4 cycles and an empty text |
| Decode.DbOnlyForUndefined | hal/src/decode.c:219-235 | `gb_decode` reports "DB $xx" exactly for the undefined opcodes: every other opcode, the CB prefix included, reaches a case with its own text |
| Decode.UndefinedIsDb | hal/src/decode.c:219-221 | an undefined opcode is decoded as "DB $xx", one byte and 4 cycles |
| Gpu.Blank | app/src/gpu.c:18 | the row buffer starts as 160 pixels, all 0 |
| Gpu.ShrIsShift | app/src/gpu.c:142-143 | shifting a tile plane one bit at a time k times equals the uint8_t shift by k |
| Gpu.Colour | app/src/gpu.c:173 | the colour number is in 0..3, its bit 0 the low plane's bit 0 and its bit 1 the high plane's |
| Gpu.TileAddr | app/src/gpu.c:134-139 | a tile row's two bytes lie inside tile data, below the first map |
| Gpu.TileAddrModes | app/src/gpu.c:134-138 | with the tile-select bit set a tile number is unsigned from offset 0; clear, it is signed around offset 0x1000 |
| Gpu.LayerTile | app/src/gpu.c:114-115 | the tile a layer column shows is read from the map row and its row lies in VRAM |
| Gpu.Col | app/src/gpu.c:111 | the layer column a screen column shows is in 0..255, with the uint8_t wrap-around of bg_x |
| Gpu.ColStep | app/src/gpu.c:153-184 | one screen column left is one layer column left, wrapping at 0; inside a tile the bit index grows by one and past its left edge the new column is the rightmost of its tile |
| Gpu.ShiftPlanes | app/src/gpu.c:181-182 | shifting both planes by one advances them to the next bit |
| Gpu.FetchTile | app/src/gpu.c:156-170 | a fetch reads the map entry of the column, addresses its row py and returns both planes shifted to the wanted bit |
| Gpu.LayerStep | app/src/gpu.c:153-184 | one loop iteration draws exactly column x, with the pixel of its layer column, and leaves the fetch state ready for column x - 1 |
| Gpu.LayerRow | app/src/gpu.c:153-184 | the row after the layer loop is 160 pixels long |
| Gpu.DrawLayer | app/src/gpu.c:107-184 | the layer loop redraws columns 159 down to last + 1 from the map and leaves the others as they were |
| Gpu.LayerRowStep | app/src/gpu.c:172-174 | drawing column x extends the row drawn down to x + 1 to the row drawn down to x |
| Gpu.LayerRowColours | app/src/gpu.c:174 | every pixel of a layer row is the old pixel or a bg_palette entry |
| Gpu.BgY | app/src/gpu.c:73 | the background line is in 0..255 (LY + SCY in uint8_t) |
| Gpu.BgMap | app/src/gpu.c:81 | the map row of that line lies inside VRAM |
| Gpu.VBlankFlag | app/src/gpu.c:100-105 | the V-blank request keeps the context well formed |
| Gpu.Background | app/src/gpu.c:64-185 | the background pass keeps a well-formed context and a 160-pixel row |
| Gpu.IfWriteSameDisplay | app/src/gpu.c:103 | writing IF changes nothing the compositor reads |
| Gpu.SameDisplayBackground | app/src/gpu.c:64-81 | contexts agreeing on what the compositor reads take the same background decisions |
| Gpu.SameDisplayWindow | app/src/gpu.c:188-197 | contexts agreeing on what the compositor reads take the same window decisions |
| Gpu.SameDisplayPixel | app/src/gpu.c:134-174 | contexts agreeing on what the compositor reads give the same layer pixels |
| Gpu.VBlankFlagOnlyIf | app/src/gpu.c:100-105 | the V-blank request changes at most IF |
| Gpu.VBlankFlagIf | app/src/gpu.c:100-105 | IF gains bit 0 exactly when LY is 144 and is unchanged otherwise |
| Gpu.BackgroundPixel | app/src/gpu.c:73-184 | column x shows the pixel of map column (x + SCX) mod 256 on line (LY + SCY) mod 256, unaffected by the V-blank request |
| Gpu.RequestVBlank | app/src/gpu.c:100-105 | the method sets IF as VBlankFlag says and changes nothing else |
| Gpu.DrawBackground | app/src/gpu.c:64-185 | the background block leaves the context and row that Background describes |
| Gpu.WinMap | app/src/gpu.c:193-194 | the window-map row of the window line counter lies inside VRAM |
| Gpu.WinPy | app/src/gpu.c:200 | the pixel row inside a window tile is in 0..7 |
| Gpu.WindowRow | app/src/gpu.c:196-245 | the row after the window loop is 160 pixels long |
| Gpu.Window | app/src/gpu.c:188-248 | the window pass keeps a well-formed context and a 160-pixel row |
| Gpu.WindowCovers | app/src/gpu.c:196-240 | every column from WX - 7 on shows window column x - WX + 7, with no wrap-around, on window line window_clear mod 8 |
| Gpu.WindowCoversColumn | app/src/gpu.c:217 | a covered column lies right of the loop's end and its window column does not wrap |
| Gpu.WindowLeavesLeft | app/src/gpu.c:217-219 | columns left of WX - 7 keep what the background drew |
| Gpu.WindowLineCounter | app/src/gpu.c:247 | the window pass advances window_clear by one modulo 256 and changes nothing else in the context |
| Gpu.NextWindowLine | app/src/gpu.c:247 | the method advances window_clear with uint8_t wrap-around and changes nothing else |
| Gpu.DrawWindowRow | app/src/gpu.c:189-245 | the window loop leaves the row WindowRow describes |
| Gpu.DrawWindow | app/src/gpu.c:188-248 | the window block leaves the row WindowRow describes and the context with window_clear advanced |
| Gpu.SpriteOf | app/src/gpu.c:259-266 | in 8x16 mode the tile number read from OAM has bit 0 cleared |
| Gpu.OnLineRange | app/src/gpu.c:268-271 | a sprite is drawn on line LY if and only if Y - 16 <= LY < Y - 16 + height |
| Gpu.SpriteRow | app/src/gpu.c:277-279 | the tile row drawn, after the vertical flip, lies inside the sprite's height |
| Gpu.SpriteRowAddr | app/src/gpu.c:282-283 | the two bytes of that row lie in tile data, unsigned from offset 0 |
| Gpu.SpriteColumns | app/src/gpu.c:287-332 | the covered columns lie on screen between X - 8 and X and show bits 0..7, bit 7 at the left edge unless flipped horizontally, then bit 0 |
| Gpu.RowColour | app/src/gpu.c:301 | a sprite's colour number at a covered column is in 0..3 |
| Gpu.SpriteColour | app/src/gpu.c:282-301 | a sprite's colour number at a covered column, read from VRAM, is in 0..3 |
| Gpu.DrawSpriteSpec | app/src/gpu.c:255-367 | drawing one OAM entry keeps a 160-pixel row |
| Gpu.SpritesFrom | app/src/gpu.c:254 | the row after drawing entries 39 down to k is 160 pixels long |
| Gpu.Sprites | app/src/gpu.c:251-369 | the sprite pass keeps a well-formed context and a 160-pixel row |
| Gpu.SpriteWrites | app/src/gpu.c:298-325 | a sprite changes a pixel only inside its columns, with a non-zero colour, over bg_palette[0] when behind the background, and only to the sp_palette entry its palette bit selects |
| Gpu.LowestIndexWins | app/src/gpu.c:254 | since entries are drawn from 39 down to 0, an opaque pixel of entry i shows when no lower entry touches that column |
| Gpu.MissKeeps | app/src/gpu.c:268-274 | a sprite that does not cover a column leaves it unchanged |
| Gpu.OpaqueDraws | app/src/gpu.c:313-321 | a sprite in front of the background with a non-zero colour writes its palette colour |
| Gpu.DrawSpritePalette | app/src/gpu.c:304-306 | drawing a sprite keeps every pixel 0 or a palette entry |
| Gpu.SpritesPalette | app/src/gpu.c:254-368 | the sprite loop keeps every pixel 0 or a palette entry |
| Gpu.SpriteStep | app/src/gpu.c:298-325 | one column of the sprite loop writes the pixel as the priority and palette rules say and advances both planes |
| Gpu.SpriteDrawn | app/src/gpu.c:300-365 | the row with a run of a sprite's columns drawn is 160 pixels long |
| Gpu.SpriteColumn | app/src/gpu.c:300-365 | one column draws the sprite's colour at x and moves the planes to the next column in the drawing direction |
| Gpu.ColumnRight | app/src/gpu.c:300-311 | a step of the left-to-right loop adds column x to the drawn columns |
| Gpu.ColumnLeft | app/src/gpu.c:340-351 | a step of the right-to-left loop adds column x to the drawn columns |
| Gpu.DrawFlipped | app/src/gpu.c:287-326 | a horizontally flipped sprite, drawn left to right after the initial shift, redraws exactly its covered columns |
| Gpu.DrawUnflipped | app/src/gpu.c:327-366 | an unflipped sprite, drawn right to left after the initial shift, redraws exactly its covered columns |
| Gpu.DrawSpriteSpecColumns | app/src/gpu.c:268-367 | a sprite off the line or off screen leaves the row unchanged; a visible one redraws exactly its covered columns from its tile row |
| Gpu.ReadSprite | app/src/gpu.c:259-266 | the method reads OAM entry s as SpriteOf says |
| Gpu.ReadSpriteRow | app/src/gpu.c:277-283 | the method reads the two bytes of the sprite's tile row on this line |
| Gpu.DrawSprite | app/src/gpu.c:255-367 | one loop iteration leaves the row DrawSpriteSpec describes |
| Gpu.DrawShown | app/src/gpu.c:277-367 | a visible sprite redraws exactly its covered columns in the direction its flip bit selects |
| Gpu.DrawSprites | app/src/gpu.c:251-369 | the sprite loop leaves the row Sprites describes |
| Gpu.BgStage | app/src/gpu.c:64 | the background stage keeps a well-formed frame |
| Gpu.WindowStage | app/src/gpu.c:188 | the window stage keeps a well-formed frame |
| Gpu.SpriteStage | app/src/gpu.c:251 | the sprite stage keeps a well-formed frame |
| Gpu.LineFrame | app/src/gpu.c:18-369 | the blank row through the three stages is a well-formed frame |
| Gpu.DrawLineSpec | app/src/gpu.c:7-393 | drawing a line keeps the context well formed |
| Gpu.BackgroundPass | app/src/gpu.c:64-185 | the background block draws exactly when LCDC enables it |
| Gpu.WindowPass | app/src/gpu.c:188-248 | the window block draws exactly when LCDC enables it, LY >= WY and WX <= 166 |
| Gpu.SpritePass | app/src/gpu.c:251-369 | the sprite block draws exactly when LCDC enables sprites |
| Gpu.GpuDrawLine | app/src/gpu.c:7-393 | gpu_draw_line leaves the context and hands the callback the row and LY as DrawLineSpec says |
| Gpu.SkipIff | app/src/gpu.c:21-24 | nothing is drawn if and only if the callback is missing or LCDC is 0, and then the context is unchanged |
| Gpu.BgStageState | app/src/gpu.c:64-105 | the background stage changes at most IF, setting bit 0 exactly on line 144 with the background enabled |
| Gpu.WindowStageState | app/src/gpu.c:188-248 | the window stage changes at most window_clear, which advances exactly when the window is shown |
| Gpu.SpriteStageState | app/src/gpu.c:251-369 | the sprite stage changes nothing in the context |
| Gpu.StagesKeepLy | app/src/gpu.c:384 | LY is the same after the three stages, so the callback gets the line drawn |
| Gpu.LineSideEffects | app/src/gpu.c:7-393 | a drawn line changes only IF (bit 0 on line 144 with the background enabled) and window_clear (advanced exactly when the window is drawn), and the callback gets line LY |
| Gpu.BgStageColours | app/src/gpu.c:174 | the background stage keeps the palettes and writes only bg_palette entries |
| Gpu.WindowStageColours | app/src/gpu.c:240 | the window stage keeps the palettes and writes only bg_palette entries |
| Gpu.SpriteStageColours | app/src/gpu.c:304-320 | the sprite stage writes only sp_palette entries |
| Gpu.LinePalette | app/src/gpu.c:18-384 | every pixel handed to the callback is 0 or an entry of bg_palette or sp_palette |
| Gpu.TwoBitLine | app/src/gpu.c:384 | with 2-bit palettes every pixel handed to the callback is in 0..3 |
| Cpu.Write | app/src/cpu.c:14-17 | after `gb_write` the written address reads back the value written |
| Cpu.WithLow | app/src/cpu.c:286 | replacing PC's low byte sets that byte and keeps the high byte |
| Cpu.WithHigh | app/src/cpu.c:287 | replacing PC's high byte sets that byte and keeps the low byte |
| Cpu.Load | app/src/cpu.c:104 | the context takes over exactly the state a register helper returned |
| Cpu.GbRead | app/src/cpu.c:9-12 | `gb_read` returns the memory byte at the address |
| Cpu.GbWrite | app/src/cpu.c:14-17 | `gb_write` changes the one memory byte at the address and nothing else |
| Cpu.FetchByte | app/src/cpu.c:21 | `gb_rom_read(gb, pc++)` returns the ROM byte at PC and advances PC by one, wrapping, with nothing else changed |
| Cpu.FetchPair | app/src/cpu.c:101-102 | two immediate fetches return the ROM bytes at PC and PC + 1 and advance PC by two |
| Cpu.ReadPair | app/src/cpu.c:500-501 | two `gb_read(gb, pc++)` return the memory bytes at PC and PC + 1 and advance PC by two |
| Cpu.PushBytes | app/src/cpu.c:502-503 | the two `gb_write(gb, --sp, ...)` store the high byte at SP - 1 and the low byte at SP - 2, and SP drops by two |
| Cpu.JumpRelative | app/src/cpu.c:47 | JR adds the sign-extended offset byte to the PC after the offset |
| Cpu.JumpAbsolute | app/src/cpu.c:421-422 | the byte-wise PC loads of JP leave PC as JpImm describes |
| Cpu.Return | app/src/cpu.c:321-322 | RET loads PC's low byte from SP and its high byte from SP + 1 through the ROM read and raises SP by two |
| Cpu.CallAbsolute | app/src/cpu.c:500-505 | CALL reads the target, pushes the address after the operand and jumps |
| Cpu.ExecCol00 | app/src/cpu.c:29-88 | the 00 xxx 000 opcodes change the context exactly as Col00 describes |
| Cpu.ExecCol01 | app/src/cpu.c:90-106 | the 00 xxx 001 opcodes change the context exactly as Col01 describes |
| Cpu.ExecCol02 | app/src/cpu.c:108-116 | the 00 xxx 010 opcodes change the context exactly as Col02 describes |
| Cpu.ExecCol03 | app/src/cpu.c:118-124 | INC r16 and DEC r16 change the context exactly as Col03 describes |
| Cpu.DaaAdjust | app/src/cpu.c:168-176 | the int16_t adjustment of DAA computes DaaValue |
| Cpu.ExecDaa | app/src/cpu.c:167-184 | DAA changes A and F exactly as Daa describes |
| Cpu.ExecCol07 | app/src/cpu.c:139-204 | the 00 xxx 111 opcodes change the context exactly as Col07 describes |
| Cpu.ExecBlock0 | app/src/cpu.c:27-206 | the 00 xxx yyy opcodes change the context exactly as Block0 describes |
| Cpu.ExecAlu | app/src/cpu.c:216-252 | the ALU group passes the operand and carry-in the middle field selects |
| Cpu.ExecCol30 | app/src/cpu.c:256-316 | the 11 xxx 000 opcodes change the context exactly as Col30 describes |
| Cpu.ExecCol31 | app/src/cpu.c:318-348 | the 11 xxx 001 opcodes change the context exactly as Col31 describes |
| Cpu.ExecCol32 | app/src/cpu.c:350-416 | the 11 xxx 010 opcodes change the context exactly as Col32 describes |
| Cpu.ExecCol33 | app/src/cpu.c:418-439 | JP imm16, the CB prefix, DI and EI change the context exactly as Col33 describes |
| Cpu.ExecCol34 | app/src/cpu.c:441-496 | CALL cc changes the context exactly as Col34 describes |
| Cpu.ExecCol35 | app/src/cpu.c:498-511 | CALL and PUSH change the context exactly as Col35 describes |
| Cpu.ExecBlock3 | app/src/cpu.c:254-557 | the 11 xxx yyy opcodes change the context exactly as Block3 describes |
| Cpu.CpuStep | app/src/cpu.c:19-563 | `cpu_step` fetches the opcode at PC, advances PC, runs the instruction as CpuStepSpec describes and returns 0 |
| Cpu.IdleOpcodes | app/src/cpu.c:31-32 | NOP, opcode 0x07 and every LD r,r naming the same register twice, HALT among them, only move PC past the opcode |
| Cpu.StopHalts | app/src/cpu.c:42-44 | STOP sets the halt flag and moves PC past the opcode, nothing else |
| Cpu.IncDec16Dispatch | app/src/cpu.c:118-124 | INC r16 and DEC r16 write back, through regSet16, the pair of the rr field plus or minus one in uint16_t arithmetic, with PC past the opcode and nothing else touched |
| Cpu.IncDec8Dispatch | app/src/cpu.c:126-132 | INC r8 and DEC r8 write back, through regSet8, the register of the middle field plus or minus one in uint8_t arithmetic, with PC past the opcode and nothing else touched |
| Cpu.JrConditional | app/src/cpu.c:50-86 | JR cc taken moves PC by the signed offset from the end of the instruction; not taken it skips the offset; nothing else changes |
| Cpu.JpCallNotTaken | app/src/cpu.c:374-496 | JP cc and CALL cc not taken skip the opcode and both operand bytes and change nothing else |
| Cpu.RetConditional | app/src/cpu.c:282-314 | RET cc taken is RET; not taken it only moves PC past the opcode |
| Cpu.InterruptEnable | app/src/cpu.c:320-435 | RETI and EI set IME, DI clears it, RET keeps it |
| Cpu.RetPops | app/src/cpu.c:320-323 | RET loads PC little-endian from the two bytes at SP, as the ROM read sees them, and raises SP by two |
| Cpu.ByteLoadsMakeWord | app/src/cpu.c:504-505 | loading PC's low byte and then its high byte gives the word of those bytes whatever PC held |
| Cpu.WriteElsewhere | app/src/cpu.c:14-17 | a write leaves every other address unchanged |
| Cpu.PushThenReadWord | app/src/cpu.c:502-503 | after a push the two bytes at the new SP, read little-endian, are the pushed word |
| Cpu.CallPushesReturn | app/src/cpu.c:499-505 | CALL sets PC to the little-endian operand, lowers SP by two and leaves the address of the next instruction on the stack |
| Cpu.CallThenRet | app/src/cpu.c:320-323 | a RET right after a CALL, reading the bytes the CALL pushed, returns to the instruction after the CALL with SP restored |
| Cpu.RstPushesReturn | app/src/cpu.c:551-555 | RST sets PC to the vector `op & 0x38`, lowers SP by two and leaves the address after the RST on the stack |
| Cpu.PushDispatch | app/src/cpu.c:506-510 | PUSH pushes the pair regGet16stk selects, its low byte masked with 0x7 |
| Cpu.PushMasksLowByte | app/src/cpu.c:508-509 | what that push leaves on the stack is the pair's value masked with 0xFF07, two bytes below the old SP |
| Cpu.PopReadsImmediate | app/src/cpu.c:339-346 | POP as written passes the two bytes after the opcode, high byte first, to regSet16stk, skips them and leaves SP alone |
| Cpu.LdImm16SpStoresLowByte | app/src/cpu.c:34-41 | LD (imm16),SP as written stores only SP's low byte, at the operand address, and skips the operand |
| Cpu.JpImmAsWritten | app/src/cpu.c:420-423 | JP imm16 as written sets PC's low byte to the first operand byte plus one and reads the high byte from the address made of PC + 2's high byte and that operand byte |
| Cpu.RotationsInverse | app/src/cpu.c:142-150 | rotating right undoes rotating left, and the bit carried round is the old bit 7 |
| Cpu.ShiftsInverse | app/src/cpu.c:155-162 | shifting right through the carry undoes shifting left through it |
| Cpu.RlcaThenRrca | app/src/cpu.c:141-151 | opcode 0x0F and then 0x17 give A back, with the flags cleared except C, which is A's old bit 7 |
| Cpu.RlaThenRra | app/src/cpu.c:153-166 | opcode 0x1F and then 0x27 give back A and the carry flag, the other flags cleared |
| Cpu.CplTwice | app/src/cpu.c:185-189 | opcode 0x37 twice gives A back and sets N and H |
| Cpu.DaaCorrectsAddition | app/src/cpu.c:167-184 | after adding two BCD bytes, DAA's result and carry are the decimal sum's last two digits and its carry |
| Cpu.DaaCorrectsSubtraction | app/src/cpu.c:167-184 | after subtracting two BCD bytes, DAA's result and carry are the decimal difference modulo 100 and its borrow |
| Cpu.AddHlDispatch | app/src/cpu.c:91-99 | opcodes 00 rr1 001 run ADD HL,r16 on the pair the middle field selects |
| Cpu.AddHlSum | app/src/cpu.c:92-99 | after ADD HL,r16, HL and the carry flag together hold the 17-bit sum, so C is set exactly when HL wrapped |
| Cpu.AddHlFlags | app/src/cpu.c:95-99 | ADD HL,r16 clears N, keeps Z, takes H from HL + SP whatever the source pair, and changes only HL and F |
| Cpu.SpOffsetFlags | app/src/cpu.c:262-281 | ADD SP,e8 and LD HL,SP+e8 put SP plus the signed operand in SP or HL, clear Z and N, set C exactly when the low byte wrapped and H exactly when the low nibble wrapped, and change nothing else |

## Left out

- Input and output of the loader (fopen, fseek, fread, malloc, free and perror in `bootloader`), the Nintendo-logo area and the loader's control flow: only its three header tables and the bank selection are modelled.
- `gb_rom_select_bank(gb, 0)` at app/src/rom.c:186 reads an `mbc` field the loader has not set yet; the model covers only the case where the selection succeeds (`HeaderReadThroughBank`).
- Rom.GbRomRead: requires the banked offset to lie inside the ROM buffer, because indexing past it is undefined behaviour in C; `LastBankOverrun` shows that the address bound lets such offsets through.
- The debug `printf`s and the `static int frame_count` of gpu.c; the `lcd_draw_line` callback is modelled by returning the row.
- The second NULL check of `lcd_draw_line` in `gpu_draw_line` is the same test as the first and is modelled once.
- The sprite loop of `gpu_draw_line` is split into one method per flip direction; `disp_x` is an integer rather than a uint8_t, since the loop bounds keep it in 0..159.
- No LCD mode stepping, interrupt dispatch or opcode cycle table: none exists in the modelled files.
- Cpu: the register helpers (`regGet8`, `regSet8`, `regGet16`, `regSet16`, `regGet16mem`, `regGet16stk`, `regSet16stk`), the ALU macros (`CPU_ADC_R8` to `CPU_CP_R8`) and `cpu_execute_cb` are not part of this model; they are uninterpreted parameters, so nothing is proved about what they compute.
- Cpu: the register getters (`regGet8`, `regGet16`, `regGet16mem`, `regGet16stk`) are taken to be free of side effects, so LD A,(HL+) and LD A,(HL-) change no register here; each ALU macro is taken to evaluate its operand once, so an immediate operand advances PC by one.
- Cpu: the ROM read used for opcodes, immediates and the RET stack reads is the total parameter `fetch`.
- Cpu: `gb_read`/`gb_write` index the 8 KiB `wram` with a 16-bit address; the model gives them a separate 64 KiB memory, so it does not capture that every address from 0x2000 up is out of bounds in C, nor that a CPU write below 0x2000 is seen by `mmu_read` at 0xC000 plus that address.
- `struct gb_s` is not part of this model; its layout is assumed: the union bytes `pc.bytes.c` and `sp.bytes.p` are the low bytes of PC and SP, `pc.bytes.p` and `sp.bytes.s` the high bytes. LdImm16SpStoresLowByte, JpImmAsWritten, JumpAbsolute, CallPushesReturn, CallThenRet, RetPops and RstPushesReturn rest on this layout.
- `display.window_clear` is assumed to be a `uint8_t`, so Gpu.WindowLineCounter and Gpu.NextWindowLine wrap it modulo 256.
- Cpu: the memory behind `gb_read`/`gb_write` is a sequence field of CpuContext that each write reassigns, not an array updated in place.
- Cpu: `U8_TO_U16` is not shown; it is read as `(h << 8) | l`.
- Cpu.IncDec16Dispatch: does not state that F is unchanged, because the write goes through `regSet16`, which is not part of this model.
- Cpu.IncDec8Dispatch: does not state that F is unchanged, because the write goes through `regSet8`, which is not part of this model.
- Cpu.DaaCorrectsAddition: states the digit-wise correction against a schoolbook BCD sum, not the decimal value of the result, which was too costly to prove.
- Cpu.DaaCorrectsSubtraction: the same for subtraction.
- The joystick, LED, buttons and SPI drivers, main.c and the tests are outside the core.
- The text `vsnprintf` formats in decode.c is modelled as the `Text` datatype (template and table indices), not as characters.
- The joypad state written asynchronously by the input thread is a plain value read by `mmu_read`; no concurrency is modelled.
- `div_count` is an unbounded natural number and the cycles of `timers_step` an unbounded count: the field's type is in `struct gb_s`, which is not part of this model, so the model assumes that `div_count + cycles` does not wrap.
