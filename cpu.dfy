/** One instruction of the CPU: `cpu_step` of app/src/cpu.c.

    The step fetches the opcode at PC through the ROM read, advances PC, and
    dispatches on the opcode's fields: `opcode >> 6`, the middle three bits
    and the last three bits. The registers it names directly (PC, SP, A, F,
    BC, HL), IME, the halt flag and the memory reached through gb_read and
    gb_write are the fields of the class CpuContext; the step is a method
    proved against the function CpuStepSpec, which is built from one small
    function per group of opcodes.

    Collaborators whose code is not part of this model are parameters:
    - the ROM read used for opcodes, immediates and the RET stack reads is a
      total function `fetch` from addresses to bytes;
    - the register helpers (regGet8, regSet8, regGet16, regSet16,
      regGet16mem, regGet16stk, regSet16stk), the ALU macros CPU_ADC_R8 to
      CPU_CP_R8 and cpu_execute_cb are the uninterpreted functions of a
      Helpers value. */
module Cpu {
  import opened Bytes

  // ---------------------------------------------------------------------
  // State
  // ---------------------------------------------------------------------

  /** The four flag bits of F. Writing `f.reg = 0` clears all of them. */
  datatype Flags = Flags(z: bool, n: bool, h: bool, c: bool)

  const CLEARED: Flags := Flags(false, false, false, false)

  /** The memory behind gb_read and gb_write: one byte per 16-bit address. */
  type Memory = m: seq<byte> | |m| == 0x10000 witness seq(0x10000, _ => 0)

  /** What a step reads and writes: PC, SP, A, F and the pairs BC, DE, HL
      (DE only through the helpers), gb_ime, gb_halt and the memory. */
  datatype CpuState = CpuState(pc: word, sp: word, a: byte, f: Flags, bc: word, de: word, hl: word,
                               ime: bool, halt: bool, mem: Memory)

  /** The ALU macros: CPU_ADC_R8 and CPU_SBC_R8 take a carry-in, the others
      are passed false. */
  datatype AluOp = Adc | Sbc | And | Xor | Or | Cp

  /** The helpers cpu.c calls but that are not part of this model; each
      takes the context as it is at the call. The 8-bit and 16-bit selectors
      are the opcode fields. */
  datatype Helpers = Helpers(
    get8: (CpuState, byte) -> byte,
    set8: (CpuState, byte, byte) -> CpuState,
    get16: (CpuState, byte) -> word,
    set16: (CpuState, byte, word) -> CpuState,
    get16mem: (CpuState, byte) -> word,
    get16stk: (CpuState, byte) -> word,
    set16stk: (CpuState, byte, word) -> CpuState,
    alu: (CpuState, AluOp, byte, bool) -> CpuState,
    cb: CpuState -> CpuState)

  // ---------------------------------------------------------------------
  // Building blocks
  // ---------------------------------------------------------------------

  /** uint16_t addition, wrapping modulo 2^16 (kept as a function of its
      own, so that a sum is one term wherever it is written). */
  function Add16(x: word, y: word): (r: word)
  {
    x + y
  }

  /** uint16_t subtraction, wrapping modulo 2^16. */
  function Sub16(x: word, y: word): (r: word)
  {
    x - y
  }

  /** uint8_t addition, wrapping modulo 2^8. */
  function Add8(x: byte, y: byte): (r: byte)
  {
    x + y
  }

  /** uint8_t subtraction, wrapping modulo 2^8. */
  function Sub8(x: byte, y: byte): (r: byte)
  {
    x - y
  }

  /** Bit 16 of the 32-bit sum of two 16-bit values: the carry out of an
      addition. */
  function Carry16(x: word, y: word): (r: bool)
  {
    (x as bv32 + y as bv32) & 0x10000 != 0
  }

  /** Bit 12 of the sum of the low twelve bits of two 16-bit values. */
  function HalfCarry12(x: word, y: word): (r: bool)
  {
    ((x & 0xFFF) + (y & 0xFFF)) & 0x1000 != 0
  }

  /** `0xFF00 | n`: the I/O page address of LDH. */
  function Io(n: byte): (r: word)
  {
    0xFF00 | n as word
  }

  /** gb_read. */
  function Read(s: CpuState, addr: word): (r: byte)
  {
    s.mem[addr as int]
  }

  /** gb_write. */
  function Write(s: CpuState, addr: word, v: byte): (r: CpuState)
    ensures Read(r, addr) == v
  {
    s.(mem := s.mem[addr as int := v])
  }

  /** `gb_write(gb, --sp, hi); gb_write(gb, --sp, lo)`: hi lands at SP - 1,
      lo at SP - 2, and SP drops by two. */
  function Push(s: CpuState, hi: byte, lo: byte): (r: CpuState)
  {
    var s1 := Write(s.(sp := Sub16(s.sp, 1)), Sub16(s.sp, 1), hi);
    Write(s1.(sp := Sub16(s1.sp, 1)), Sub16(s1.sp, 1), lo)
  }

  /** The conditions of JR cc, RET cc, JP cc and CALL cc, by index: NZ, Z,
      NC, C. */
  function Cond(f: Flags, k: byte): (r: bool)
    requires k < 4
  {
    if k == 0 then !f.z else if k == 1 then f.z else if k == 2 then !f.c else f.c
  }

  /** `pc.bytes.c = b`: the low byte of PC replaced. */
  function WithLow(w: word, b: byte): (r: word)
    ensures Lo(r) == b && Hi(r) == Hi(w)
  {
    (w & 0xFF00) | b as word
  }

  /** `pc.bytes.p = b`: the high byte of PC replaced. */
  function WithHigh(w: word, b: byte): (r: word)
    ensures Hi(r) == b && Lo(r) == Lo(w)
  {
    ((b as word) << 8) | (w & 0x00FF)
  }

  /** The flags of ADD SP,e8 and LD HL,SP+e8: all clear but H, the carry
      out of the low nibble of SP + e, and C, the carry out of the low byte
      (the int8_t operand masked with 0xF and 0xFF is its own bit pattern). */
  function SpFlags(sp: word, e: byte): (r: Flags)
  {
    CLEARED.(h := (sp & 0xF) as int + (e & 0xF) as int > 0xF,
             c := (sp & 0xFF) as int + e as int > 0xFF)
  }

  // ---------------------------------------------------------------------
  // Opcode groups; s is the state after the opcode fetch
  // ---------------------------------------------------------------------

  /** JR: the offset byte at PC is read and PC moves past it, then the
      signed offset is added. The C statement `pc += (int8_t) read(pc++)`
      leaves the order open; this is the reading where the offset counts
      from the byte after the operand. */
  function Jr(s: CpuState, fetch: word -> byte): (r: CpuState)
  {
    s.(pc := Add16(Add16(s.pc, 1), SignExtend(fetch(s.pc))))
  }

  /** LD (imm16),SP as written: the address is read high byte first, and
      both bytes of SP are written to that same address, the low byte last. */
  function LdImm16Sp(s: CpuState, fetch: word -> byte): (r: CpuState)
  {
    var addr := Word(fetch(s.pc), fetch(Add16(s.pc, 1)));
    var s1 := s.(pc := Add16(s.pc, 2));
    Write(Write(s1, addr, Hi(s.sp)), addr, Lo(s.sp))
  }

  /** 00 xxx 000: NOP, LD (imm16),SP, STOP (sets the halt flag), JR, and JR
      cc picked by the low two bits of the middle field. */
  function Col00(s: CpuState, m3: byte, fetch: word -> byte): (r: CpuState)
    requires m3 < 8
  {
    if m3 == 0 then s
    else if m3 == 1 then LdImm16Sp(s, fetch)
    else if m3 == 2 then s.(halt := true)
    else if m3 == 3 then Jr(s, fetch)
    else if Cond(s.f, m3 & 3) then Jr(s, fetch)
    else s.(pc := Add16(s.pc, 1))
  }

  /** ADD HL,r16: the sum of HL and the source as read by regGet16, kept in
      32 bits for the carry; N cleared, C the carry out of bit 15, H computed
      from the HL and SP registers whatever the source; Z kept. */
  function AddHl(s: CpuState, m3: byte, h: Helpers): (r: CpuState)
  {
    var hl := h.get16(s, 0x2);
    var src := h.get16(s, m3 >> 1);
    s.(f := s.f.(n := false, h := HalfCarry12(s.hl, s.sp), c := Carry16(hl, src)),
       hl := Add16(hl, src))
  }

  /** LD r16,imm16: the operand is read high byte first. */
  function LdR16Imm(s: CpuState, m3: byte, fetch: word -> byte, h: Helpers): (r: CpuState)
  {
    h.set16(s.(pc := Add16(s.pc, 2)), m3 >> 1, Word(fetch(s.pc), fetch(Add16(s.pc, 1))))
  }

  function Col01(s: CpuState, m3: byte, fetch: word -> byte, h: Helpers): (r: CpuState)
  {
    if m3 & 1 != 0 then AddHl(s, m3, h) else LdR16Imm(s, m3, fetch, h)
  }

  /** LD A,(r16mem) and LD (r16mem),A; the latter passes A's value to
      regGet8 as the selector, as written. */
  function Col02(s: CpuState, m3: byte, h: Helpers): (r: CpuState)
  {
    if m3 & 1 != 0 then s.(a := Read(s, h.get16mem(s, m3 >> 1)))
    else Write(s, h.get16mem(s, m3 >> 1), h.get8(s, s.a))
  }

  /** INC r16 and DEC r16, in uint16_t arithmetic. */
  function Col03(s: CpuState, m3: byte, h: Helpers): (r: CpuState)
  {
    if m3 & 1 != 0 then h.set16(s, m3 >> 1, Sub16(h.get16(s, m3 >> 1), 1))
    else h.set16(s, m3 >> 1, Add16(h.get16(s, m3 >> 1), 1))
  }

  /** `(a << 1) | (a >> 7)`: a rotated left by one place. */
  function RotateLeft(a: byte): (r: byte)
  {
    (a << 1) | (a >> 7)
  }

  /** `(a >> 1) | (a << 7)`: a rotated right by one place. */
  function RotateRight(a: byte): (r: byte)
  {
    (a >> 1) | (a << 7)
  }

  /** `(a << 1) | bit`: a shifted left, bit entering at bit 0. */
  function ShiftInLeft(a: byte, bit: bool): (r: byte)
  {
    (a << 1) | (if bit then 0x01 else 0x00)
  }

  /** `(a >> 1) | (bit << 7)`: a shifted right, bit entering at bit 7. */
  function ShiftInRight(a: byte, bit: bool): (r: byte)
  {
    (a >> 1) | (if bit then 0x80 else 0x00)
  }

  function Bit0(a: byte): (r: bool)
  {
    a & 0x01 != 0
  }

  function Bit7(a: byte): (r: bool)
  {
    (a >> 7) & 0x01 != 0
  }

  /** RLCA: A rotated left, F cleared, C the bit that went round. */
  function Rlca(s: CpuState): (r: CpuState)
  {
    var a := RotateLeft(s.a);
    s.(a := a, f := CLEARED.(c := Bit0(a)))
  }

  /** RRCA: F cleared, C the old bit 0, A rotated right. */
  function Rrca(s: CpuState): (r: CpuState)
  {
    s.(f := CLEARED.(c := Bit0(s.a)), a := RotateRight(s.a))
  }

  /** RLA: A shifted left with the old carry in bit 0; C the old bit 7. */
  function Rla(s: CpuState): (r: CpuState)
  {
    s.(a := ShiftInLeft(s.a, s.f.c), f := CLEARED.(c := Bit7(s.a)))
  }

  /** RRA: A shifted right with the old carry in bit 7; C the old bit 0. */
  function Rra(s: CpuState): (r: CpuState)
  {
    s.(a := ShiftInRight(s.a, s.f.c), f := CLEARED.(c := Bit0(s.a)))
  }

  /** The int16_t value DAA computes before truncating it to A, as a 16-bit
      pattern: it lies between -0x60 and 0x165, so the two's-complement
      bits are exact, and the one signed comparison (`a > 0x9F`) is only
      made on the non-negative values of the addition branch. */
  function DaaValue(a: byte, f: Flags): (r: word)
  {
    var a0 := a as word;
    if f.n then
      var t := if f.h then (a0 - 0x06) & 0xFF else a0;
      if f.c then t - 0x60 else t
    else
      var t := if f.h || a0 & 0x0F > 9 then a0 + 0x06 else a0;
      if f.c || t > 0x9F then t + 0x60 else t
  }

  /** DAA: C set when bit 8 of the value is set (and otherwise kept), A the
      value's low byte, Z whether A is 0, H cleared, N kept. */
  function Daa(s: CpuState): (r: CpuState)
  {
    var v := DaaValue(s.a, s.f);
    s.(a := Lo(v), f := s.f.(c := s.f.c || v & 0x100 == 0x100, z := Lo(v) == 0, h := false))
  }

  /** 00 xxx 111. The case labels run 1 to 8 where the middle field runs 0 to
      7: middle field 0 does nothing, 1 is RLCA, 2 RRCA, 3 RLA, 4 RRA, 5 DAA,
      6 CPL, 7 SCF, and CCF is never reached. */
  function Col07(s: CpuState, m3: byte): (r: CpuState)
    requires m3 < 8
  {
    if m3 == 1 then Rlca(s)
    else if m3 == 2 then Rrca(s)
    else if m3 == 3 then Rla(s)
    else if m3 == 4 then Rra(s)
    else if m3 == 5 then Daa(s)
    else if m3 == 6 then s.(a := !s.a, f := s.f.(n := true, h := true))
    else if m3 == 7 then s.(f := s.f.(n := false, h := false, c := true))
    else s
  }

  /** Opcodes 00 xxx yyy. */
  function Block0(s: CpuState, m3: byte, l3: byte, fetch: word -> byte, h: Helpers): (r: CpuState)
    requires m3 < 8 && l3 < 8
  {
    if l3 == 0 then Col00(s, m3, fetch)
    else if l3 == 1 then Col01(s, m3, fetch, h)
    else if l3 == 2 then Col02(s, m3, h)
    else if l3 == 3 then Col03(s, m3, h)
    else if l3 == 4 then h.set8(s, m3, Add8(h.get8(s, m3), 1))
    else if l3 == 5 then h.set8(s, m3, Sub8(h.get8(s, m3), 1))
    else if l3 == 6 then h.set8(s.(pc := Add16(s.pc, 1)), m3, fetch(s.pc))
    else Col07(s, m3)
  }

  /** Opcodes 01 xxx yyy: LD r8,r8, except that every opcode whose two
      fields are equal (HALT among them) does nothing. */
  function Block1(s: CpuState, m3: byte, l3: byte, h: Helpers): (r: CpuState)
  {
    if m3 == l3 then s else h.set8(s, m3, h.get8(s, l3))
  }

  /** The ALU operation of the middle field, on operand v: ADD, ADC, SUB,
      SBC pass the carry flag or 0, AND, XOR, OR, CP pass none. */
  function Alu(s: CpuState, m3: byte, v: byte, h: Helpers): (r: CpuState)
    requires m3 < 8
  {
    if m3 == 0 then h.alu(s, Adc, v, false)
    else if m3 == 1 then h.alu(s, Adc, v, s.f.c)
    else if m3 == 2 then h.alu(s, Sbc, v, false)
    else if m3 == 3 then h.alu(s, Sbc, v, s.f.c)
    else if m3 == 4 then h.alu(s, And, v, false)
    else if m3 == 5 then h.alu(s, Xor, v, false)
    else if m3 == 6 then h.alu(s, Or, v, false)
    else h.alu(s, Cp, v, false)
  }

  /** RET: the low byte of PC, then the high byte, read through the ROM read
      at SP, SP moving up past each. */
  function Ret(s: CpuState, fetch: word -> byte): (r: CpuState)
  {
    s.(pc := Word(fetch(Add16(s.sp, 1)), fetch(s.sp)), sp := Add16(s.sp, 2))
  }

  /** 11 xxx 000: LDH (imm8),A, ADD SP,e8, LDH A,(imm8), LD HL,SP+e8 and
      RET cc. */
  function Col30(s: CpuState, m3: byte, fetch: word -> byte): (r: CpuState)
    requires m3 < 8
  {
    var e := fetch(s.pc);
    if m3 == 4 then Write(s.(pc := Add16(s.pc, 1)), Io(e), s.a)
    else if m3 == 5 then s.(pc := Add16(s.pc, 1), f := SpFlags(s.sp, e), sp := Add16(s.sp, SignExtend(e)))
    else if m3 == 6 then s.(pc := Add16(s.pc, 1), a := Read(s, Io(e)))
    else if m3 == 7 then s.(pc := Add16(s.pc, 1), hl := Add16(s.sp, SignExtend(e)), f := SpFlags(s.sp, e))
    else if Cond(s.f, m3) then Ret(s, fetch)
    else s
  }

  /** 11 xxx 001: RET, RETI (sets IME), JP HL, LD SP,HL, and for the even
      middle fields POP, which as written reads a 16-bit immediate at PC,
      high byte first, and passes it to regSet16stk. */
  function Col31(s: CpuState, m3: byte, fetch: word -> byte, h: Helpers): (r: CpuState)
  {
    if m3 == 1 then Ret(s, fetch)
    else if m3 == 3 then Ret(s, fetch).(ime := true)
    else if m3 == 5 then s.(pc := s.hl)
    else if m3 == 7 then s.(sp := s.hl)
    else h.set16stk(s.(pc := Add16(s.pc, 2)), m3 >> 1, Word(fetch(s.pc), fetch(Add16(s.pc, 1))))
  }

  /** JP imm16 as written: `pc.bytes.c = gb_read(gb, pc++)` increments PC
      and then replaces its low byte, so the high byte is read at the address
      whose low byte is the target's low byte, and the final increment moves
      the low byte one further. */
  function JpImm(s: CpuState): (r: CpuState)
  {
    var p1 := WithLow(Add16(s.pc, 1), Read(s, s.pc));
    s.(pc := WithHigh(Add16(p1, 1), Read(s, p1)))
  }

  /** 11 xxx 010: LDH (C),A, LD (imm16),A, LDH A,(C), LD A,(imm16) and JP
      cc; a JP cc not taken skips its two operand bytes. */
  function Col32(s: CpuState, m3: byte, fetch: word -> byte): (r: CpuState)
    requires m3 < 8
  {
    var addr := Word(fetch(s.pc), fetch(Add16(s.pc, 1)));
    if m3 == 4 then Write(s, Io(Lo(s.bc)), s.a)
    else if m3 == 5 then Write(s.(pc := Add16(s.pc, 2)), addr, s.a)
    else if m3 == 6 then s.(a := Read(s, Io(Lo(s.bc))))
    else if m3 == 7 then s.(pc := Add16(s.pc, 2), a := Read(s, addr))
    else if Cond(s.f, m3) then JpImm(s)
    else s.(pc := Add16(s.pc, 2))
  }

  /** 11 xxx 011: JP imm16, the CB prefix, DI and EI; the other middle
      fields do nothing. */
  function Col33(s: CpuState, m3: byte, h: Helpers): (r: CpuState)
  {
    if m3 == 0 then JpImm(s)
    else if m3 == 1 then h.cb(s)
    else if m3 == 6 then s.(ime := false)
    else if m3 == 7 then s.(ime := true)
    else s
  }

  /** CALL imm16: the target's low then high byte are read at PC through
      gb_read, the address after them is pushed high byte first, and PC
      takes the target. */
  function Call(s: CpuState): (r: CpuState)
  {
    var lo := Read(s, s.pc);
    var hi := Read(s, Add16(s.pc, 1));
    var ret := Add16(s.pc, 2);
    Push(s.(pc := ret), Hi(ret), Lo(ret)).(pc := WithHigh(WithLow(ret, lo), hi))
  }

  /** 11 xxx 100: CALL cc, the condition picked by the low two bits of the
      middle field; not taken, PC skips the two operand bytes. */
  function Col34(s: CpuState, m3: byte): (r: CpuState)
    requires m3 < 8
  {
    if Cond(s.f, m3 & 3) then Call(s) else s.(pc := Add16(s.pc, 2))
  }

  /** 11 xxx 101: CALL imm16 for middle field 1, PUSH otherwise; PUSH
      writes the high byte of the pair and then, as written, the pair's
      value masked with 0x7. */
  function Col35(s: CpuState, m3: byte, h: Helpers): (r: CpuState)
  {
    if m3 == 1 then Call(s)
    else
      var reg := h.get16stk(s, m3 >> 1);
      Push(s, Hi(reg), Lo(reg) & 0x7)
  }

  /** Opcodes 11 xxx yyy. */
  function Block3(s: CpuState, m3: byte, l3: byte, fetch: word -> byte, h: Helpers): (r: CpuState)
    requires m3 < 8 && l3 < 8
  {
    if l3 == 0 then Col30(s, m3, fetch)
    else if l3 == 1 then Col31(s, m3, fetch, h)
    else if l3 == 2 then Col32(s, m3, fetch)
    else if l3 == 3 then Col33(s, m3, h)
    else if l3 == 4 then Col34(s, m3)
    else if l3 == 5 then Col35(s, m3, h)
    else if l3 == 6 then Alu(s.(pc := Add16(s.pc, 1)), m3, fetch(s.pc), h)
    else Push(s, Hi(s.pc), Lo(s.pc)).(pc := m3 as word * 8)
  }

  /** The instruction with opcode op, from the state after the fetch. */
  function Execute(s: CpuState, op: byte, fetch: word -> byte, h: Helpers): (r: CpuState)
  {
    var m3 := (op >> 3) & 0x7;
    var l3 := op & 0x7;
    if op >> 6 == 0 then Block0(s, m3, l3, fetch, h)
    else if op >> 6 == 1 then Block1(s, m3, l3, h)
    else if op >> 6 == 2 then Alu(s, m3, h.get8(s, l3), h)
    else Block3(s, m3, l3, fetch, h)
  }

  /** cpu_step: the opcode is read at PC and PC moves past it before the
      instruction runs. */
  function CpuStepSpec(st: CpuState, fetch: word -> byte, h: Helpers): (r: CpuState)
  {
    Execute(st.(pc := Add16(st.pc, 1)), fetch(st.pc), fetch, h)
  }

  // ---------------------------------------------------------------------
  // The context and the step
  // ---------------------------------------------------------------------

  /** The parts of `struct gb_s` that cpu_step reads and writes. */
  class CpuContext {
    var pc: word
    var sp: word
    var a: byte
    var f: Flags
    var bc: word
    var de: word
    var hl: word
    var ime: bool
    var halt: bool
    var mem: Memory

    function State(): (r: CpuState)
      reads this
    {
      CpuState(pc, sp, a, f, bc, de, hl, ime, halt, mem)
    }
  }

  /** Takes over the context a helper returned. */
  method Load(cpu: CpuContext, s: CpuState)
    modifies cpu
    ensures cpu.State() == s
  {
    cpu.pc, cpu.sp, cpu.a, cpu.f, cpu.bc, cpu.de, cpu.hl := s.pc, s.sp, s.a, s.f, s.bc, s.de, s.hl;
    cpu.ime, cpu.halt, cpu.mem := s.ime, s.halt, s.mem;
  }

  /** gb_read. */
  method GbRead(cpu: CpuContext, addr: word) returns (v: byte)
    ensures v == Read(cpu.State(), addr)
  {
    v := cpu.mem[addr as int];
  }

  /** gb_write. */
  method GbWrite(cpu: CpuContext, addr: word, v: byte)
    modifies cpu
    ensures cpu.State() == Write(old(cpu.State()), addr, v)
  {
    cpu.mem := cpu.mem[addr as int := v];
  }

  /** `gb_rom_read(gb, pc.reg++)`: the byte at PC, PC moving past it. */
  method FetchByte(cpu: CpuContext, fetch: word -> byte) returns (b: byte)
    modifies cpu
    ensures b == fetch(old(cpu.pc))
    ensures cpu.State() == old(cpu.State()).(pc := Add16(old(cpu.pc), 1))
  {
    b := fetch(cpu.pc);
    cpu.pc := Add16(cpu.pc, 1);
  }

  /** Two FetchByte in a row: the operand bytes at PC and PC + 1. */
  method FetchPair(cpu: CpuContext, fetch: word -> byte) returns (first: byte, second: byte)
    modifies cpu
    ensures first == fetch(old(cpu.pc)) && second == fetch(Add16(old(cpu.pc), 1))
    ensures cpu.State() == old(cpu.State()).(pc := Add16(old(cpu.pc), 2))
  {
    first := FetchByte(cpu, fetch);
    second := FetchByte(cpu, fetch);
  }

  /** `gb_read(gb, pc.reg++)` twice: the bytes at PC and PC + 1 through
      gb_read, PC moving past them. */
  method ReadPair(cpu: CpuContext) returns (first: byte, second: byte)
    modifies cpu
    ensures first == Read(old(cpu.State()), old(cpu.pc))
    ensures second == Read(old(cpu.State()), Add16(old(cpu.pc), 1))
    ensures cpu.State() == old(cpu.State()).(pc := Add16(old(cpu.pc), 2))
  {
    first := GbRead(cpu, cpu.pc);
    cpu.pc := Add16(cpu.pc, 1);
    second := GbRead(cpu, cpu.pc);
    cpu.pc := Add16(cpu.pc, 1);
  }

  /** The two `gb_write(gb, --sp, ...)` of CALL, RST and PUSH. */
  method PushBytes(cpu: CpuContext, hi: byte, lo: byte)
    modifies cpu
    ensures cpu.State() == Push(old(cpu.State()), hi, lo)
  {
    cpu.sp := Sub16(cpu.sp, 1);
    GbWrite(cpu, cpu.sp, hi);
    cpu.sp := Sub16(cpu.sp, 1);
    GbWrite(cpu, cpu.sp, lo);
  }

  /** `pc += (int8_t) gb_rom_read(gb, pc++)`. */
  method JumpRelative(cpu: CpuContext, fetch: word -> byte)
    modifies cpu
    ensures cpu.State() == Jr(old(cpu.State()), fetch)
  {
    var e := FetchByte(cpu, fetch);
    cpu.pc := Add16(cpu.pc, SignExtend(e));
  }

  /** The two byte-wise PC loads of JP imm16 and JP cc. */
  method JumpAbsolute(cpu: CpuContext)
    modifies cpu
    ensures cpu.State() == JpImm(old(cpu.State()))
  {
    var lo := GbRead(cpu, cpu.pc);
    cpu.pc := Add16(cpu.pc, 1);
    cpu.pc := WithLow(cpu.pc, lo);
    var hi := GbRead(cpu, cpu.pc);
    cpu.pc := Add16(cpu.pc, 1);
    cpu.pc := WithHigh(cpu.pc, hi);
  }

  /** The byte-wise PC loads of RET, RETI and RET cc, through the ROM read
      at SP. */
  method Return(cpu: CpuContext, fetch: word -> byte)
    modifies cpu
    ensures cpu.State() == Ret(old(cpu.State()), fetch)
  {
    cpu.pc := WithLow(cpu.pc, fetch(cpu.sp));
    cpu.sp := Add16(cpu.sp, 1);
    cpu.pc := WithHigh(cpu.pc, fetch(cpu.sp));
    cpu.sp := Add16(cpu.sp, 1);
  }

  method CallAbsolute(cpu: CpuContext)
    modifies cpu
    ensures cpu.State() == Call(old(cpu.State()))
  {
    var c, p := ReadPair(cpu);
    PushBytes(cpu, Hi(cpu.pc), Lo(cpu.pc));
    cpu.pc := WithLow(cpu.pc, c);
    cpu.pc := WithHigh(cpu.pc, p);
  }

  method ExecCol00(cpu: CpuContext, m3: byte, fetch: word -> byte)
    requires m3 < 8
    modifies cpu
    ensures cpu.State() == Col00(old(cpu.State()), m3, fetch)
  {
    if m3 == 0 {
    } else if m3 == 1 {
      var h, l := FetchPair(cpu, fetch);
      var address := Word(h, l);
      GbWrite(cpu, address, Hi(cpu.sp));
      GbWrite(cpu, address, Lo(cpu.sp));
    } else if m3 == 2 {
      cpu.halt := true;
    } else if m3 == 3 {
      JumpRelative(cpu, fetch);
    } else {
      var k := m3 & 0x3;
      if k == 0 {
        if !cpu.f.z { JumpRelative(cpu, fetch); } else { cpu.pc := Add16(cpu.pc, 1); }
      } else if k == 1 {
        if cpu.f.z { JumpRelative(cpu, fetch); } else { cpu.pc := Add16(cpu.pc, 1); }
      } else if k == 2 {
        if !cpu.f.c { JumpRelative(cpu, fetch); } else { cpu.pc := Add16(cpu.pc, 1); }
      } else {
        if cpu.f.c { JumpRelative(cpu, fetch); } else { cpu.pc := Add16(cpu.pc, 1); }
      }
    }
  }

  method ExecCol01(cpu: CpuContext, m3: byte, fetch: word -> byte, h: Helpers)
    modifies cpu
    ensures cpu.State() == Col01(old(cpu.State()), m3, fetch, h)
  {
    if m3 & 0x1 != 0 {
      var hl := h.get16(cpu.State(), 0x2);
      var src := h.get16(cpu.State(), m3 >> 1);
      cpu.f := cpu.f.(n := false);
      cpu.f := cpu.f.(h := HalfCarry12(cpu.hl, cpu.sp));
      cpu.f := cpu.f.(c := Carry16(hl, src));
      cpu.hl := Add16(hl, src);
    } else {
      var hi, lo := FetchPair(cpu, fetch);
      Load(cpu, h.set16(cpu.State(), m3 >> 1, Word(hi, lo)));
    }
  }

  method ExecCol02(cpu: CpuContext, m3: byte, h: Helpers)
    modifies cpu
    ensures cpu.State() == Col02(old(cpu.State()), m3, h)
  {
    var address := h.get16mem(cpu.State(), m3 >> 1);
    if m3 & 0x1 != 0 {
      var v := GbRead(cpu, address);
      cpu.a := v;
    } else {
      GbWrite(cpu, address, h.get8(cpu.State(), cpu.a));
    }
  }

  method ExecCol03(cpu: CpuContext, m3: byte, h: Helpers)
    modifies cpu
    ensures cpu.State() == Col03(old(cpu.State()), m3, h)
  {
    if m3 & 0x1 != 0 {
      Load(cpu, h.set16(cpu.State(), m3 >> 1, Sub16(h.get16(cpu.State(), m3 >> 1), 1)));
    } else {
      Load(cpu, h.set16(cpu.State(), m3 >> 1, Add16(h.get16(cpu.State(), m3 >> 1), 1)));
    }
  }

  /** The int16_t adjustment of DAA, step by step. */
  method DaaAdjust(a: byte, f: Flags) returns (v: word)
    ensures v == DaaValue(a, f)
  {
    v := a as word;
    if f.n {
      if f.h { v := (v - 0x06) & 0xFF; }
      if f.c { v := v - 0x60; }
    } else {
      if f.h || v & 0x0F > 9 { v := v + 0x06; }
      if f.c || v > 0x9F { v := v + 0x60; }
    }
  }

  method ExecDaa(cpu: CpuContext)
    modifies cpu
    ensures cpu.State() == Daa(old(cpu.State()))
  {
    var v := DaaAdjust(cpu.a, cpu.f);
    if v & 0x100 == 0x100 { cpu.f := cpu.f.(c := true); }
    cpu.a := Lo(v);
    cpu.f := cpu.f.(z := cpu.a == 0);
    cpu.f := cpu.f.(h := false);
  }

  method ExecCol07(cpu: CpuContext, m3: byte)
    requires m3 < 8
    modifies cpu
    ensures cpu.State() == Col07(old(cpu.State()), m3)
  {
    if m3 == 1 {
      cpu.a := RotateLeft(cpu.a);
      cpu.f := CLEARED;
      cpu.f := cpu.f.(c := Bit0(cpu.a));
    } else if m3 == 2 {
      cpu.f := CLEARED;
      cpu.f := cpu.f.(c := Bit0(cpu.a));
      cpu.a := RotateRight(cpu.a);
    } else if m3 == 3 {
      var temp := cpu.a;
      cpu.a := ShiftInLeft(cpu.a, cpu.f.c);
      cpu.f := CLEARED;
      cpu.f := cpu.f.(c := Bit7(temp));
    } else if m3 == 4 {
      var temp := cpu.a;
      cpu.a := ShiftInRight(cpu.a, cpu.f.c);
      cpu.f := CLEARED;
      cpu.f := cpu.f.(c := Bit0(temp));
    } else if m3 == 5 {
      ExecDaa(cpu);
    } else if m3 == 6 {
      cpu.a := !cpu.a;
      cpu.f := cpu.f.(n := true);
      cpu.f := cpu.f.(h := true);
    } else if m3 == 7 {
      cpu.f := cpu.f.(n := false);
      cpu.f := cpu.f.(h := false);
      cpu.f := cpu.f.(c := true);
    }
  }

  method ExecBlock0(cpu: CpuContext, m3: byte, l3: byte, fetch: word -> byte, h: Helpers)
    requires m3 < 8 && l3 < 8
    modifies cpu
    ensures cpu.State() == Block0(old(cpu.State()), m3, l3, fetch, h)
  {
    if l3 == 0 {
      ExecCol00(cpu, m3, fetch);
    } else if l3 == 1 {
      ExecCol01(cpu, m3, fetch, h);
    } else if l3 == 2 {
      ExecCol02(cpu, m3, h);
    } else if l3 == 3 {
      ExecCol03(cpu, m3, h);
    } else if l3 == 4 {
      Load(cpu, h.set8(cpu.State(), m3, Add8(h.get8(cpu.State(), m3), 1)));
    } else if l3 == 5 {
      Load(cpu, h.set8(cpu.State(), m3, Sub8(h.get8(cpu.State(), m3), 1)));
    } else if l3 == 6 {
      var imm := FetchByte(cpu, fetch);
      Load(cpu, h.set8(cpu.State(), m3, imm));
    } else {
      ExecCol07(cpu, m3);
    }
  }

  method ExecAlu(cpu: CpuContext, m3: byte, v: byte, h: Helpers)
    requires m3 < 8
    modifies cpu
    ensures cpu.State() == Alu(old(cpu.State()), m3, v, h)
  {
    if m3 == 0 {
      Load(cpu, h.alu(cpu.State(), Adc, v, false));
    } else if m3 == 1 {
      Load(cpu, h.alu(cpu.State(), Adc, v, cpu.f.c));
    } else if m3 == 2 {
      Load(cpu, h.alu(cpu.State(), Sbc, v, false));
    } else if m3 == 3 {
      Load(cpu, h.alu(cpu.State(), Sbc, v, cpu.f.c));
    } else if m3 == 4 {
      Load(cpu, h.alu(cpu.State(), And, v, false));
    } else if m3 == 5 {
      Load(cpu, h.alu(cpu.State(), Xor, v, false));
    } else if m3 == 6 {
      Load(cpu, h.alu(cpu.State(), Or, v, false));
    } else {
      Load(cpu, h.alu(cpu.State(), Cp, v, false));
    }
  }

  method ExecCol30(cpu: CpuContext, m3: byte, fetch: word -> byte)
    requires m3 < 8
    modifies cpu
    ensures cpu.State() == Col30(old(cpu.State()), m3, fetch)
  {
    if m3 == 4 {
      var e := FetchByte(cpu, fetch);
      GbWrite(cpu, Io(e), cpu.a);
    } else if m3 == 5 {
      var e := FetchByte(cpu, fetch);
      cpu.f := SpFlags(cpu.sp, e);
      cpu.sp := Add16(cpu.sp, SignExtend(e));
    } else if m3 == 6 {
      var e := FetchByte(cpu, fetch);
      var v := GbRead(cpu, Io(e));
      cpu.a := v;
    } else if m3 == 7 {
      var e := FetchByte(cpu, fetch);
      cpu.hl := Add16(cpu.sp, SignExtend(e));
      cpu.f := SpFlags(cpu.sp, e);
    } else if m3 == 0 {
      if !cpu.f.z { Return(cpu, fetch); }
    } else if m3 == 1 {
      if cpu.f.z { Return(cpu, fetch); }
    } else if m3 == 2 {
      if !cpu.f.c { Return(cpu, fetch); }
    } else {
      if cpu.f.c { Return(cpu, fetch); }
    }
  }

  method ExecCol31(cpu: CpuContext, m3: byte, fetch: word -> byte, h: Helpers)
    modifies cpu
    ensures cpu.State() == Col31(old(cpu.State()), m3, fetch, h)
  {
    if m3 == 1 {
      Return(cpu, fetch);
    } else if m3 == 3 {
      Return(cpu, fetch);
      cpu.ime := true;
    } else if m3 == 5 {
      cpu.pc := cpu.hl;
    } else if m3 == 7 {
      cpu.sp := cpu.hl;
    } else {
      var hi, lo := FetchPair(cpu, fetch);
      Load(cpu, h.set16stk(cpu.State(), m3 >> 1, Word(hi, lo)));
    }
  }

  method ExecCol32(cpu: CpuContext, m3: byte, fetch: word -> byte)
    requires m3 < 8
    modifies cpu
    ensures cpu.State() == Col32(old(cpu.State()), m3, fetch)
  {
    if m3 == 4 {
      GbWrite(cpu, Io(Lo(cpu.bc)), cpu.a);
    } else if m3 == 5 {
      var hi, lo := FetchPair(cpu, fetch);
      GbWrite(cpu, Word(hi, lo), cpu.a);
    } else if m3 == 6 {
      var v := GbRead(cpu, Io(Lo(cpu.bc)));
      cpu.a := v;
    } else if m3 == 7 {
      var hi, lo := FetchPair(cpu, fetch);
      var v := GbRead(cpu, Word(hi, lo));
      cpu.a := v;
    } else if m3 == 0 {
      if !cpu.f.z { JumpAbsolute(cpu); } else { cpu.pc := Add16(cpu.pc, 2); }
    } else if m3 == 1 {
      if cpu.f.z { JumpAbsolute(cpu); } else { cpu.pc := Add16(cpu.pc, 2); }
    } else if m3 == 2 {
      if !cpu.f.c { JumpAbsolute(cpu); } else { cpu.pc := Add16(cpu.pc, 2); }
    } else {
      if cpu.f.c { JumpAbsolute(cpu); } else { cpu.pc := Add16(cpu.pc, 2); }
    }
  }

  method ExecCol33(cpu: CpuContext, m3: byte, h: Helpers)
    modifies cpu
    ensures cpu.State() == Col33(old(cpu.State()), m3, h)
  {
    if m3 == 0 {
      JumpAbsolute(cpu);
    } else if m3 == 1 {
      Load(cpu, h.cb(cpu.State()));
    } else if m3 == 6 {
      cpu.ime := false;
    } else if m3 == 7 {
      cpu.ime := true;
    }
  }

  method ExecCol34(cpu: CpuContext, m3: byte)
    requires m3 < 8
    modifies cpu
    ensures cpu.State() == Col34(old(cpu.State()), m3)
  {
    var k := m3 & 0x3;
    if k == 0 {
      if !cpu.f.z { CallAbsolute(cpu); } else { cpu.pc := Add16(cpu.pc, 2); }
    } else if k == 1 {
      if cpu.f.z { CallAbsolute(cpu); } else { cpu.pc := Add16(cpu.pc, 2); }
    } else if k == 2 {
      if !cpu.f.c { CallAbsolute(cpu); } else { cpu.pc := Add16(cpu.pc, 2); }
    } else {
      if cpu.f.c { CallAbsolute(cpu); } else { cpu.pc := Add16(cpu.pc, 2); }
    }
  }

  method ExecCol35(cpu: CpuContext, m3: byte, h: Helpers)
    modifies cpu
    ensures cpu.State() == Col35(old(cpu.State()), m3, h)
  {
    if m3 == 0x1 {
      CallAbsolute(cpu);
    } else {
      var reg := h.get16stk(cpu.State(), m3 >> 1);
      PushBytes(cpu, Hi(reg), Lo(reg) & 0x7);
    }
  }

  method ExecBlock3(cpu: CpuContext, m3: byte, l3: byte, fetch: word -> byte, h: Helpers)
    requires m3 < 8 && l3 < 8
    modifies cpu
    ensures cpu.State() == Block3(old(cpu.State()), m3, l3, fetch, h)
  {
    if l3 == 0 {
      ExecCol30(cpu, m3, fetch);
    } else if l3 == 1 {
      ExecCol31(cpu, m3, fetch, h);
    } else if l3 == 2 {
      ExecCol32(cpu, m3, fetch);
    } else if l3 == 3 {
      ExecCol33(cpu, m3, h);
    } else if l3 == 4 {
      ExecCol34(cpu, m3);
    } else if l3 == 5 {
      ExecCol35(cpu, m3, h);
    } else if l3 == 6 {
      var imm := FetchByte(cpu, fetch);
      ExecAlu(cpu, m3, imm, h);
    } else {
      PushBytes(cpu, Hi(cpu.pc), Lo(cpu.pc));
      cpu.pc := m3 as word * 8;
    }
  }

  /** cpu_step: one instruction; the function always returns 0. */
  method CpuStep(cpu: CpuContext, fetch: word -> byte, h: Helpers) returns (r: word)
    modifies cpu
    ensures cpu.State() == CpuStepSpec(old(cpu.State()), fetch, h)
    ensures r == 0
  {
    var opcode := FetchByte(cpu, fetch);
    var middle3 := (opcode >> 3) & 0x7;
    var last3 := opcode & 0x7;
    if opcode >> 6 == 0x0 {
      ExecBlock0(cpu, middle3, last3, fetch, h);
    } else if opcode >> 6 == 0x1 {
      if middle3 != last3 {
        Load(cpu, h.set8(cpu.State(), middle3, h.get8(cpu.State(), last3)));
      }
    } else if opcode >> 6 == 0x2 {
      ExecAlu(cpu, middle3, h.get8(cpu.State(), last3), h);
    } else {
      ExecBlock3(cpu, middle3, last3, fetch, h);
    }
    r := 0;
  }

  // ---------------------------------------------------------------------
  // Properties of one step, by opcode
  // ---------------------------------------------------------------------

  /** The condition codes of JR, JP, CALL and RET as the instruction set
      defines them: bits 4 and 3 of the opcode select NZ, Z, NC or C. */
  function CondOf(op: byte, f: Flags): (taken: bool)
  {
    match op & 0x18
    case 0x00 => !f.z
    case 0x08 => f.z
    case 0x10 => !f.c
    case _ => f.c
  }

  /** The 16-bit value stored little-endian at addr in memory. */
  function ReadWord(s: CpuState, addr: word): (w: word)
  {
    Word(Read(s, Add16(addr, 1)), Read(s, addr))
  }

  /** NOP, the opcode 0x07 (whose case label is never reached), and every
      LD r,r whose two fields name the same register, HALT (0x76) among
      them: the step only moves PC past the opcode. */
  lemma IdleOpcodes(st: CpuState, fetch: word -> byte, h: Helpers)
    requires var op := fetch(st.pc); op == 0x00 || op == 0x07 || (op >> 6 == 1 && (op >> 3) & 7 == op & 7)
    ensures CpuStepSpec(st, fetch, h) == st.(pc := Add16(st.pc, 1))
  {
  }

  /** STOP (0x10) sets the halt flag. */
  lemma StopHalts(st: CpuState, fetch: word -> byte, h: Helpers)
    requires fetch(st.pc) == 0x10
    ensures CpuStepSpec(st, fetch, h) == st.(pc := Add16(st.pc, 1), halt := true)
  {
  }

  /** INC r16 (00 rr0 011) and DEC r16 (00 rr1 011): the pair of the rr
      field is read with regGet16 and written back with regSet16, one more
      or one less in uint16_t arithmetic; nothing else is touched. */
  lemma IncDec16Dispatch(st: CpuState, fetch: word -> byte, h: Helpers)
    requires fetch(st.pc) & 0xC7 == 0x03
    ensures var s1 := st.(pc := Add16(st.pc, 1));
            var p := (fetch(st.pc) >> 4) & 0x3;
            var v := h.get16(s1, p);
            CpuStepSpec(st, fetch, h) == h.set16(s1, p, if fetch(st.pc) & 0x08 == 0 then Add16(v, 1) else Sub16(v, 1))
  {
    assert ((fetch(st.pc) >> 3) & 0x7) >> 1 == (fetch(st.pc) >> 4) & 0x3;
  }

  /** INC r8 (00 rrr 100) and DEC r8 (00 rrr 101): the register of the
      middle field is read with regGet8 and written back with regSet8, one
      more or one less in uint8_t arithmetic. */
  lemma IncDec8Dispatch(st: CpuState, fetch: word -> byte, h: Helpers)
    requires fetch(st.pc) & 0xC6 == 0x04
    ensures var s1 := st.(pc := Add16(st.pc, 1));
            var r := (fetch(st.pc) >> 3) & 0x7;
            var v := h.get8(s1, r);
            CpuStepSpec(st, fetch, h) == h.set8(s1, r, if fetch(st.pc) & 0x01 == 0 then Add8(v, 1) else Sub8(v, 1))
  {
  }

  /** JR cc: taken, PC moves by the signed offset from the end of the
      instruction; not taken, PC skips the offset. Nothing else changes. */
  lemma JrConditional(st: CpuState, fetch: word -> byte, h: Helpers)
    requires fetch(st.pc) in {0x20, 0x28, 0x30, 0x38}
    ensures var end := Add16(Add16(st.pc, 1), 1);
            CpuStepSpec(st, fetch, h)
              == if CondOf(fetch(st.pc), st.f) then st.(pc := Add16(end, SignExtend(fetch(Add16(st.pc, 1)))))
                 else st.(pc := end)
  {
  }

  /** JP cc and CALL cc not taken: PC skips the opcode and its two operand
      bytes, and nothing else changes. */
  lemma JpCallNotTaken(st: CpuState, fetch: word -> byte, h: Helpers)
    requires fetch(st.pc) in {0xC2, 0xCA, 0xD2, 0xDA, 0xC4, 0xCC, 0xD4, 0xDC}
    requires !CondOf(fetch(st.pc), st.f)
    ensures CpuStepSpec(st, fetch, h) == st.(pc := Add16(Add16(st.pc, 1), 2))
  {
  }

  /** RET cc not taken changes nothing but PC, which moves past the
      opcode; taken, it is RET. */
  lemma RetConditional(st: CpuState, fetch: word -> byte, h: Helpers)
    requires fetch(st.pc) in {0xC0, 0xC8, 0xD0, 0xD8}
    ensures CpuStepSpec(st, fetch, h)
              == if CondOf(fetch(st.pc), st.f) then Ret(st.(pc := Add16(st.pc, 1)), fetch)
                 else st.(pc := Add16(st.pc, 1))
  {
  }

  /** RET, RETI, DI and EI on IME: RETI and EI set it, DI clears it, RET
      keeps it. */
  lemma InterruptEnable(st: CpuState, fetch: word -> byte, h: Helpers)
    requires fetch(st.pc) in {0xC9, 0xD9, 0xF3, 0xFB}
    ensures var op := fetch(st.pc);
            CpuStepSpec(st, fetch, h).ime == if op == 0xC9 then st.ime else op != 0xF3
  {
  }

  /** RET pops PC from the two bytes at SP, low byte first, as the ROM read
      sees them, and SP moves up by two. */
  lemma RetPops(st: CpuState, fetch: word -> byte, h: Helpers)
    requires fetch(st.pc) == 0xC9
    ensures var r := CpuStepSpec(st, fetch, h);
            r.pc == Word(fetch(Add16(st.sp, 1)), fetch(st.sp)) && r.sp == Add16(st.sp, 2)
  {
  }

  /** Replacing both bytes of PC, low byte first, gives the word of the two
      new bytes whatever PC was. */
  lemma ByteLoadsMakeWord(w: word, lo: byte, hi: byte)
    ensures WithHigh(WithLow(w, lo), hi) == Word(hi, lo)
  {
  }

  lemma IndexRoundTrip(a: word)
    ensures (a as int) as word == a
  {
  }

  /** Distinct addresses are distinct memory indices. */
  lemma IndexInjective(a: word, b: word)
    requires a != b
    ensures a as int != b as int
  {
    IndexRoundTrip(a);
    IndexRoundTrip(b);
  }

  lemma MemoryElsewhere(m: Memory, addr: word, v: byte, other: word)
    requires other != addr
    ensures m[addr as int := v][other as int] == m[other as int]
  {
    IndexInjective(addr, other);
  }

  /** A write leaves every other address as it was. */
  lemma WriteElsewhere(s: CpuState, addr: word, v: byte, other: word)
    requires other != addr
    ensures Read(Write(s, addr, v), other) == Read(s, other)
  {
    MemoryElsewhere(s.mem, addr, v, other);
  }

  lemma BelowTop(top: word)
    ensures Add16(Sub16(top, 1), 1) == top && Sub16(top, 1) != top
  {
  }

  /** After a push the two bytes at SP, read little-endian, are the pushed
      word. */
  lemma PushThenReadWord(s: CpuState, hi: byte, lo: byte)
    ensures var r := Push(s, hi, lo);
            r.sp == Sub16(Sub16(s.sp, 1), 1) && ReadWord(r, r.sp) == Word(hi, lo)
  {
    var top := Sub16(s.sp, 1);
    var s1 := Write(s.(sp := top), top, hi);
    BelowTop(top);
    WriteElsewhere(s1.(sp := Sub16(top, 1)), Sub16(top, 1), lo, top);
  }

  /** CALL imm16 (0xCD): PC takes the little-endian operand, SP drops by
      two, and the address of the next instruction is on the stack. */
  lemma CallPushesReturn(st: CpuState, fetch: word -> byte, h: Helpers)
    requires fetch(st.pc) == 0xCD
    ensures var r := CpuStepSpec(st, fetch, h);
            var next := Add16(Add16(st.pc, 1), 2);
            && r.pc == ReadWord(st, Add16(st.pc, 1))
            && r.sp == Sub16(Sub16(st.sp, 1), 1)
            && ReadWord(r, r.sp) == next
  {
    var s1 := st.(pc := Add16(st.pc, 1));
    var next := Add16(s1.pc, 2);
    ByteLoadsMakeWord(next, Read(s1, s1.pc), Read(s1, Add16(s1.pc, 1)));
    PushThenReadWord(s1.(pc := next), Hi(next), Lo(next));
    WordOfHalves(next);
  }

  lemma PushPopBalance(sp: word)
    ensures Add16(Sub16(Sub16(sp, 1), 1), 2) == sp
  {
  }

  /** CALL then RET: when the ROM read sees the two bytes CALL pushed, the
      RET after it comes back to the instruction after the CALL with SP
      where it was. */
  lemma CallThenRet(st: CpuState, fetch: word -> byte, h: Helpers)
    requires fetch(st.pc) == 0xCD
    requires var s1 := CpuStepSpec(st, fetch, h);
             && fetch(s1.pc) == 0xC9
             && fetch(s1.sp) == Read(s1, s1.sp)
             && fetch(Add16(s1.sp, 1)) == Read(s1, Add16(s1.sp, 1))
    ensures var s2 := CpuStepSpec(CpuStepSpec(st, fetch, h), fetch, h);
            s2.pc == Add16(Add16(st.pc, 1), 2) && s2.sp == st.sp
  {
    var s1 := CpuStepSpec(st, fetch, h);
    CallPushesReturn(st, fetch, h);
    RetPops(s1, fetch, h);
    PushPopBalance(st.sp);
  }

  lemma RestartVector(op: byte)
    requires op & 0xC7 == 0xC7
    ensures ((op >> 3) & 0x7) as word * 8 == (op & 0x38) as word
  {
  }

  /** RST n (11 nnn 111): PC becomes n * 8, and the address after the RST
      is pushed. */
  lemma RstPushesReturn(st: CpuState, fetch: word -> byte, h: Helpers)
    requires fetch(st.pc) & 0xC7 == 0xC7
    ensures var r := CpuStepSpec(st, fetch, h);
            && r.pc == (fetch(st.pc) & 0x38) as word
            && r.sp == Sub16(Sub16(st.sp, 1), 1)
            && ReadWord(r, r.sp) == Add16(st.pc, 1)
  {
    var next := Add16(st.pc, 1);
    PushThenReadWord(st.(pc := next), Hi(next), Lo(next));
    WordOfHalves(next);
    RestartVector(fetch(st.pc));
  }

  lemma MaskedWord(w: word)
    ensures Word(Hi(w), Lo(w) & 0x7) == w & 0xFF07
  {
  }

  /** PUSH as written (11 rr0 101, and the unofficial 11 rr1 101 other than
      CALL): the step pushes the selected pair with its low byte masked with
      0x7. */
  lemma PushDispatch(st: CpuState, fetch: word -> byte, h: Helpers)
    requires fetch(st.pc) & 0xC7 == 0xC5 && fetch(st.pc) != 0xCD
    ensures var s1 := st.(pc := Add16(st.pc, 1));
            var reg := h.get16stk(s1, (fetch(st.pc) >> 4) & 0x3);
            CpuStepSpec(st, fetch, h) == Push(s1, Hi(reg), Lo(reg) & 0x7)
  {
    assert ((fetch(st.pc) >> 3) & 0x7) >> 1 == (fetch(st.pc) >> 4) & 0x3;
  }

  /** What that push leaves on the stack: the pair's value masked with
      0xFF07, two bytes below the old SP. */
  lemma PushMasksLowByte(s: CpuState, reg: word)
    ensures var r := Push(s, Hi(reg), Lo(reg) & 0x7);
            && r.sp == Sub16(Sub16(s.sp, 1), 1)
            && ReadWord(r, r.sp) == reg & 0xFF07
            && r.pc == s.pc
  {
    PushThenReadWord(s, Hi(reg), Lo(reg) & 0x7);
    MaskedWord(reg);
  }

  /** POP as written (11 rr0 001): the two bytes after the opcode, the
      first as the high byte, go to regSet16stk, and SP is not touched. */
  lemma PopReadsImmediate(st: CpuState, fetch: word -> byte, h: Helpers)
    requires fetch(st.pc) & 0xCF == 0xC1
    ensures var p := Add16(st.pc, 1);
            CpuStepSpec(st, fetch, h)
              == h.set16stk(st.(pc := Add16(p, 2)), (fetch(st.pc) >> 4) & 0x3, Word(fetch(p), fetch(Add16(p, 1))))
  {
    assert ((fetch(st.pc) >> 3) & 0x7) >> 1 == (fetch(st.pc) >> 4) & 0x3;
  }

  lemma OverwriteSame(m: Memory, i: int, x: byte, y: byte)
    requires 0 <= i < |m|
    ensures m[i := x][i := y] == m[i := y]
  {
    var twice, once := m[i := x][i := y], m[i := y];
    assert forall k :: 0 <= k < |m| ==> twice[k] == once[k];
  }

  /** LD (imm16),SP as written: the high byte of SP is overwritten by the
      low byte at the same address, so of SP only its low byte is stored. */
  lemma LdImm16SpStoresLowByte(st: CpuState, fetch: word -> byte, h: Helpers)
    requires fetch(st.pc) == 0x08
    ensures var p := Add16(st.pc, 1);
            var addr := Word(fetch(p), fetch(Add16(p, 1)));
            CpuStepSpec(st, fetch, h) == Write(st.(pc := Add16(p, 2)), addr, Lo(st.sp))
  {
    var p := Add16(st.pc, 1);
    var addr := Word(fetch(p), fetch(Add16(p, 1)));
    OverwriteSame(st.mem, addr as int, Hi(st.sp), Lo(st.sp));
  }

  lemma WithLowIsWord(w: word, b: byte)
    ensures WithLow(w, b) == Word(Hi(w), b)
  {
  }

  lemma WithHighIsWord(w: word, b: byte)
    ensures WithHigh(w, b) == Word(b, Lo(w))
  {
  }

  lemma LowOfIncrement(w: word)
    ensures Lo(Add16(w, 1)) == Add8(Lo(w), 1)
  {
  }

  /** JP imm16 as written: the target's low byte is the first operand byte
      plus one, and its high byte is read from the address made of the high
      byte of PC + 2 and the first operand byte. */
  lemma JpImmAsWritten(st: CpuState, fetch: word -> byte, h: Helpers)
    requires fetch(st.pc) == 0xC3
    ensures var p := Add16(st.pc, 1);
            var lo := Read(st, p);
            CpuStepSpec(st, fetch, h)
              == st.(pc := Word(Read(st, Word(Hi(Add16(p, 1)), lo)), Add8(lo, 1)))
  {
    var p := Add16(st.pc, 1);
    var lo := Read(st, p);
    WithLowIsWord(Add16(p, 1), lo);
    var p1 := WithLow(Add16(p, 1), lo);
    LowOfIncrement(p1);
    WithHighIsWord(Add16(p1, 1), Read(st, p1));
  }

  lemma RotationsInverse(a: byte)
    ensures RotateRight(RotateLeft(a)) == a
    ensures Bit0(RotateLeft(a)) == Bit7(a)
  {
  }

  lemma ShiftsInverse(a: byte, bit: bool)
    ensures ShiftInRight(ShiftInLeft(a, bit), Bit7(a)) == a
    ensures Bit0(ShiftInLeft(a, bit)) == bit
  {
  }

  /** Opcode 0x0F (RLCA as labelled) followed by 0x17 (RRCA) gives A back,
      with the flags cleared but for C, A's old bit 7. */
  lemma RlcaThenRrca(st: CpuState, fetch: word -> byte, h: Helpers)
    requires fetch(st.pc) == 0x0F && fetch(Add16(st.pc, 1)) == 0x17
    ensures CpuStepSpec(CpuStepSpec(st, fetch, h), fetch, h)
              == st.(pc := Add16(Add16(st.pc, 1), 1), f := CLEARED.(c := Bit7(st.a)))
  {
    RotationsInverse(st.a);
  }

  /** Opcode 0x1F (RLA as labelled) followed by 0x27 (RRA) gives back both A
      and the carry flag, the other flags cleared. */
  lemma RlaThenRra(st: CpuState, fetch: word -> byte, h: Helpers)
    requires fetch(st.pc) == 0x1F && fetch(Add16(st.pc, 1)) == 0x27
    ensures CpuStepSpec(CpuStepSpec(st, fetch, h), fetch, h)
              == st.(pc := Add16(Add16(st.pc, 1), 1), f := CLEARED.(c := st.f.c))
  {
    ShiftsInverse(st.a, st.f.c);
  }

  /** Opcode 0x37 (CPL as labelled) twice gives A back, N and H set. */
  lemma CplTwice(st: CpuState, fetch: word -> byte, h: Helpers)
    requires fetch(st.pc) == 0x37 && fetch(Add16(st.pc, 1)) == 0x37
    ensures CpuStepSpec(CpuStepSpec(st, fetch, h), fetch, h)
              == st.(pc := Add16(Add16(st.pc, 1), 1), f := st.f.(n := true, h := true))
  {
  }

  /** A byte of two binary-coded decimal digits. */
  predicate IsBcd(b: byte)
  {
    b >> 4 <= 9 && b & 0xF <= 9
  }

  /** Decimal addition of two BCD bytes, digit by digit with a carry: the
      BCD byte of the last two digits of the sum and the carry out. */
  function BcdAdd(x: byte, y: byte): (byte, bool)
    requires IsBcd(x) && IsBcd(y)
  {
    var units := (x & 0xF) + (y & 0xF);
    var d0 := if units >= 10 then units - 10 else units;
    var tens := (x >> 4) + (y >> 4) + (if units >= 10 then 1 else 0);
    var d1 := if tens >= 10 then tens - 10 else tens;
    ((d1 << 4) | d0, tens >= 10)
  }

  /** Decimal subtraction of two BCD bytes, digit by digit with a borrow: the
      BCD byte of the difference modulo 100 and the borrow out. */
  function BcdSub(x: byte, y: byte): (byte, bool)
    requires IsBcd(x) && IsBcd(y)
  {
    var borrow := x & 0xF < y & 0xF;
    var d0 := if borrow then (x & 0xF) + 10 - (y & 0xF) else (x & 0xF) - (y & 0xF);
    var subtrahend := (y >> 4) + (if borrow then 1 else 0);
    var d1 := if x >> 4 < subtrahend then (x >> 4) + 10 - subtrahend else (x >> 4) - subtrahend;
    ((d1 << 4) | d0, x >> 4 < subtrahend)
  }

  /** The value DAA computes after an 8-bit addition of two BCD bytes, with
      the half carry and carry that addition leaves: its low byte and bit 8
      (or the carry) are the decimal sum and its carry. */
  lemma DaaCorrectsAddition(x: byte, y: byte, z: bool)
    requires IsBcd(x) && IsBcd(y)
    ensures var f := Flags(z, false, (x & 0xF) + (y & 0xF) > 0xF, x as word + y as word > 0xFF);
            var v := DaaValue(x + y, f);
            (Lo(v), f.c || v & 0x100 == 0x100) == BcdAdd(x, y)
  {
  }

  /** The value DAA computes after an 8-bit subtraction of two BCD bytes,
      with the half borrow and borrow that subtraction leaves: its low byte
      and bit 8 (or the borrow) are the decimal difference modulo 100 and its
      borrow. */
  lemma DaaCorrectsSubtraction(x: byte, y: byte, z: bool)
    requires IsBcd(x) && IsBcd(y)
    ensures var f := Flags(z, true, x & 0xF < y & 0xF, x < y);
            var v := DaaValue(x - y, f);
            (Lo(v), f.c || v & 0x100 == 0x100) == BcdSub(x, y)
  {
  }

  lemma Add16Carry(x: word, y: word)
    ensures Carry16(x, y) == (Add16(x, y) < x)
    ensures Add16(x, y) as bv32 + (if Carry16(x, y) then 0x10000 else 0) == x as bv32 + y as bv32
  {
  }

  lemma AddHlDispatch(st: CpuState, fetch: word -> byte, h: Helpers)
    requires fetch(st.pc) & 0xCF == 0x09
    ensures CpuStepSpec(st, fetch, h) == AddHl(st.(pc := Add16(st.pc, 1)), (fetch(st.pc) >> 3) & 0x7, h)
  {
  }

  /** ADD HL,r16 (00 rr1 001), after the opcode fetch: HL and the carry
      flag together hold the 17-bit sum of HL and the source pair, so C is
      set exactly when HL wrapped. */
  lemma AddHlSum(s: CpuState, m3: byte, h: Helpers)
    ensures var hl := h.get16(s, 0x2);
            var r := AddHl(s, m3, h);
            && r.hl as bv32 + (if r.f.c then 0x10000 else 0) == hl as bv32 + h.get16(s, m3 >> 1) as bv32
            && r.f.c == (r.hl < hl)
  {
    var hl, src := h.get16(s, 0x2), h.get16(s, m3 >> 1);
    var r := AddHl(s, m3, h);
    assert r.hl == Add16(hl, src) && r.f.c == Carry16(hl, src);
    Add16Carry(hl, src);
  }

  /** The other effects of ADD HL,r16: N is cleared, Z kept, H is the carry
      out of bit 11 of HL + SP whichever pair is the source, and only HL and
      F change. */
  lemma AddHlFlags(s: CpuState, m3: byte, h: Helpers)
    ensures var r := AddHl(s, m3, h);
            && !r.f.n && r.f.z == s.f.z
            && r.f.h == HalfCarry12(s.hl, s.sp)
            && r == s.(hl := r.hl, f := r.f)
  {
  }

  lemma LowOfOffset(x: word, e: byte)
    ensures Lo(Add16(x, SignExtend(e))) == Add8(Lo(x), e)
  {
  }

  lemma ByteCarries(x: word, e: byte)
    ensures var sum := Add8(Lo(x), e);
            && SpFlags(x, e).c == (sum < Lo(x))
            && SpFlags(x, e).h == (sum & 0xF < Lo(x) & 0xF)
  {
  }

  /** ADD SP,e8 (0xE8) and LD HL,SP+e8 (0xF8): the signed operand is added
      to SP and the sum goes to SP or to HL; Z and N are cleared, C is set
      exactly when the low byte of the sum is below that of SP (the low byte
      wrapped) and H exactly when its low nibble is below SP's. */
  lemma SpOffsetFlags(st: CpuState, fetch: word -> byte, h: Helpers)
    requires fetch(st.pc) == 0xE8 || fetch(st.pc) == 0xF8
    ensures var p := Add16(st.pc, 1);
            var sum := Add16(st.sp, SignExtend(fetch(p)));
            var r := CpuStepSpec(st, fetch, h);
            && (if fetch(st.pc) == 0xE8 then r.sp == sum && r.hl == st.hl else r.hl == sum && r.sp == st.sp)
            && !r.f.z && !r.f.n
            && r.f.c == (Lo(sum) < Lo(st.sp))
            && r.f.h == (Lo(sum) & 0xF < Lo(st.sp) & 0xF)
            && r == st.(pc := Add16(p, 1), sp := r.sp, hl := r.hl, f := r.f)
  {
    var e := fetch(Add16(st.pc, 1));
    LowOfOffset(st.sp, e);
    ByteCarries(st.sp, e);
  }
}
