/** The instruction decoder of hal/src/decode.c: gb_decode reads the opcode at
    pc through a fetch callback and fills a GBDecoded record with the
    instruction's length, its cycle costs and its mnemonic.

    The record is the datatype Decoded. The text that vsnprintf formats is
    modelled by Text, which keeps the template chosen and the operands and
    table indices (into R8, R16, RP2, CC, ALU and the rotate table) handed to
    it, not the characters. Operands read through the callback wrap at 16
    bits, as the uint16_t parameter of the callback does. */
module Decode {
  import opened Bytes

  /** The byte fetch callback gb_fetch_fn, with its user pointer bound. */
  type Fetch = word -> byte

  /** The mnemonics written without operands. */
  datatype Mnemonic =
    | Nop | Stop | Halt
    | LdBcA | LdDeA | LdABc | LdADe          // LD (BC),A ... LD A,(DE)
    | LdHliA | LdAHli | LdHldA | LdAHld      // LD (HL+),A ... LD A,(HL-)
    | LdSpHl | LdhCA | LdhAC                 // LD SP,HL, LD ($FF00+C),A, LD A,($FF00+C)
    | Rlca | Rrca | Rla | Rra | Daa | Cpl | Scf | Ccf
    | JpHl | Ret | Reti | Ei | Di

  /** The mnemonic written into the text field. Register, pair, condition
      and ALU operands are indices into the tables R8, R16, RP2, CC and ALU;
      signed operands are the raw byte printed as an int8_t. */
  datatype Text =
    | Empty                            // text left empty
    | Fixed(m: Mnemonic)               // an instruction without operands
    | LdR8Imm(r: byte, imm: byte)      // "LD %s,$%02X" (or "LD (HL),$%02X")
    | LdR16Imm(rr: byte, nn: word)     // "LD %s,$%04X"
    | IncR16(rr: byte)
    | DecR16(rr: byte)
    | AddHlR16(rr: byte)
    | AddSpImm(e: byte)
    | LdHlSpImm(e: byte)
    | LdMemA(nn: word)
    | LdAMem(nn: word)
    | LdhMemA(n: byte)
    | LdhAMem(n: byte)
    | Jr(e: byte)
    | JrCc(cc: byte, e: byte)
    | Jp(nn: word)
    | JpCc(cc: byte, nn: word)
    | Call(nn: word)
    | CallCc(cc: byte, nn: word)
    | Rst(target: byte)
    | RetCc(cc: byte)
    | Push(rp: byte)
    | Pop(rp: byte)
    | LdRR(dst: byte, src: byte)
    | AluR(alu: byte, src: byte)
    | AluImm(alu: byte, imm: byte)
    | IncR8(r: byte)
    | DecR8(r: byte)
    | Db(op: byte)                     // "DB $%02X" for an unknown opcode
    | CbRot(kind: byte, r: byte)       // rotate table entry kind on R8[r]
    | Bit(b: byte, r: byte)
    | Res(b: byte, r: byte)
    | Set(b: byte, r: byte)

  /** GBDecoded. */
  datatype Decoded = Decoded(pc: word, opcode: byte, cb: bool, length: nat,
                             cyclesMin: nat, cyclesMax: nat, text: Text)

  /** The fields a case of decode_base sets. */
  datatype Shape = Shape(length: nat, cyclesMin: nat, cyclesMax: nat, text: Text)

  /** A one-byte instruction of fixed cost. */
  function One(cycles: nat, text: Text): (r: Shape)
  {
    Shape(1, cycles, cycles, text)
  }

  /** The operand byte after the opcode. */
  function Imm8(fetch: Fetch, pc: word): (r: byte)
  {
    fetch(pc + 1)
  }

  /** The little-endian operand word after the opcode: u16(lo, hi). */
  function Imm16(fetch: Fetch, pc: word): (r: word)
  {
    Word(fetch(pc + 2), fetch(pc + 1))
  }

  /** The fields y = (op>>3)&7, z = op&7 and (op>>4)&3 and (op>>3)&3. */
  function Y(op: byte): (r: byte) { (op >> 3) & 7 }
  function Z(op: byte): (r: byte) { op & 7 }
  function P(op: byte): (r: byte) { (op >> 4) & 3 }
  function Cc(op: byte): (r: byte) { (op >> 3) & 3 }

  // ---------------------------------------------------------------------
  // decode_cb
  // ---------------------------------------------------------------------

  /** The cycle cost of a CB-prefixed instruction: 16 when op & 0xC7 is 0x06,
      0x86 or 0xC6, 12 when it is 0x46, and 8 otherwise. */
  function CbCycles(op: byte): (r: nat)
  {
    if op & 0xC7 == 0x06 || op & 0xC7 == 0x86 || op & 0xC7 == 0xC6 then 8 + 8
    else if op & 0xC7 == 0x46 then 8 + 4
    else 8
  }

  /** The mnemonic of decode_cb, chosen by x = op >> 6. */
  function CbText(op: byte): (r: Text)
  {
    var x := op >> 6;
    if x == 1 then Bit(Y(op), Z(op))
    else if x == 2 then Res(Y(op), Z(op))
    else if x == 3 then Set(Y(op), Z(op))
    else CbRot(Y(op), Z(op))
  }

  /** decode_cb into a record whose pc is already set. */
  function DecodeCb(pc: word, op: byte): (r: Decoded)
  {
    Decoded(pc, op, true, 2, CbCycles(op), CbCycles(op), CbText(op))
  }

  // ---------------------------------------------------------------------
  // decode_base
  // ---------------------------------------------------------------------

  /** An instruction of one to three bytes whose costs lie between 4 and 24
      cycles, the cost of a taken branch not below that of one not taken. */
  predicate Plausible(s: Shape)
  {
    1 <= s.length <= 3 && 4 <= s.cyclesMin <= s.cyclesMax <= 24
  }

  /** The case labels of the four conditional branches. */
  predicate JrCcOp(op: byte) { op == 0x20 || op == 0x28 || op == 0x30 || op == 0x38 }
  predicate JpCcOp(op: byte) { op == 0xC2 || op == 0xCA || op == 0xD2 || op == 0xDA }
  predicate CallCcOp(op: byte) { op == 0xC4 || op == 0xCC || op == 0xD4 || op == 0xDC }
  predicate RetCcOp(op: byte) { op == 0xC0 || op == 0xC8 || op == 0xD0 || op == 0xD8 }

  /** The opcodes of the conditional branches JR cc, JP cc, CALL cc and
      RET cc. */
  predicate Conditional(op: byte)
  {
    JrCcOp(op) || JpCcOp(op) || CallCcOp(op) || RetCcOp(op)
  }

  /** The opcodes left to the patterned blocks after the first switch:
      0x40-0xBF apart from HALT, INC r and DEC r, and the ALU operations with
      an immediate. */
  predicate Patterned(op: byte)
  {
    || (0x40 <= op <= 0xBF && op != 0x76)
    || (op < 0x40 && (op & 7 == 4 || op & 7 == 5))
    || (op >= 0xC0 && op & 7 == 6)
  }

  /** What every case of the first switch promises: a plausible shape, a
      text written by fmt, two costs exactly for the conditional branches,
      and an opcode outside the patterned blocks. */
  predicate ListedShape(op: byte, r: Option<Shape>)
  {
    r.Some? ==>
      && Plausible(r.value)
      && !r.value.text.Empty? && !r.value.text.Db?
      && (r.value.cyclesMin < r.value.cyclesMax <==> Conditional(op))
      && !Patterned(op)
  }

  /** The eleven opcodes the processor does not define. */
  predicate Undefined(op: byte)
  {
    || op == 0xD3 || op == 0xDB || op == 0xDD || op == 0xE3 || op == 0xE4 || op == 0xEB
    || op == 0xEC || op == 0xED || op == 0xF4 || op == 0xFC || op == 0xFD
  }

  /** NOP, STOP and HALT. */
  function MiscCase(op: byte): (r: Option<Shape>)
    ensures ListedShape(op, r)
    ensures r.Some? ==> r.value.cyclesMin == r.value.cyclesMax
    ensures Undefined(op) ==> r.None?
  {
    if op == 0x00 then Some(One(4, Fixed(Nop)))
    else if op == 0x10 then Some(Shape(2, 4, 4, Fixed(Stop)))
    else if op == 0x76 then Some(One(4, Fixed(Halt)))
    else None
  }

  /** LD r,imm8 and LD rr,imm16. */
  function ImmLoadCase(fetch: Fetch, pc: word, op: byte): (r: Option<Shape>)
    ensures ListedShape(op, r)
    ensures r.Some? ==> r.value.cyclesMin == r.value.cyclesMax
    ensures Undefined(op) ==> r.None?
  {
    if (op == 0x06 || op == 0x0E || op == 0x16 || op == 0x1E || op == 0x26 || op == 0x2E || op == 0x36 || op == 0x3E) then
      var cycles := ImmLoadCycles(Y(op));
      Some(Shape(2, cycles, cycles, LdR8Imm(Y(op), Imm8(fetch, pc))))
    else if (op == 0x01 || op == 0x11 || op == 0x21 || op == 0x31) then Some(Shape(3, 12, 12, LdR16Imm(P(op), Imm16(fetch, pc))))
    else None
  }

  /** The cost of LD r,imm8: 12 into (HL), 8 into a register. */
  function ImmLoadCycles(r: byte): (c: nat)
    ensures c == 8 || c == 12
  {
    if r == 6 then 12 else 8
  }

  /** The loads of A through BC, DE, HL+ and HL-. */
  function IndirectLoadCase(op: byte): (r: Option<Shape>)
    ensures ListedShape(op, r)
    ensures r.Some? ==> r.value.cyclesMin == r.value.cyclesMax
    ensures Undefined(op) ==> r.None?
  {
    if op == 0x02 then Some(One(8, Fixed(LdBcA)))
    else if op == 0x12 then Some(One(8, Fixed(LdDeA)))
    else if op == 0x0A then Some(One(8, Fixed(LdABc)))
    else if op == 0x1A then Some(One(8, Fixed(LdADe)))
    else if op == 0x22 then Some(One(8, Fixed(LdHliA)))
    else if op == 0x2A then Some(One(8, Fixed(LdAHli)))
    else if op == 0x32 then Some(One(8, Fixed(LdHldA)))
    else if op == 0x3A then Some(One(8, Fixed(LdAHld)))
    else None
  }

  /** INC rr, DEC rr and ADD HL,rr. */
  function Arith16Case(op: byte): (r: Option<Shape>)
    ensures ListedShape(op, r)
    ensures r.Some? ==> r.value.cyclesMin == r.value.cyclesMax
    ensures Undefined(op) ==> r.None?
  {
    if (op == 0x03 || op == 0x13 || op == 0x23 || op == 0x33) then Some(One(8, IncR16(P(op))))
    else if (op == 0x0B || op == 0x1B || op == 0x2B || op == 0x3B) then Some(One(8, DecR16(P(op))))
    else if (op == 0x09 || op == 0x19 || op == 0x29 || op == 0x39) then Some(One(8, AddHlR16(P(op))))
    else None
  }

  /** The SP arithmetic ADD SP,e (E8), LD HL,SP+e (F8) and LD SP,HL (F9). */
  function SpCase(fetch: Fetch, pc: word, op: byte): (r: Option<Shape>)
    ensures ListedShape(op, r)
    ensures r.Some? ==> r.value.cyclesMin == r.value.cyclesMax
    ensures Undefined(op) ==> r.None?
  {
    if op == 0xE8 then Some(Shape(2, 16, 16, AddSpImm(Imm8(fetch, pc))))
    else if op == 0xF8 then Some(Shape(2, 12, 12, LdHlSpImm(Imm8(fetch, pc))))
    else if op == 0xF9 then Some(One(8, Fixed(LdSpHl)))
    else None
  }

  /** Loads of A from and to an absolute address or the 0xFF00 page. */
  function DirectCase(fetch: Fetch, pc: word, op: byte): (r: Option<Shape>)
    ensures ListedShape(op, r)
    ensures r.Some? ==> r.value.cyclesMin == r.value.cyclesMax
    ensures Undefined(op) ==> r.None?
  {
    if op == 0xEA then Some(Shape(3, 16, 16, LdMemA(Imm16(fetch, pc))))
    else if op == 0xFA then Some(Shape(3, 16, 16, LdAMem(Imm16(fetch, pc))))
    else if op == 0xE0 then Some(Shape(2, 12, 12, LdhMemA(Imm8(fetch, pc))))
    else if op == 0xF0 then Some(Shape(2, 12, 12, LdhAMem(Imm8(fetch, pc))))
    else if op == 0xE2 then Some(One(8, Fixed(LdhCA)))
    else if op == 0xF2 then Some(One(8, Fixed(LdhAC)))
    else None
  }

  /** The accumulator and flag instructions RLCA ... CCF. */
  function AccumulatorCase(op: byte): (r: Option<Shape>)
    ensures ListedShape(op, r)
    ensures r.Some? ==> r.value.cyclesMin == r.value.cyclesMax
    ensures Undefined(op) ==> r.None?
  {
    if op == 0x07 then Some(One(4, Fixed(Rlca)))
    else if op == 0x0F then Some(One(4, Fixed(Rrca)))
    else if op == 0x17 then Some(One(4, Fixed(Rla)))
    else if op == 0x1F then Some(One(4, Fixed(Rra)))
    else if op == 0x27 then Some(One(4, Fixed(Daa)))
    else if op == 0x2F then Some(One(4, Fixed(Cpl)))
    else if op == 0x37 then Some(One(4, Fixed(Scf)))
    else if op == 0x3F then Some(One(4, Fixed(Ccf)))
    else None
  }

  /** JR e and JR cc,e. */
  function JrCase(fetch: Fetch, pc: word, op: byte): (r: Option<Shape>)
    ensures ListedShape(op, r)
    ensures Undefined(op) ==> r.None?
  {
    if op == 0x18 then Some(Shape(2, 12, 12, Jr(Imm8(fetch, pc))))
    else if JrCcOp(op) then Some(Shape(2, 8, 12, JrCc(Cc(op), Imm8(fetch, pc))))
    else None
  }

  /** JP nn, JP cc,nn and JP (HL). */
  function JpCase(fetch: Fetch, pc: word, op: byte): (r: Option<Shape>)
    ensures ListedShape(op, r)
    ensures Undefined(op) ==> r.None?
  {
    if op == 0xC3 then Some(Shape(3, 16, 16, Jp(Imm16(fetch, pc))))
    else if JpCcOp(op) then Some(Shape(3, 12, 16, JpCc(Cc(op), Imm16(fetch, pc))))
    else if op == 0xE9 then Some(One(4, Fixed(JpHl)))
    else None
  }

  /** CALL nn, CALL cc,nn and RST t. */
  function CallCase(fetch: Fetch, pc: word, op: byte): (r: Option<Shape>)
    ensures ListedShape(op, r)
    ensures Undefined(op) ==> r.None?
  {
    if op == 0xCD then Some(Shape(3, 24, 24, Call(Imm16(fetch, pc))))
    else if CallCcOp(op) then Some(Shape(3, 12, 24, CallCc(Cc(op), Imm16(fetch, pc))))
    else if (op == 0xC7 || op == 0xCF || op == 0xD7 || op == 0xDF || op == 0xE7 || op == 0xEF || op == 0xF7 || op == 0xFF) then Some(One(16, Rst(op & 0x38)))
    else None
  }

  /** RET, RETI and RET cc. */
  function RetCase(op: byte): (r: Option<Shape>)
    ensures ListedShape(op, r)
    ensures Undefined(op) ==> r.None?
  {
    if op == 0xC9 then Some(One(16, Fixed(Ret)))
    else if op == 0xD9 then Some(One(16, Fixed(Reti)))
    else if RetCcOp(op) then Some(Shape(1, 8, 20, RetCc(Cc(op))))
    else None
  }

  /** PUSH, POP, EI and DI. */
  function StackCase(op: byte): (r: Option<Shape>)
    ensures ListedShape(op, r)
    ensures r.Some? ==> r.value.cyclesMin == r.value.cyclesMax
    ensures Undefined(op) ==> r.None?
  {
    if (op == 0xC5 || op == 0xD5 || op == 0xE5 || op == 0xF5) then Some(One(16, Push(P(op))))
    else if (op == 0xC1 || op == 0xD1 || op == 0xE1 || op == 0xF1) then Some(One(12, Pop(P(op))))
    else if op == 0xFB then Some(One(4, Fixed(Ei)))
    else if op == 0xF3 then Some(One(4, Fixed(Di)))
    else None
  }

  /** The first switch of decode_base; None for its default case. Its cases
      are disjoint, so taking them group by group in the order of the source
      comments gives the switch's result. */
  function ListedCase(fetch: Fetch, pc: word, op: byte): (r: Option<Shape>)
    ensures ListedShape(op, r)
  {
    if MiscCase(op).Some? then MiscCase(op)
    else if ImmLoadCase(fetch, pc, op).Some? then ImmLoadCase(fetch, pc, op)
    else if IndirectLoadCase(op).Some? then IndirectLoadCase(op)
    else if Arith16Case(op).Some? then Arith16Case(op)
    else if SpCase(fetch, pc, op).Some? then SpCase(fetch, pc, op)
    else if DirectCase(fetch, pc, op).Some? then DirectCase(fetch, pc, op)
    else if AccumulatorCase(op).Some? then AccumulatorCase(op)
    else if JrCase(fetch, pc, op).Some? then JrCase(fetch, pc, op)
    else if JpCase(fetch, pc, op).Some? then JpCase(fetch, pc, op)
    else if CallCase(fetch, pc, op).Some? then CallCase(fetch, pc, op)
    else if RetCase(op).Some? then RetCase(op)
    else StackCase(op)
  }

  /** The patterned blocks after the switch: LD r,r' for 0x40-0x7F, the ALU
      group for 0x80-0xBF, ALU with an immediate, INC r and DEC r, and the
      final switch, whose default writes "DB $xx" and whose cases 0x08 and
      0xE9 leave the text empty. */
  function PatternedCase(fetch: Fetch, pc: word, op: byte): (s: Shape)
    ensures Plausible(s) && s.cyclesMin == s.cyclesMax
    ensures s.text.Db? || s.text.Empty? ==> s.length == 1 && s.cyclesMin == 4
  {
    if op == 0x76 then One(4, Fixed(Halt))
    else if op & 0xC0 == 0x40 then
      One(if Y(op) == 6 || Z(op) == 6 then 8 else 4, LdRR(Y(op), Z(op)))
    else if op & 0xC0 == 0x80 then
      One(if Z(op) == 6 then 8 else 4, AluR(Y(op), Z(op)))
    else if op & 0xC6 == 0xC6 then Shape(2, 8, 8, AluImm(Y(op), Imm8(fetch, pc)))
    else if op & 0xC7 == 0x04 then One(IncDecCycles(op & 0x07 == 6), IncR8(Y(op)))
    else if op & 0xC7 == 0x05 then One(IncDecCycles(op & 0x07 == 6), DecR8(Y(op)))
    else if op == 0x08 || op == 0xE9 then One(4, Empty)
    else One(4, Db(op))
  }

  /** The cost INC r and DEC r compute: 12 if their low three bits are 6. */
  function IncDecCycles(lowIsSix: bool): (r: nat)
  {
    if lowIsSix then 12 else 4
  }

  /** decode_base: every field starts from length 1 and 4 cycles, and the
      case that matches overrides them. */
  function DecodeBase(fetch: Fetch, pc: word, op: byte): (r: Decoded)
  {
    var s := match ListedCase(fetch, pc, op)
      case Some(s) => s
      case None => PatternedCase(fetch, pc, op);
    Decoded(pc, op, false, s.length, s.cyclesMin, s.cyclesMax, s.text)
  }

  /** gb_decode: 0xCB selects decode_cb on the following byte. */
  function GbDecode(fetch: Fetch, pc: word): (r: Decoded)
  {
    var op := fetch(pc);
    if op == 0xCB then DecodeCb(pc, fetch(pc + 1)) else DecodeBase(fetch, pc, op)
  }

  // ---------------------------------------------------------------------
  // Properties
  // ---------------------------------------------------------------------

  /** The record's pc is the pc decoded at; 0xCB gives a two-byte CB
      instruction whose opcode is the byte after the prefix, and any other
      opcode is reported as itself. */
  lemma DecodeReportsOpcode(fetch: Fetch, pc: word)
    ensures GbDecode(fetch, pc).pc == pc
    ensures fetch(pc) == 0xCB ==> GbDecode(fetch, pc).cb && GbDecode(fetch, pc).length == 2
                                  && GbDecode(fetch, pc).opcode == fetch(pc + 1)
    ensures fetch(pc) != 0xCB ==> !GbDecode(fetch, pc).cb && GbDecode(fetch, pc).opcode == fetch(pc)
  {
  }

  /** CB cycle costs: 16 for the (HL) forms of the rotate group, RES and SET,
      12 for BIT on (HL), 8 otherwise; the minimum and maximum agree. */
  lemma CbCosts(pc: word, op: byte)
    ensures var o := DecodeCb(pc, op);
      && o.cyclesMin == o.cyclesMax
      && (o.cyclesMin == 16 <==> op & 0xC7 in {0x06, 0x86, 0xC6})
      && (o.cyclesMin == 12 <==> op & 0xC7 == 0x46)
      && (o.cyclesMin == 8 <==> op & 0xC7 !in {0x06, 0x86, 0xC6, 0x46})
  {
  }

  /** (HL) is register 6 of R8: exactly the CB instructions on (HL) cost more
      than 8 cycles. */
  lemma CbHlCostsMore(pc: word, op: byte)
    ensures DecodeCb(pc, op).cyclesMin > 8 <==> Z(op) == 6
  {
  }

  /** Every instruction is one, two or three bytes long, and the cost of a
      taken branch is never below the cost of one not taken. */
  lemma ShapeBounds(fetch: Fetch, pc: word)
    ensures 1 <= GbDecode(fetch, pc).length <= 3
    ensures 4 <= GbDecode(fetch, pc).cyclesMin <= GbDecode(fetch, pc).cyclesMax <= 24
  {
  }

  /** An opcode of a group of the first switch is decoded by that group. */
  lemma ListedByImmLoad(fetch: Fetch, pc: word, op: byte)
    requires ImmLoadCase(fetch, pc, op).Some?
    ensures DecodeBase(fetch, pc, op).length == ImmLoadCase(fetch, pc, op).value.length
    ensures DecodeBase(fetch, pc, op).cyclesMin == ImmLoadCase(fetch, pc, op).value.cyclesMin
    ensures DecodeBase(fetch, pc, op).cyclesMax == ImmLoadCase(fetch, pc, op).value.cyclesMax
    ensures DecodeBase(fetch, pc, op).text == ImmLoadCase(fetch, pc, op).value.text
  {
    assert MiscCase(op).None?;
  }

  /** LD r,imm8 is two bytes, 12 cycles into (HL) and 8 into a register, and
      its operand is the byte after the opcode. */
  lemma ImmediateLoad8(fetch: Fetch, pc: word, op: byte)
    requires op & 0xC7 == 0x06
    ensures var o := DecodeBase(fetch, pc, op);
      && o.length == 2 && o.cyclesMin == o.cyclesMax
      && (o.cyclesMin == 12 <==> Y(op) == 6) && (o.cyclesMin == 8 <==> Y(op) != 6)
      && o.text == LdR8Imm(Y(op), fetch(pc + 1))
  {
    ListedByImmLoad(fetch, pc, op);
  }

  /** LD rr,imm16 is three bytes and 12 cycles, its operand read little
      endian after the opcode. */
  lemma ImmediateLoad16(fetch: Fetch, pc: word, op: byte)
    requires op & 0xCF == 0x01
    ensures var o := DecodeBase(fetch, pc, op);
      && o.length == 3 && o.cyclesMin == 12 && o.cyclesMax == 12
      && o.text.LdR16Imm? && o.text.rr == P(op)
      && Hi(o.text.nn) == fetch(pc + 2) && Lo(o.text.nn) == fetch(pc + 1)
  {
    ListedByImmLoad(fetch, pc, op);
  }

  /** The case labels of each conditional branch are the four values of its
      condition field, bits 3 and 4. */
  lemma ConditionalByMask(op: byte)
    ensures JrCcOp(op) <==> op & 0xE7 == 0x20
    ensures JpCcOp(op) <==> op & 0xE7 == 0xC2
    ensures CallCcOp(op) <==> op & 0xE7 == 0xC4
    ensures RetCcOp(op) <==> op & 0xE7 == 0xC0
  {
  }

  /** JR cc is two bytes and costs 8 cycles, 12 when taken. */
  lemma JrCcCosts(fetch: Fetch, pc: word, op: byte)
    requires JrCcOp(op)
    ensures DecodeBase(fetch, pc, op)
      == Decoded(pc, op, false, 2, 8, 12, JrCc(Cc(op), fetch(pc + 1)))
  {
  }

  /** JP cc is three bytes and costs 12 cycles, 16 when taken. */
  lemma JpCcCosts(fetch: Fetch, pc: word, op: byte)
    requires JpCcOp(op)
    ensures DecodeBase(fetch, pc, op)
      == Decoded(pc, op, false, 3, 12, 16, JpCc(Cc(op), Imm16(fetch, pc)))
  {
  }

  /** CALL cc is three bytes and costs 12 cycles, 24 when taken. */
  lemma CallCcCosts(fetch: Fetch, pc: word, op: byte)
    requires CallCcOp(op)
    ensures DecodeBase(fetch, pc, op)
      == Decoded(pc, op, false, 3, 12, 24, CallCc(Cc(op), Imm16(fetch, pc)))
  {
  }

  /** RET cc is one byte and costs 8 cycles, 20 when taken. */
  lemma RetCcCosts(fetch: Fetch, pc: word, op: byte)
    requires RetCcOp(op)
    ensures DecodeBase(fetch, pc, op) == Decoded(pc, op, false, 1, 8, 20, RetCc(Cc(op)))
  {
  }

  /** Only the four conditional branches have a maximum above their minimum. */
  lemma OnlyBranchesVary(fetch: Fetch, pc: word, op: byte)
    ensures var o := DecodeBase(fetch, pc, op);
      o.cyclesMin < o.cyclesMax <==> Conditional(op)
  {
  }

  /** 0x40-0x7F apart from HALT is LD r,r' of one byte, costing 8 cycles when
      either field is (HL) and 4 otherwise. */
  lemma RegisterLoads(fetch: Fetch, pc: word, op: byte)
    requires 0x40 <= op <= 0x7F && op != 0x76
    ensures var o := DecodeBase(fetch, pc, op);
      && o.length == 1 && o.cyclesMin == o.cyclesMax
      && (o.cyclesMin == 8 <==> Y(op) == 6 || Z(op) == 6)
      && (o.cyclesMin == 4 <==> Y(op) != 6 && Z(op) != 6)
      && o.text == LdRR(Y(op), Z(op))
  {
  }

  /** The ALU group on a register costs 8 on (HL) and 4 otherwise. */
  lemma AluRegisterCosts(fetch: Fetch, pc: word, op: byte)
    requires 0x80 <= op <= 0xBF
    ensures var o := DecodeBase(fetch, pc, op);
      && o.length == 1 && o.cyclesMin == o.cyclesMax
      && (o.cyclesMin == 8 <==> Z(op) == 6) && (o.cyclesMin == 4 <==> Z(op) != 6)
      && o.text == AluR(Y(op), Z(op))
  {
  }

  /** The ALU with an immediate is two bytes and 8 cycles. */
  lemma AluImmediateCosts(fetch: Fetch, pc: word, op: byte)
    requires op & 0xC7 == 0xC6
    ensures var o := DecodeBase(fetch, pc, op);
      o.length == 2 && o.cyclesMin == 8 && o.cyclesMax == 8 && o.text == AluImm(Y(op), fetch(pc + 1))
  {
  }

  /** INC r and DEC r cost 4 cycles whatever r is, (HL) included: the test
      (op & 0x07) == 6 of those cases can never hold, as their low bits are
      4 or 5. */
  lemma IncDecAlwaysFour(fetch: Fetch, pc: word, op: byte)
    requires op & 0xC6 == 0x04
    ensures var o := DecodeBase(fetch, pc, op);
      o.length == 1 && o.cyclesMin == 4 && o.cyclesMax == 4
      && o.text == (if op & 1 == 0 then IncR8(Y(op)) else DecR8(Y(op)))
  {
  }

  /** The opcodes that reach the final switch keep the defaults of one byte
      and 4 cycles. */
  lemma DefaultsKept(fetch: Fetch, pc: word, op: byte)
    ensures var o := DecodeBase(fetch, pc, op);
      o.text.Db? || o.text.Empty? ==> o.length == 1 && o.cyclesMin == 4 && o.cyclesMax == 4
  {
  }

  /** LD (a16),SP (0x08) has no case of its own before the final switch,
      which leaves it a one-byte, 4-cycle instruction with an empty text. */
  lemma StoreSpLeftEmpty(fetch: Fetch, pc: word)
    ensures DecodeBase(fetch, pc, 0x08) == Decoded(pc, 0x08, false, 1, 4, 4, Empty)
  {
    assert ListedCase(fetch, pc, 0x08).None?;
  }

  /** An undefined opcode is reported as "DB $xx", one byte and 4 cycles. */
  lemma UndefinedIsDb(fetch: Fetch, pc: word, op: byte)
    requires Undefined(op)
    ensures DecodeBase(fetch, pc, op) == Decoded(pc, op, false, 1, 4, 4, Db(op))
  {
  }

  /** Every opcode below 0x40 outside the patterned blocks, 0x08 apart, has
      a case in the first switch. */
  lemma ListedBelow40(fetch: Fetch, pc: word, op: byte)
    requires op < 0x40 && !Patterned(op) && op != 0x08
    ensures ListedCase(fetch, pc, op).Some?
  {
  }

  /** Every opcode from 0xC0 on outside the patterned blocks, except JP (HL),
      the CB prefix and the undefined opcodes, has a case in the first
      switch. */
  lemma ListedFromC0(fetch: Fetch, pc: word, op: byte)
    requires op >= 0xC0 && !Patterned(op) && op != 0xE9 && op != 0xCB && !Undefined(op)
    ensures ListedCase(fetch, pc, op).Some?
  {
  }

  /** The "DB $xx" text of the final default is reached by the undefined
      opcodes and by no other instruction gb_decode reads. */
  lemma DbOnlyForUndefined(fetch: Fetch, pc: word)
    ensures GbDecode(fetch, pc).text.Db? <==> Undefined(fetch(pc))
  {
    var op := fetch(pc);
    if op == 0xCB {
      assert GbDecode(fetch, pc) == DecodeCb(pc, fetch(pc + 1));
    } else if Undefined(op) {
      UndefinedIsDb(fetch, pc, op);
    } else if op == 0x76 || Patterned(op) || op == 0x08 || op == 0xE9 {
      assert !PatternedCase(fetch, pc, op).text.Db?;
    } else {
      if op < 0x40 {
        ListedBelow40(fetch, pc, op);
      } else {
        ListedFromC0(fetch, pc, op);
      }
      assert GbDecode(fetch, pc).text == ListedCase(fetch, pc, op).value.text;
    }
  }
}
