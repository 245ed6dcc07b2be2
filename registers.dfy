/** The register file of app/src/registers.c: eight 8-bit registers A, B, C,
    D, E, F, H, L and the 16-bit SP and PC, held in file-scope variables and
    reached through selector-indexed getters and setters.

    The file's variables are the fields of the class RegisterFile; the
    setters are methods proved against the functions WithReg8 and WithReg16,
    the getters against Reg8Of and Reg16Of. */
module Registers {
  import opened Bytes

  /** A snapshot of the register file. */
  datatype Regs = Regs(a: byte, b: byte, c: byte, d: byte, e: byte, f: byte,
                       h: byte, l: byte, sp: word, pc: word)

  /** The case label of L in setReg8 and getReg8 is written 0x0101 (257), not
      0b0101; the selector is a uint8_t, so that case is never taken. */
  const L_LABEL: int := 0x0101

  /** getReg8: A is selector 7; B, C, D, E, H are 0 to 4; L answers to
      L_LABEL; any other selector reads 0. */
  function Reg8Of(rs: Regs, reg: byte): (r: byte)
  {
    if reg == 0x7 then rs.a
    else if reg == 0x0 then rs.b
    else if reg == 0x1 then rs.c
    else if reg == 0x2 then rs.d
    else if reg == 0x3 then rs.e
    else if reg == 0x4 then rs.h
    else if reg as int == L_LABEL then rs.l
    else 0x00
  }

  /** setReg8, with the same selectors as getReg8; any other selector is a
      no-op. */
  function WithReg8(rs: Regs, reg: byte, i: byte): (r: Regs)
  {
    if reg == 0x7 then rs.(a := i)
    else if reg == 0x0 then rs.(b := i)
    else if reg == 0x1 then rs.(c := i)
    else if reg == 0x2 then rs.(d := i)
    else if reg == 0x3 then rs.(e := i)
    else if reg == 0x4 then rs.(h := i)
    else if reg as int == L_LABEL then rs.(l := i)
    else rs
  }

  /** getReg16: the pairs BC, DE, HL (selectors 0 to 2) as high byte times
      256 plus low byte, and SP (selector 3); any other selector reads 0. */
  function Reg16Of(rs: Regs, reg: byte): (r: word)
  {
    if reg == 0x0 then ((rs.b as word) << 8) + rs.c as word
    else if reg == 0x1 then ((rs.d as word) << 8) + rs.e as word
    else if reg == 0x2 then ((rs.h as word) << 8) + rs.l as word
    else if reg == 0x3 then rs.sp
    else 0x0000
  }

  /** setReg16: the low register of a pair takes the value truncated to a
      byte, the high one the value shifted right by 8; selector 3 sets SP and
      any other selector is a no-op. */
  function WithReg16(rs: Regs, reg: byte, i: word): (r: Regs)
  {
    if reg == 0x0 then rs.(c := Lo(i), b := Hi(i))
    else if reg == 0x1 then rs.(e := Lo(i), d := Hi(i))
    else if reg == 0x2 then rs.(l := Lo(i), h := Hi(i))
    else if reg == 0x3 then rs.(sp := i)
    else rs
  }

  /** The selectors getReg8 and setReg8 actually answer to. */
  predicate Live8(reg: byte)
  {
    reg == 0x7 || reg <= 0x4
  }

  /** No uint8_t selector equals L's label, so L is out of reach of the
      8-bit accessors. */
  lemma LLabelUnreachable(reg: byte)
    ensures reg as int != L_LABEL
  {
  }

  /** A byte written through a live selector is read back through it. */
  lemma Reg8RoundTrip(rs: Regs, reg: byte, v: byte)
    requires Live8(reg)
    ensures Reg8Of(WithReg8(rs, reg, v), reg) == v
  {
  }

  /** Every other selector still reads what it read before, and F, L, SP and
      PC are untouched. */
  lemma Reg8WriteIsLocal(rs: Regs, reg: byte, other: byte, v: byte)
    requires other != reg
    ensures Reg8Of(WithReg8(rs, reg, v), other) == Reg8Of(rs, other)
    ensures var r := WithReg8(rs, reg, v); r.f == rs.f && r.l == rs.l && r.sp == rs.sp && r.pc == rs.pc
  {
  }

  /** The selectors that are not live, 5 (meant for L) and 6 among them, read
      0 and write nothing (Reg8RoundTrip is the converse). */
  lemma DeadSelectors8(rs: Regs, reg: byte, v: byte)
    requires !Live8(reg)
    ensures Reg8Of(rs, reg) == 0 && WithReg8(rs, reg, v) == rs
  {
    LLabelUnreachable(reg);
  }

  /** The pairs are composed high byte first, as U8_TO_U16(high, low). */
  lemma PairsHighFirst(rs: Regs)
    ensures Reg16Of(rs, 0) == Word(rs.b, rs.c)
    ensures Reg16Of(rs, 1) == Word(rs.d, rs.e)
    ensures Reg16Of(rs, 2) == Word(rs.h, rs.l)
    ensures Reg16Of(rs, 3) == rs.sp
  {
    SumIsWord(rs.b, rs.c);
    SumIsWord(rs.d, rs.e);
    SumIsWord(rs.h, rs.l);
  }

  /** A word written through selectors 0 to 3 is read back. */
  lemma Reg16RoundTrip(rs: Regs, reg: byte, v: word)
    requires reg <= 0x3
    ensures Reg16Of(WithReg16(rs, reg, v), reg) == v
  {
    PairsHighFirst(WithReg16(rs, reg, v));
    WordOfHalves(v);
  }

  /** Writing a pair sets its high register to the value shifted right by 8
      and its low register to the value modulo 256, and leaves every other
      register as it was. */
  lemma Reg16WriteHalves(rs: Regs, reg: byte, v: word)
    requires reg <= 0x2
    ensures var r := WithReg16(rs, reg, v);
      && (reg == 0 ==> r == Regs(rs.a, Hi(v), Lo(v), rs.d, rs.e, rs.f, rs.h, rs.l, rs.sp, rs.pc))
      && (reg == 1 ==> r == Regs(rs.a, rs.b, rs.c, Hi(v), Lo(v), rs.f, rs.h, rs.l, rs.sp, rs.pc))
      && (reg == 2 ==> r == Regs(rs.a, rs.b, rs.c, rs.d, rs.e, rs.f, Hi(v), Lo(v), rs.sp, rs.pc))
  {
  }

  /** 16-bit selectors from 4 up write nothing and read 0. */
  lemma DeadSelectors16(rs: Regs, reg: byte, v: word)
    requires reg >= 0x4
    ensures WithReg16(rs, reg, v) == rs && Reg16Of(rs, reg) == 0
  {
  }

  /** The pairs and the 8-bit selectors see the same bytes, except L: the low
      byte of HL is L, while the selector meant for L reads 0. */
  lemma PairsAndBytes(rs: Regs)
    ensures Hi(Reg16Of(rs, 0)) == Reg8Of(rs, 0) && Lo(Reg16Of(rs, 0)) == Reg8Of(rs, 1)
    ensures Hi(Reg16Of(rs, 1)) == Reg8Of(rs, 2) && Lo(Reg16Of(rs, 1)) == Reg8Of(rs, 3)
    ensures Hi(Reg16Of(rs, 2)) == Reg8Of(rs, 4) && Lo(Reg16Of(rs, 2)) == rs.l
    ensures Reg8Of(rs, 5) == 0
  {
    PairsHighFirst(rs);
  }

  /** The file-scope registers of registers.c. */
  class RegisterFile {
    var a: byte
    var b: byte
    var c: byte
    var d: byte
    var e: byte
    var f: byte
    var h: byte
    var l: byte
    var sp: word
    var pc: word

    function Snapshot(): (r: Regs)
      reads this
    {
      Regs(a, b, c, d, e, f, h, l, sp, pc)
    }

    /** The static initialisers: every register starts at zero. */
    constructor ()
      ensures Snapshot() == Regs(0, 0, 0, 0, 0, 0, 0, 0, 0, 0)
    {
      a, b, c, d, e, f, h, l := 0, 0, 0, 0, 0, 0, 0, 0;
      sp, pc := 0, 0;
    }

    /** setReg8. */
    method SetReg8(reg: byte, i: byte)
      modifies this
      ensures Snapshot() == WithReg8(old(Snapshot()), reg, i)
    {
      if reg == 0x7 {
        a := i;
      } else if reg == 0x0 {
        b := i;
      } else if reg == 0x1 {
        c := i;
      } else if reg == 0x2 {
        d := i;
      } else if reg == 0x3 {
        e := i;
      } else if reg == 0x4 {
        h := i;
      } else if reg as int == L_LABEL {
        // The case of L: no uint8_t selector reaches it.
        assert false;
      }
    }

    /** setReg16. */
    method SetReg16(reg: byte, i: word)
      modifies this
      ensures Snapshot() == WithReg16(old(Snapshot()), reg, i)
    {
      if reg == 0x0 {
        c := (i & 0xFF) as byte;
        b := (i >> 8) as byte;
      } else if reg == 0x1 {
        e := (i & 0xFF) as byte;
        d := (i >> 8) as byte;
      } else if reg == 0x2 {
        l := (i & 0xFF) as byte;
        h := (i >> 8) as byte;
      } else if reg == 0x3 {
        sp := i;
      }
    }

    /** getReg8. */
    method GetReg8(reg: byte) returns (v: byte)
      ensures v == Reg8Of(Snapshot(), reg)
    {
      if reg == 0x7 {
        return a;
      } else if reg == 0x0 {
        return b;
      } else if reg == 0x1 {
        return c;
      } else if reg == 0x2 {
        return d;
      } else if reg == 0x3 {
        return e;
      } else if reg == 0x4 {
        return h;
      } else if reg as int == L_LABEL {
        return l;
      }
      return 0x00;
    }

    /** getReg16. */
    method GetReg16(reg: byte) returns (v: word)
      ensures v == Reg16Of(Snapshot(), reg)
    {
      if reg == 0x0 {
        return ((b as word) << 8) + c as word;
      } else if reg == 0x1 {
        return ((d as word) << 8) + e as word;
      } else if reg == 0x2 {
        return ((h as word) << 8) + l as word;
      } else if reg == 0x3 {
        return sp;
      }
      return 0x0000;
    }

    /** copyReg: setReg8 of the first selector with getReg8 of the second. */
    method CopyReg(reg1: byte, reg2: byte)
      modifies this
      ensures Snapshot() == WithReg8(old(Snapshot()), reg1, Reg8Of(old(Snapshot()), reg2))
    {
      var v := GetReg8(reg2);
      SetReg8(reg1, v);
    }
  }
}
