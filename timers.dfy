/** The DIV timer of app/src/timers.c: a sub-counter of CPU cycles that
    increments the 8-bit DIV register once every DIV_CYCLES cycles.

    The loop of timers_step is the method TimersStep, proved against the
    recursive function DivSpin that takes one loop iteration per call; the
    closed form of DivSpin is proved separately. */
module Timers {
  import opened Bytes
  import opened Context
  import Memory

  /** The byte b after n uint8_t increments. */
  function Increments(b: byte, n: nat): (r: byte)
    decreases n
  {
    if n == 0 then b else Increments(b + 1, n - 1)
  }

  /** n increments of a byte add n modulo 256. */
  lemma {:induction false} IncrementsValue(b: byte, n: nat)
    ensures Increments(b, n) as int == (b as int + n) % 256
    decreases n
  {
    if n > 0 {
      var c := b + 1;
      IncrementsValue(c, n - 1);
      assert Increments(b, n) == Increments(c, n - 1);
      var v := b as int;
      if b == 0xFF {
        assert c as int == 0;
        assert (n - 1) % 256 == (v + n) % 256;
      } else {
        assert c as int == v + 1;
      }
    }
  }

  /** One iteration of the loop: DIV_CYCLES cycles are taken off the
      sub-counter and DIV is incremented, wrapping at 256. */
  function DivTick(st: GbState): (r: GbState)
    requires Wf(st) && st.divCount >= DIV_CYCLES
    ensures Wf(r)
  {
    st.(divCount := st.divCount - DIV_CYCLES,
        hramIo := st.hramIo[IO_DIV := st.hramIo[IO_DIV] + 1])
  }

  /** The loop of timers_step, one iteration per call. */
  function DivSpin(st: GbState): (r: GbState)
    requires Wf(st)
    ensures Wf(r)
    decreases st.divCount
  {
    if st.divCount >= DIV_CYCLES then DivSpin(DivTick(st)) else st
  }

  /** timers_step: the cycles are added to the sub-counter, then the loop
      runs. The cycles argument is a uint16_t in C; its range plays no part. */
  function TimersStepSpec(st: GbState, cycles: nat): (r: GbState)
    requires Wf(st)
    ensures Wf(r)
  {
    DivSpin(st.(divCount := st.divCount + cycles))
  }

  /** The loop leaves the sub-counter's remainder modulo DIV_CYCLES. */
  lemma {:induction false} DivSpinCount(st: GbState)
    requires Wf(st)
    ensures DivSpin(st).divCount == st.divCount % DIV_CYCLES
    decreases st.divCount
  {
    if st.divCount >= DIV_CYCLES {
      DivSpinCount(DivTick(st));
    }
  }

  /** The loop increments DIV once per whole period of the sub-counter. */
  lemma {:induction false} DivSpinDiv(st: GbState)
    requires Wf(st)
    ensures DivSpin(st).hramIo[IO_DIV] == Increments(st.hramIo[IO_DIV], st.divCount / DIV_CYCLES)
    decreases st.divCount
  {
    if st.divCount >= DIV_CYCLES {
      var t := DivTick(st);
      DivSpinDiv(t);
      assert t.divCount / DIV_CYCLES == st.divCount / DIV_CYCLES - 1;
    }
  }

  /** r differs from st at most in the sub-counter and in DIV. */
  predicate OnlyDivChanged(st: GbState, r: GbState)
    requires Wf(st) && Wf(r)
  {
    r == st.(divCount := r.divCount, hramIo := st.hramIo[IO_DIV := r.hramIo[IO_DIV]])
  }

  /** A loop iteration followed by changes to the sub-counter and DIV only
      changes the sub-counter and DIV. */
  lemma TickFrame(st: GbState, r: GbState)
    requires Wf(st) && Wf(r) && st.divCount >= DIV_CYCLES
    requires OnlyDivChanged(DivTick(st), r)
    ensures OnlyDivChanged(st, r)
  {
    var io := st.hramIo[IO_DIV := r.hramIo[IO_DIV]];
    assert DivTick(st).hramIo[IO_DIV := r.hramIo[IO_DIV]] == io;
  }

  /** The loop changes the sub-counter and DIV and nothing else. */
  lemma {:induction false} DivSpinFrame(st: GbState)
    requires Wf(st)
    ensures OnlyDivChanged(st, DivSpin(st))
    decreases st.divCount
  {
    if st.divCount >= DIV_CYCLES {
      DivSpinFrame(DivTick(st));
      TickFrame(st, DivSpin(st));
    } else {
      assert st.hramIo[IO_DIV := st.hramIo[IO_DIV]] == st.hramIo;
    }
  }

  /** What timers_step promises: afterwards the sub-counter is below
      DIV_CYCLES; the old sub-counter plus the cycles equals the new one plus
      k whole periods, where DIV advanced by k modulo 256; and only the
      sub-counter and DIV changed. */
  lemma TimersStepResult(st: GbState, cycles: nat)
    requires Wf(st)
    ensures var r := TimersStepSpec(st, cycles);
      var k := (st.divCount + cycles) / DIV_CYCLES;
      && r.divCount < DIV_CYCLES
      && st.divCount + cycles == r.divCount + k * DIV_CYCLES
      && r.hramIo[IO_DIV] as int == (st.hramIo[IO_DIV] as int + k) % 256
      && OnlyDivChanged(st, r)
  {
    var s := st.(divCount := st.divCount + cycles);
    DivSpinCount(s);
    DivSpinDiv(s);
    DivSpinFrame(s);
    IncrementsValue(st.hramIo[IO_DIV], s.divCount / DIV_CYCLES);
  }

  /** With no cycles and a sub-counter already below the period, a step
      changes nothing. */
  lemma TimersStepIdle(st: GbState)
    requires Wf(st) && st.divCount < DIV_CYCLES
    ensures TimersStepSpec(st, 0) == st
  {
    assert st.(divCount := st.divCount + 0) == st;
  }

  /** After timers_reset, a step of fewer than 65536 cycles leaves the
      cycles modulo the period in the sub-counter and their quotient in DIV. */
  lemma StepAfterReset(st: GbState, cycles: nat)
    requires Wf(st) && cycles < 0x10000
    ensures TimersStepSpec(Memory.DivReset(st), cycles).divCount == cycles % DIV_CYCLES
    ensures TimersStepSpec(Memory.DivReset(st), cycles).hramIo[IO_DIV] as int == cycles / DIV_CYCLES
  {
    var z := Memory.DivReset(st);
    assert z.divCount == 0 && z.hramIo[IO_DIV] == 0;
    TimersStepResult(z, cycles);
    var k := cycles / DIV_CYCLES;
    assert k < 256;
    assert (0 + k) % 256 == k;
  }

  /** One iteration of the loop body on the context. */
  method Tick(gb: GameBoy)
    requires gb.Valid() && gb.divCount >= DIV_CYCLES
    modifies gb, gb.hramIo
    ensures gb.State() == DivTick(old(gb.State()))
  {
    ghost var before := gb.State();
    var div := gb.hramIo[IO_DIV] + 1;
    gb.hramIo[IO_DIV] := div;
    assert gb.hramIo[..] == before.hramIo[IO_DIV := div];
    gb.divCount := gb.divCount - DIV_CYCLES;
  }

  /** timers_step. */
  method TimersStep(gb: GameBoy, cycles: nat)
    requires gb.Valid()
    modifies gb, gb.hramIo
    ensures gb.State() == TimersStepSpec(old(gb.State()), cycles)
  {
    gb.divCount := gb.divCount + cycles;
    while gb.divCount >= DIV_CYCLES
      invariant DivSpin(gb.State()) == TimersStepSpec(old(gb.State()), cycles)
      decreases gb.divCount
    {
      Tick(gb);
    }
  }

  /** timers_reset: the sub-counter and DIV are both cleared, as a DIV write
      on the bus does. */
  method TimersReset(gb: GameBoy)
    requires gb.Valid()
    modifies gb, gb.hramIo
    ensures gb.State() == Memory.DivReset(old(gb.State()))
  {
    gb.divCount := 0;
    gb.hramIo[IO_DIV] := 0;
  }
}
