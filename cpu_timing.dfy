/**
 * The timer of the split CPU package (gb/cpu/timing.go): the 16-bit
 * internal counter IC behind DIV, and TIMA, TMA and TAC. Every machine
 * cycle advances IC by 4; with the timer enabled, TIMA counts the falling
 * edges of the IC bit TAC selects, and its overflow reloads it from TMA
 * one cycle later, requesting the timer interrupt.
 */
module CpuTiming {
  import opened Bits

  /** The interrupt an overflow requests (the package uses InterruptTimer without defining it; bit 2 as in gb/interrupts.go). */
  const InterruptTimer: nat := 2

  /** The timer registers and the pending-overflow flag. */
  datatype Timer = Timer(ic: Word, tima: Byte, tma: Byte, tac: Byte, of: bool)

  /** The timer after a machine cycle, and whether the cycle requested the timer interrupt. */
  datatype Tick = Tick(timer: Timer, interrupt: bool)

  /** The IC bit whose falling edge clocks TIMA, chosen by TAC's low two bits. */
  function Divisor(tac: Byte): (d: nat)
    ensures d == 3 || d == 5 || d == 7 || d == 9
  {
    var sel := tac & 0x3;
    if sel == 0 then 9 else if sel == 1 then 3 else if sel == 2 then 5 else 7
  }

  /** Whether bit d of IC was set before the last +4 and is clear now. */
  predicate Falling(ic: Word, d: nat)
  {
    GetBit16(ic - 4, d) && !GetBit16(ic, d)
  }

  /**
   * updateTimers, for one machine cycle: IC advances by 4 first. With TAC
   * bit 2 clear nothing else happens. Otherwise a pending overflow reloads
   * TIMA from TMA, requests the interrupt and clears the flag, and then a
   * falling edge of the watched bit increments TIMA, a wrap to 0 arming a
   * new overflow.
   */
  function UpdateTimers(t: Timer): (r: Tick)
  {
    var advanced := t.(ic := t.ic + 4);
    if !GetBit(t.tac, 2) then Tick(advanced, false)
    else Tick(Edge(Reload(advanced)), t.of)
  }

  /** The overflow check of updateTimers: a pending overflow reloads TIMA from TMA and is cleared. */
  function Reload(t: Timer): (r: Timer)
  {
    if t.of then t.(tima := t.tma, of := false) else t
  }

  /** The falling-edge check of updateTimers, on a timer whose IC has already advanced. */
  function Edge(t: Timer): (r: Timer)
  {
    if Falling(t.ic, Divisor(t.tac)) then Increment(t) else t
  }

  /** Edge, given whether the watched bit fell. */
  lemma EdgeWhen(t: Timer, falling: bool)
    requires falling == Falling(t.ic, Divisor(t.tac))
    ensures Edge(t) == if falling then Increment(t) else t
  {
  }

  /** TIMA + 1; a wrap to 0 sets the overflow flag, which is otherwise kept. */
  function Increment(t: Timer): (r: Timer)
  {
    var tima := t.tima + 1;
    t.(tima := tima, of := t.of || tima == 0)
  }

  /** Increment, field by field. */
  lemma IncrementFields(t: Timer)
    ensures Increment(t) == Timer(t.ic, t.tima + 1, t.tma, t.tac, t.of || t.tima + 1 == 0)
  {
  }

  /** DIV: the high byte of IC. */
  function Div(t: Timer): Byte
  {
    (t.ic >> 8) as Byte
  }

  /** SetDIV: IC becomes v << 8 | (IC & 0x0f), so bits 4-7 of IC are cleared as well. */
  function SetDiv(t: Timer, v: Byte): Timer
  {
    t.(ic := ((v as Word) << 8) | (t.ic & 0x0F))
  }

  /** SetTAC: only the low three bits are writable. */
  function SetTac(t: Timer, v: Byte): Timer
  {
    t.(tac := v & 0x07)
  }

  // ---------------------------------------------------------------------
  // Properties.

  /** Every cycle advances IC by exactly 4 and keeps TMA and TAC, enabled or not. */
  lemma CycleAdvancesCounter(t: Timer)
    ensures UpdateTimers(t).timer.ic == t.ic + 4
    ensures UpdateTimers(t).timer.tma == t.tma && UpdateTimers(t).timer.tac == t.tac
  {
  }

  /** With TAC bit 2 clear, only IC changes and no interrupt is requested. */
  lemma TimerDisabled(t: Timer)
    requires !GetBit(t.tac, 2)
    ensures UpdateTimers(t) == Tick(t.(ic := t.ic + 4), false)
  {
  }

  /** With TAC bit 2 set, the counter advances, a pending overflow is served, then the edge is checked. */
  lemma TimerEnabled(t: Timer)
    requires GetBit(t.tac, 2)
    ensures UpdateTimers(t) == Tick(Edge(Reload(t.(ic := t.ic + 4))), t.of)
  {
  }

  /** A cycle requests the timer interrupt exactly when the timer is enabled and an overflow is pending. */
  lemma InterruptWhen(t: Timer)
    ensures UpdateTimers(t).interrupt <==> GetBit(t.tac, 2) && t.of
  {
  }

  /** An enabled cycle, step by step: advance, serve the overflow, check the edge. */
  lemma EnabledSteps(t: Timer, served: Timer, counted: Timer)
    requires GetBit(t.tac, 2)
    requires served == Reload(t.(ic := t.ic + 4))
    requires counted == Edge(served)
    ensures counted == UpdateTimers(t).timer && UpdateTimers(t).interrupt == t.of
  {
    TimerEnabled(t);
  }

  /** The watched bit is 9, 3, 5 and 7 for TAC's low bits 0, 1, 2 and 3. */
  lemma WatchedBits(tac: Byte)
    ensures tac & 3 == 0 ==> Divisor(tac) == 9
    ensures tac & 3 == 1 ==> Divisor(tac) == 3
    ensures tac & 3 == 2 ==> Divisor(tac) == 5
    ensures tac & 3 == 3 ==> Divisor(tac) == 7
  {
  }

  /**
   * Enabled and without a pending overflow, TIMA increments exactly when
   * the watched bit falls, no interrupt is requested, and the overflow flag
   * is armed exactly when TIMA wraps from 0xFF to 0.
   */
  lemma CountsFallingEdges(t: Timer)
    requires GetBit(t.tac, 2) && !t.of
    ensures var r := UpdateTimers(t);
      && !r.interrupt
      && (r.timer.tima == t.tima + 1 <==> Falling(t.ic + 4, Divisor(t.tac)))
      && (r.timer.tima != t.tima + 1 ==> r.timer.tima == t.tima)
      && (r.timer.of <==> Falling(t.ic + 4, Divisor(t.tac)) && t.tima == 0xFF)
  {
    var e := t.(ic := t.ic + 4);
    assert Reload(e) == e;
    EdgeCounts(e);
    EdgeArms(e);
  }

  /** The edge check adds one to TIMA exactly on a falling edge and otherwise keeps it. */
  lemma EdgeCounts(t: Timer)
    ensures Edge(t).tima == t.tima + 1 <==> Falling(t.ic, Divisor(t.tac))
    ensures Edge(t).tima != t.tima + 1 ==> Edge(t).tima == t.tima
  {
    if Falling(t.ic, Divisor(t.tac)) {
      assert Edge(t) == Increment(t);
    }
  }

  /** Without a pending overflow, the edge check arms one exactly when TIMA wraps from 0xFF. */
  lemma EdgeArms(t: Timer)
    requires !t.of
    ensures Edge(t).of <==> Falling(t.ic, Divisor(t.tac)) && t.tima == 0xFF
  {
    if Falling(t.ic, Divisor(t.tac)) {
      assert Edge(t) == Increment(t);
    }
  }

  /**
   * A pending overflow is served before the same cycle's edge check: TIMA
   * is reloaded from TMA (and may then count the edge), the interrupt is
   * requested, and the flag is cleared unless TMA itself wraps.
   */
  lemma OverflowReloads(t: Timer)
    requires GetBit(t.tac, 2) && t.of
    ensures var r := UpdateTimers(t);
      && r.interrupt
      && r.timer.tima == t.tma + (if Falling(t.ic + 4, Divisor(t.tac)) then 1 else 0)
      && (r.timer.of <==> Falling(t.ic + 4, Divisor(t.tac)) && t.tma == 0xFF)
  {
    var a := t.(ic := t.ic + 4);
    TimerEnabled(t);
    assert Reload(a) == a.(tima := t.tma, of := false);
    EdgeCounts(Reload(a));
    EdgeArms(Reload(a));
  }

  /**
   * The rate: stepping IC by 4 from a multiple of 4, bit d falls exactly
   * when IC lands on a multiple of 2^(d+1), that is once every 2^(d+1)
   * clocks: 1024, 16, 64 and 256 clocks for TAC 0-3.
   */
  lemma FallingEveryPeriod(ic: Word, tac: Byte)
    requires ic & 3 == 0
    ensures Falling(ic, Divisor(tac)) <==> ic & Period(Divisor(tac)) == 0
  {
    var d := Divisor(tac);
    if d == 3 {
      FallingAt3(ic);
    } else if d == 5 {
      FallingAt5(ic);
    } else if d == 7 {
      FallingAt7(ic);
    } else {
      FallingAt9(ic);
    }
  }

  /** 2^(d+1) - 1: the mask of IC modulo the period of bit d. */
  function Period(d: nat): Word
    requires d == 3 || d == 5 || d == 7 || d == 9
  {
    if d == 3 then 0x0F else if d == 5 then 0x3F else if d == 7 then 0xFF else 0x3FF
  }

  lemma FallingAt3(ic: Word)
    requires ic & 3 == 0
    ensures Falling(ic, 3) <==> ic & 0x0F == 0
  {
  }

  lemma FallingAt5(ic: Word)
    requires ic & 3 == 0
    ensures Falling(ic, 5) <==> ic & 0x3F == 0
  {
  }

  lemma FallingAt7(ic: Word)
    requires ic & 3 == 0
    ensures Falling(ic, 7) <==> ic & 0xFF == 0
  {
  }

  lemma FallingAt9(ic: Word)
    requires ic & 3 == 0
    ensures Falling(ic, 9) <==> ic & 0x3FF == 0
  {
  }

  /** DIV reads back the value written to it, and SetDIV keeps IC's low nibble and clears bits 4-7. */
  lemma DivRoundTrip(t: Timer, v: Byte)
    ensures Div(SetDiv(t, v)) == v
    ensures SetDiv(t, v).ic & 0x0F == t.ic & 0x0F
    ensures SetDiv(t, v).ic & 0xF0 == 0
  {
  }

  /** A TAC write keeps only the low three bits, so TAC never reads above 7. */
  lemma TacMasked(t: Timer, v: Byte)
    ensures SetTac(t, v).tac <= 7 && SetTac(t, v).tac == v & 7
    ensures SetTac(SetTac(t, v), v) == SetTac(t, v)
  {
  }
}
