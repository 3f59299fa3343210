/**
 * The state of the split CPU package (gb/cpu): the register file
 * (registers.go), the bus accesses that each charge one machine cycle
 * (memory.go) and the cycle counter with its timer (timing.go), as pure
 * functions on a State value. The class in cpu.dfy is proved against them.
 *
 * The MMU behind the package's MemoryIO interface is a flat 64 KiB memory
 * here, or None for a CPU built without one. Calls the package makes to
 * functions it does not define (RequestInterrupt, handleInterrupts) and the
 * bus accesses themselves are recorded, in order, in a trace of events.
 */
module CpuState {
  import opened Bits
  import opened Outcomes
  import opened CpuTiming

  /** An index into rg: B=0, C=1, D=2, E=3, H=4, L=5, A=6, F=7. */
  type Reg = r: nat | r < 8

  /** The first register of a pair: BC=0, DE=2, HL=4, AF=6. */
  type Reg16 = r: nat | r == 0 || r == 2 || r == 4 || r == 6

  /** A flag's bit position in F: C=4, H=5, N=6, Z=7. */
  type Flag = f: nat | 4 <= f < 8 witness 4

  const B: Reg := 0
  const C: Reg := 1
  const D: Reg := 2
  const E: Reg := 3
  const H: Reg := 4
  const L: Reg := 5
  const A: Reg := 6
  const F: Reg := 7

  const BC: Reg16 := 0
  const DE: Reg16 := 2
  const HL: Reg16 := 4
  const AF: Reg16 := 6

  const FlagC: Flag := 4
  const FlagH: Flag := 5
  const FlagN: Flag := 6
  const FlagZ: Flag := 7

  /** The eight 8-bit registers. */
  type Registers = r: seq<Byte> | |r| == 8 witness [0, 0, 0, 0, 0, 0, 0, 0]

  /** The 64 KiB the CPU addresses. */
  type Ram = m: seq<Byte> | |m| == 0x10000 witness seq(0x10000, _ => 0)

  /** What the CPU did on its bus or asked of code outside the package, in order. */
  datatype Event =
    | Read(addr: Word)
    | Write(addr: Word, value: Byte)
    | RequestInterrupt(interrupt: nat)
    | HandleInterrupts(ime: bool)

  /** The CPU's fields. */
  datatype State = State(
    rg: Registers, sp: Word, pc: Word,
    halt: bool, ime: bool,
    timer: Timer, clocks: int,
    mem: Option<Ram>, trace: seq<Event>)

  /** A state together with the byte an operation produced. */
  datatype Out = Out(s: State, v: Byte)

  /** A state together with the 16-bit value an operation produced. */
  datatype Out16 = Out16(s: State, v: Word)

  /** NewCPU: everything zero, no timer running, no events yet. */
  function Initial(mem: Option<Ram>): (s: State)
    ensures s.mem == mem && s.trace == [] && s.clocks == 0
  {
    State([0, 0, 0, 0, 0, 0, 0, 0], 0, 0, false, false, Timer(0, 0, 0, 0, false), 0, mem, [])
  }

  // ---------------------------------------------------------------------
  // Registers (registers.go).

  /** getRegister. */
  function RegOf(s: State, r: Reg): Byte
  {
    s.rg[r]
  }

  /** setRegister: F keeps only its high nibble. */
  function WithReg(s: State, r: Reg, v: Byte): State
  {
    s.(rg := s.rg[r := if r == F then v & 0xF0 else v])
  }

  /** getRegister16: rg[rr] is the high byte, rg[rr+1] the low byte. */
  function Reg16Of(s: State, rr: Reg16): Word
  {
    CombineBytes(s.rg[rr], s.rg[rr + 1])
  }

  /** setRegister16: AF keeps only F's high nibble; the value is split high byte first. */
  function WithReg16(s: State, rr: Reg16, v: Word): State
  {
    var w := if rr == AF then v & 0xFFF0 else v;
    s.(rg := s.rg[rr := Hi(w)][rr + 1 := Lo(w)])
  }

  /** getFlag: the flag's bit of F. */
  function FlagOf(s: State, f: Flag): bool
  {
    GetBit(s.rg[F], f)
  }

  /** setFlag: only the flag's bit of F changes. */
  function WithFlag(s: State, f: Flag, v: bool): State
  {
    s.(rg := s.rg[F := SetBit(s.rg[F], f, v)])
  }

  // ---------------------------------------------------------------------
  // Machine cycles and bus accesses (timing.go, memory.go).

  /**
   * incrementMCycle: 4 more clocks and one timer update; an overflow
   * served by the update is handed to RequestInterrupt.
   */
  function Cycle(s: State): (r: State)
    ensures r.clocks == s.clocks + 4 && r.timer.ic == s.timer.ic + 4
    ensures r.rg == s.rg && r.sp == s.sp && r.pc == s.pc && r.mem == s.mem
  {
    TimerUpdate(s.(clocks := s.clocks + 4))
  }

  /** updateTimers on the CPU: the timer's cycle, an overflow it serves being handed to RequestInterrupt. */
  function TimerUpdate(s: State): State
  {
    var t := UpdateTimers(s.timer);
    s.(timer := t.timer, trace := if t.interrupt then s.trace + [RequestInterrupt(InterruptTimer)] else s.trace)
  }

  /** TimerUpdate replaces the timer by the tick's and appends the request the tick makes. */
  lemma TimerUpdateShape(s: State, tick: Tick)
    requires tick == UpdateTimers(s.timer)
    ensures TimerUpdate(s) == s.(timer := tick.timer,
      trace := if tick.interrupt then s.trace + [RequestInterrupt(InterruptTimer)] else s.trace)
  {
  }

  /** readMemory: one cycle, then the byte at addr, or 0 without an MMU. */
  function ReadMem(s: State, addr: Word): Out
  {
    var c := Cycle(s);
    if c.mem.None? then Out(c, 0)
    else Out(c.(trace := c.trace + [Read(addr)]), c.mem.value[addr as int])
  }

  /** writeMemory: one cycle, then the store, dropped without an MMU. */
  function WriteMem(s: State, addr: Word, v: Byte): State
  {
    var c := Cycle(s);
    if c.mem.None? then c
    else c.(mem := Some(Store(c.mem.value, addr as int, v)), trace := c.trace + [Write(addr, v)])
  }

  /** writeMemory with an MMU, given the cycle it charged. */
  lemma WriteMemSteps(s: State, c: State, addr: Word, v: Byte)
    requires c == Cycle(s) && c.mem.Some?
    ensures WriteMem(s, addr, v) == c.(mem := Some(Store(c.mem.value, addr as int, v)), trace := c.trace + [Write(addr, v)])
  {
  }

  /** readMemory16: the high byte at addr+1 is read first, then the low byte at addr. */
  function ReadMem16(s: State, addr: Word): Out16
  {
    var hi := ReadMem(s, addr + 1);
    var lo := ReadMem(hi.s, addr);
    Out16(lo.s, CombineBytes(hi.v, lo.v))
  }

  /** writeMemory16: the low byte goes to addr first, then the high byte to addr+1. */
  function WriteMem16(s: State, addr: Word, v: Word): State
  {
    WriteMem(WriteMem(s, addr, Lo(v)), addr + 1, Hi(v))
  }

  /** The bus accesses of a trace, without the calls to code outside the package. */
  function Accesses(t: seq<Event>): (r: seq<Event>)
    ensures |r| <= |t|
  {
    if t == [] then []
    else if t[|t| - 1].Read? || t[|t| - 1].Write? then Accesses(t[..|t| - 1]) + [t[|t| - 1]]
    else Accesses(t[..|t| - 1])
  }

  // ---------------------------------------------------------------------
  // Timer registers (timing.go).

  function DivOf(s: State): Byte { Div(s.timer) }
  function WithDiv(s: State, v: Byte): State { s.(timer := SetDiv(s.timer, v)) }
  function WithTima(s: State, v: Byte): State { s.(timer := s.timer.(tima := v)) }
  function WithTma(s: State, v: Byte): State { s.(timer := s.timer.(tma := v)) }
  function WithTac(s: State, v: Byte): State { s.(timer := SetTac(s.timer, v)) }

  // ---------------------------------------------------------------------
  // Register file properties.

  /**
   * setRegister then getRegister: the value comes back, F with its low
   * nibble cleared, and no other register or field changes.
   */
  lemma RegRoundTrip(s: State, r: Reg, v: Byte)
    ensures RegOf(WithReg(s, r, v), r) == if r == F then v & 0xF0 else v
    ensures forall q: Reg :: q != r ==> RegOf(WithReg(s, r, v), q) == RegOf(s, q)
    ensures WithReg(s, r, v).(rg := s.rg) == s
  {
  }

  /**
   * setRegister16 then getRegister16: the value comes back (AF with F's low
   * nibble cleared), the high byte lands in rg[rr], and the other six
   * registers keep their values.
   */
  lemma Reg16RoundTrip(s: State, rr: Reg16, v: Word)
    ensures Reg16Of(WithReg16(s, rr, v), rr) == if rr == AF then v & 0xFFF0 else v
    ensures WithReg16(s, rr, v).rg[rr] == Hi(Reg16Of(WithReg16(s, rr, v), rr))
    ensures forall q: Reg :: q != rr && q != rr + 1 ==> RegOf(WithReg16(s, rr, v), q) == RegOf(s, q)
  {
    var w := if rr == AF then v & 0xFFF0 else v;
    var t := WithReg16(s, rr, v);
    assert t.rg[rr] == Hi(w) && t.rg[rr + 1] == Lo(w);
    SplitHiLo(w);
  }

  /** For BC, DE and HL the pair reads back exactly the value written. */
  lemma PairRoundTrip(s: State, rr: Reg16, v: Word)
    requires rr != AF
    ensures Reg16Of(WithReg16(s, rr, v), rr) == v
  {
    var t := WithReg16(s, rr, v);
    assert t.rg[rr] == Hi(v) && t.rg[rr + 1] == Lo(v);
    SplitHiLo(v);
  }

  /** A value is rebuilt from its two halves. */
  lemma SplitHiLo(w: Word)
    ensures CombineBytes(Hi(w), Lo(w)) == w
  {
  }

  /** Both ways of writing F keep its low nibble clear. */
  lemma FLowNibbleClear(s: State, b: Byte, w: Word)
    ensures RegOf(WithReg(s, F, b), F) & 0x0F == 0
    ensures RegOf(WithReg16(s, AF, w), F) & 0x0F == 0
  {
    assert WithReg16(s, AF, w).rg[F] == Lo(w & 0xFFF0);
  }

  /**
   * setFlag then getFlag returns the value set; every other bit of F and
   * every other register is kept, so F's low nibble stays clear once it is.
   */
  lemma FlagRoundTrip(s: State, f: Flag, v: bool)
    ensures FlagOf(WithFlag(s, f, v), f) == v
    ensures forall g: Flag :: g != f ==> FlagOf(WithFlag(s, f, v), g) == FlagOf(s, g)
    ensures forall q: Reg :: q != F ==> RegOf(WithFlag(s, f, v), q) == RegOf(s, q)
    ensures s.rg[F] & 0x0F == 0 ==> WithFlag(s, f, v).rg[F] & 0x0F == 0
  {
    SetBitKeepsOthers(s.rg[F], f, v);
    FlagKeepsLowNibble(s.rg[F], f, v);
  }

  /** Setting a bit from 4 to 7 cannot touch bits 0-3. */
  lemma FlagKeepsLowNibble(x: Byte, f: Flag, v: bool)
    ensures SetBit(x, f, v) & 0x0F == x & 0x0F
  {
  }

  // ---------------------------------------------------------------------
  // Bus properties.

  /**
   * Each access charges exactly one machine cycle before it happens;
   * without an MMU, a read gives 0 and a write changes nothing but the
   * cycle.
   */
  lemma AccessCharges(s: State, addr: Word, v: Byte)
    ensures ReadMem(s, addr).s.clocks == s.clocks + 4
    ensures WriteMem(s, addr, v).clocks == s.clocks + 4
    ensures s.mem.None? ==> ReadMem(s, addr) == Out(Cycle(s), 0)
    ensures s.mem.None? ==> WriteMem(s, addr, v) == Cycle(s)
  {
  }

  /** A 16-bit access costs exactly two machine cycles: 8 clocks. */
  lemma Access16Charges(s: State, addr: Word, v: Word)
    ensures ReadMem16(s, addr).s.clocks == s.clocks + 8
    ensures WriteMem16(s, addr, v).clocks == s.clocks + 8
  {
    var hi := ReadMem(s, addr + 1);
    AccessCharges(s, addr + 1, Lo(v));
    AccessCharges(hi.s, addr, Lo(v));
    var w := WriteMem(s, addr, Lo(v));
    AccessCharges(s, addr, Lo(v));
    AccessCharges(w, addr + 1, Hi(v));
  }

  /** Filtering distributes over appending. */
  lemma {:induction false} AccessesAppend(t: seq<Event>, u: seq<Event>)
    ensures Accesses(t + u) == Accesses(t) + Accesses(u)
    decreases |u|
  {
    if u == [] {
      assert t + u == t;
    } else {
      var u' := u[..|u| - 1];
      assert (t + u)[..|t + u| - 1] == t + u';
      assert (t + u)[|t + u| - 1] == u[|u| - 1];
      AccessesAppend(t, u');
    }
  }

  /** A cycle adds no bus access (it can only hand an interrupt on). */
  lemma CycleNoAccess(s: State)
    ensures Accesses(Cycle(s).trace) == Accesses(s.trace)
  {
    var t := UpdateTimers(s.timer);
    if t.interrupt {
      AccessesAppend(s.trace, [RequestInterrupt(InterruptTimer)]);
      assert Accesses([RequestInterrupt(InterruptTimer)]) == [];
    }
  }

  /** A read adds exactly one access to the trace, at its address, when an MMU is there. */
  lemma ReadAccess(s: State, addr: Word)
    ensures Accesses(ReadMem(s, addr).s.trace) ==
      Accesses(s.trace) + (if s.mem.Some? then [Read(addr)] else [])
  {
    CycleNoAccess(s);
    if s.mem.Some? {
      AccessesAppend(Cycle(s).trace, [Read(addr)]);
      assert Accesses([Read(addr)]) == [Read(addr)];
    }
  }

  /** A write adds exactly one access to the trace, with its address and value, when an MMU is there. */
  lemma WriteAccess(s: State, addr: Word, v: Byte)
    ensures Accesses(WriteMem(s, addr, v).trace) ==
      Accesses(s.trace) + (if s.mem.Some? then [Write(addr, v)] else [])
  {
    CycleNoAccess(s);
    if s.mem.Some? {
      AccessesAppend(Cycle(s).trace, [Write(addr, v)]);
      assert Accesses([Write(addr, v)]) == [Write(addr, v)];
    }
  }

  /** readMemory16 reads addr+1 (the high byte) before addr (the low byte). */
  lemma Read16Order(s: State, addr: Word)
    requires s.mem.Some?
    ensures Accesses(ReadMem16(s, addr).s.trace) == Accesses(s.trace) + [Read(addr + 1), Read(addr)]
  {
    var hi := ReadMem(s, addr + 1);
    var lo := ReadMem(hi.s, addr);
    ReadAccess(s, addr + 1);
    ReadValue(s, addr + 1);
    ReadAccess(hi.s, addr);
    TwoAppended(Accesses(s.trace), Accesses(hi.s.trace), Accesses(lo.s.trace), Read(addr + 1), Read(addr));
  }

  /** Two events appended one after the other are the pair appended. */
  lemma TwoAppended(a: seq<Event>, b: seq<Event>, c: seq<Event>, x: Event, y: Event)
    requires b == a + [x] && c == b + [y]
    ensures c == a + [x, y]
  {
  }

  /** writeMemory16 writes the low byte to addr before the high byte to addr+1. */
  lemma Write16Order(s: State, addr: Word, v: Word)
    requires s.mem.Some?
    ensures Accesses(WriteMem16(s, addr, v).trace) ==
      Accesses(s.trace) + [Write(addr, Lo(v)), Write(addr + 1, Hi(v))]
  {
    var w1 := WriteMem(s, addr, Lo(v));
    var w2 := WriteMem(w1, addr + 1, Hi(v));
    WriteAccess(s, addr, Lo(v));
    WriteValue(s, addr, Lo(v));
    WriteAccess(w1, addr + 1, Hi(v));
    TwoAppended(Accesses(s.trace), Accesses(w1.trace), Accesses(w2.trace), Write(addr, Lo(v)), Write(addr + 1, Hi(v)));
  }

  /** A read gives the byte at its address (0 without an MMU) and changes neither memory, registers nor PC. */
  lemma ReadValue(s: State, addr: Word)
    ensures ReadMem(s, addr).v == if s.mem.Some? then s.mem.value[addr as int] else 0
    ensures ReadMem(s, addr).s.mem == s.mem
    ensures ReadMem(s, addr).s.rg == s.rg && ReadMem(s, addr).s.pc == s.pc
  {
  }

  /** A write stores its byte at its address, with an MMU. */
  lemma WriteValue(s: State, addr: Word, v: Byte)
    ensures WriteMem(s, addr, v).mem.Some? == s.mem.Some?
    ensures s.mem.Some? ==> WriteMem(s, addr, v).mem.value == Store(s.mem.value, addr as int, v)
    ensures WriteMem(s, addr, v).rg == s.rg && WriteMem(s, addr, v).pc == s.pc
  {
  }

  /** A write is seen by a later read at the same address. */
  lemma WriteThenRead(s: State, addr: Word, v: Byte)
    requires s.mem.Some?
    ensures ReadMem(WriteMem(s, addr, v), addr).v == v
  {
    StoreRead(s.mem.value, addr as int, addr as int, v);
  }

  /** A write leaves every other address as it was. */
  lemma WriteKeepsOthers(s: State, addr: Word, other: Word, v: Byte)
    requires s.mem.Some? && other != addr
    ensures ReadMem(WriteMem(s, addr, v), other).v == ReadMem(s, other).v
  {
    WordToIntInjective(addr, other);
    StoreRead(s.mem.value, addr as int, other as int, v);
    var c := Cycle(s);
    assert WriteMem(s, addr, v).mem.value == Store(c.mem.value, addr as int, v);
  }

  /** writeMemory16 then readMemory16 at the same address gives the value back. */
  lemma Write16ThenRead16(s: State, addr: Word, v: Word)
    requires s.mem.Some?
    ensures ReadMem16(WriteMem16(s, addr, v), addr).v == v
  {
    var w1 := WriteMem(s, addr, Lo(v));
    var w2 := WriteMem(w1, addr + 1, Hi(v));
    WriteKeepsOthers(w1, addr + 1, addr, Hi(v));
    WriteThenRead(s, addr, Lo(v));
    var hi := ReadMem(w2, addr + 1);
    WriteThenRead(w1, addr + 1, Hi(v));
    assert hi.v == Hi(v);
    assert hi.s.mem == w2.mem;
    assert ReadMem(hi.s, addr).v == ReadMem(w2, addr).v;
    assert ReadMem(w2, addr).v == ReadMem(w1, addr).v;
    SplitHiLo(v);
  }

  /** DIV reads back the value written, and TAC reads back at most 7. */
  lemma TimerRegisters(s: State, v: Byte)
    ensures DivOf(WithDiv(s, v)) == v
    ensures WithTac(s, v).timer.tac == v & 0x07
    ensures WithTima(s, v).timer.tima == v && WithTma(s, v).timer.tma == v
  {
    DivRoundTrip(s.timer, v);
  }
}
