/**
 * The monolithic CPU (gb/cpu.go, gb/interrupts.go, gb/timers.go and the
 * closures of gb/instructions.go) as pure functions over a machine value:
 * the register file plus the Bus that Memory.Read and Memory.Write see.
 * The CPU class of the GbCpu module runs the same steps on its fields and
 * is proved to leave exactly the machine these functions compute.
 */
module GbMachine {
  import opened Bits
  import opened Outcomes
  import opened GbAlu
  import opened GbIsa
  import opened GbMemoryMap

  /** The CPU's fields other than the internal counter, which the Bus holds (it backs DIV). */
  datatype Regs = Regs(
    b: Byte, c: Byte, d: Byte, e: Byte, h: Byte, l: Byte, a: Byte, f: Byte,
    sp: Word, pc: Word,
    ime: bool, halt: bool, haltBug: bool,
    of: bool)  // a TIMA overflow waiting for its reload

  /** The CPU registers together with everything reachable through the memory map. */
  datatype Machine = Machine(r: Regs, bus: Bus)
  {
    ghost predicate Valid() { bus.Valid() }
  }

  // ---------------------------------------------------------------------
  // Register F and the flags.

  /** FlagZ, FlagN, FlagH and FlagC: bits 7, 6, 5 and 4 of F. */
  function FlagsOf(f: Byte): Flags
  {
    Flags(GetBit(f, 7), GetBit(f, 6), GetBit(f, 5), GetBit(f, 4))
  }

  /** SetFlagZ, SetFlagN, SetFlagH and SetFlagC applied in turn. */
  function WithFlags(f: Byte, fl: Flags): (r: Byte)
    ensures FlagsOf(r) == fl
    ensures r & 0x0F == f & 0x0F
  {
    SetBit(SetBit(SetBit(SetBit(f, 7, fl.z), 6, fl.n), 5, fl.h), 4, fl.c)
  }

  /** SetF: the low nibble of F always reads 0. */
  function MaskF(v: Byte): (r: Byte)
    ensures r & 0x0F == 0 && r & 0xF0 == v & 0xF0
  {
    v & 0xF0
  }

  // ---------------------------------------------------------------------
  // The register file.

  function Get8(r: Regs, x: Reg8): Byte
  {
    match x
    case B => r.b case C => r.c case D => r.d case E => r.e
    case H => r.h case L => r.l case A => r.a
  }

  function Set8(r: Regs, x: Reg8, v: Byte): (r': Regs)
    ensures Get8(r', x) == v
    ensures forall y :: y != x ==> Get8(r', y) == Get8(r, y)
    ensures r'.f == r.f && r'.sp == r.sp && r'.pc == r.pc
    ensures r'.ime == r.ime && r'.halt == r.halt && r'.haltBug == r.haltBug && r'.of == r.of
  {
    match x
    case B => r.(b := v) case C => r.(c := v) case D => r.(d := v) case E => r.(e := v)
    case H => r.(h := v) case L => r.(l := v) case A => r.(a := v)
  }

  /** BC, DE, HL and AF combine two registers, the first one high; SP is a field. */
  function GetPair(r: Regs, p: Pair): Word
  {
    match p
    case BC => CombineBytes(r.b, r.c)
    case DE => CombineBytes(r.d, r.e)
    case HL => CombineBytes(r.h, r.l)
    case SP => r.sp
    case AF => CombineBytes(r.a, r.f)
  }

  /** SetBC, SetDE, SetHL, SetSP and SetAF (which clears the low nibble of F). */
  function SetPair(r: Regs, p: Pair, v: Word): Regs
  {
    match p
    case BC => r.(b := Hi(v), c := Lo(v))
    case DE => r.(d := Hi(v), e := Lo(v))
    case HL => r.(h := Hi(v), l := Lo(v))
    case SP => r.(sp := v)
    case AF => r.(a := Hi(v & 0xFFF0), f := Lo(v & 0xFFF0))
  }

  /** A pair reads back what was stored, except that AF drops the low nibble of F. */
  lemma PairRoundTrip(r: Regs, p: Pair, v: Word)
    ensures p != AF ==> GetPair(SetPair(r, p, v), p) == v
    ensures p == AF ==> GetPair(SetPair(r, p, v), p) == v & 0xFFF0
  {
    if p == AF {
      var _ := SplitShort(v & 0xFFF0);
    } else if p != SP {
      var _ := SplitShort(v);
    }
  }

  /** SetAF leaves the low nibble of F clear; the other pairs leave A and F alone. */
  lemma SetPairF(r: Regs, p: Pair, v: Word)
    ensures p == AF ==> SetPair(r, p, v).f & 0x0F == 0
    ensures p != AF ==> SetPair(r, p, v).f == r.f && SetPair(r, p, v).a == r.a
    ensures Keeps(r, SetPair(r, p, v))
    ensures p != AF ==> SetPair(r, p, v) == r.(b := SetPair(r, p, v).b, c := SetPair(r, p, v).c, d := SetPair(r, p, v).d,
      e := SetPair(r, p, v).e, h := SetPair(r, p, v).h, l := SetPair(r, p, v).l, sp := SetPair(r, p, v).sp)
  {
  }

  /** What no table entry changes: IME, the halt flag, and a clear low nibble of F. */
  predicate Keeps(r: Regs, r': Regs)
  {
    r'.ime == r.ime && r'.halt == r.halt && (r.f & 0x0F == 0 ==> r'.f & 0x0F == 0)
  }

  // ---------------------------------------------------------------------
  // Program counter and stack.

  /** The registers after IncPC: PC advances unless the halt bug is armed, and the bug is disarmed. */
  function AfterFetch(r: Regs): (r': Regs)
    ensures r' == r.(pc := r'.pc, haltBug := false)
  {
    if r.haltBug then r.(haltBug := false) else r.(pc := r.pc + 1)
  }

  /** IncPC: the byte at PC, then AfterFetch. A read that panics in Go is an Err here. */
  function IncPC(m: Machine): (res: Result<(Byte, Machine)>)
    requires m.Valid()
    ensures res.Ok? <==> Read(m.bus, m.r.pc).Ok?
    ensures res.Ok? ==> res.value == (Read(m.bus, m.r.pc).value, Machine(AfterFetch(m.r), m.bus))
  {
    var v := Read(m.bus, m.r.pc);
    if v.Err? then Err(v.failure) else Ok((v.value, Machine(AfterFetch(m.r), m.bus)))
  }

  /** IncPC16: two IncPC calls, the first byte read being the low byte. */
  function IncPC16(m: Machine): (res: Result<(Word, Machine)>)
    requires m.Valid()
    ensures res.Ok? ==> res.value.1 == Machine(AfterFetch(AfterFetch(m.r)), m.bus)
  {
    match IncPC(m)
    case Err(e) => Err(e)
    case Ok((lo, m1)) =>
      match IncPC(m1)
      case Err(e) => Err(e)
      case Ok((hi, m2)) => Ok((CombineBytes(hi, lo), m2))
  }

  /** IncPC16 fetches whenever both bytes at PC and PC + 1 can be read. */
  lemma IncPC16Fetches(m: Machine)
    requires m.Valid() && Read(m.bus, m.r.pc).Ok? && Read(m.bus, m.r.pc + 1).Ok?
    ensures IncPC16(m).Ok?
  {
  }

  /**
   * IncPC16 is little-endian and advances PC by 2; with the halt bug armed
   * the same byte is fetched twice and PC advances by only 1.
   */
  lemma IncPC16Order(m: Machine)
    requires m.Valid() && IncPC16(m).Ok?
    ensures Read(m.bus, m.r.pc).Ok? && Read(m.bus, AfterFetch(m.r).pc).Ok?
    ensures IncPC16(m).value.0 == CombineBytes(Read(m.bus, AfterFetch(m.r).pc).value, Read(m.bus, m.r.pc).value)
  {
    var m1 := IncPC(m).value.1;
    assert m1 == Machine(AfterFetch(m.r), m.bus);
  }

  /** IncPC16 moves PC by 2, or by 1 when the halt bug makes it fetch the same byte twice. */
  lemma IncPC16Advances(r: Regs)
    ensures !r.haltBug ==> AfterFetch(r).pc == r.pc + 1 && AfterFetch(AfterFetch(r)).pc == r.pc + 2
    ensures r.haltBug ==> AfterFetch(r).pc == r.pc && AfterFetch(AfterFetch(r)).pc == r.pc + 1
    ensures !AfterFetch(AfterFetch(r)).haltBug
  {
  }

  /** Stand-in for Memory.Write16, which is not part of this model: low byte at addr, high byte at addr + 1. */
  function Write16(b: Bus, addr: Word, v: Word): (r: Bus)
    requires b.Valid()
    ensures r.Valid()
  {
    Write(Write(b, addr, Lo(v)), addr + 1, Hi(v))
  }

  /** Stand-in for Memory.Read16, the inverse byte order of Write16. */
  function Read16(b: Bus, addr: Word): Result<Word>
    requires b.Valid()
  {
    var lo := Read(b, addr);
    var hi := Read(b, addr + 1);
    if lo.Err? then Err(lo.failure)
    else if hi.Err? then Err(hi.failure)
    else Ok(CombineBytes(hi.value, lo.value))
  }

  /** PushSP: SP drops by 2, then the value is written at the new SP. */
  function PushSP(m: Machine, v: Word): (r: Machine)
    requires m.Valid()
    ensures r.Valid() && r.r == m.r.(sp := m.r.sp - 2)
  {
    var sp := m.r.sp - 2;
    Machine(m.r.(sp := sp), Write16(m.bus, sp, v))
  }

  /** PopSP: the value at SP is read, then SP rises by 2. */
  function PopSP(m: Machine): (res: Result<(Word, Machine)>)
    requires m.Valid()
    ensures res.Ok? ==> res.value.1 == m.(r := m.r.(sp := m.r.sp + 2))
  {
    var v := Read16(m.bus, m.r.sp);
    if v.Err? then Err(v.failure) else Ok((v.value, m.(r := m.r.(sp := m.r.sp + 2))))
  }

  /** A stack that lives in work RAM or high RAM. */
  predicate StackInRam(sp: Word)
  {
    (0xC002 <= sp <= 0xE000) || 0xFF82 <= sp
  }

  /** Read16 reads back what Write16 stored in RAM. */
  lemma Write16ThenRead16(b: Bus, addr: Word, v: Word)
    requires b.Valid() && Ram(addr) && Ram(addr + 1)
    ensures Read16(Write16(b, addr, v), addr) == Ok(v)
  {
    var b1 := Write(b, addr, Lo(v));
    RamWriteRead(b, addr, addr, Lo(v));
    RamWriteRead(b1, addr + 1, addr, Hi(v));
    RamWriteRead(b1, addr + 1, addr + 1, Hi(v));
    var _ := SplitShort(v);
  }

  /** A pop right after a push returns the pushed value. */
  lemma PushThenPopValue(m: Machine, v: Word)
    requires m.Valid() && StackInRam(m.r.sp)
    ensures PopSP(PushSP(m, v)).Ok? && PopSP(PushSP(m, v)).value.0 == v
  {
    var sp := m.r.sp - 2;
    assert Ram(sp) && Ram(sp + 1);
    Write16ThenRead16(m.bus, sp, v);
  }

  /** A pop after a push restores SP and every other register. */
  lemma PushThenPopRegs(m: Machine, v: Word)
    requires m.Valid()
    ensures PopSP(PushSP(m, v)).Ok? ==> PopSP(PushSP(m, v)).value.1.r == m.r
  {
  }

  /** A push into RAM changes no I/O register, IE, or PPU register. */
  lemma PushKeepsRegisters(m: Machine, v: Word)
    requires m.Valid() && StackInRam(m.r.sp)
    ensures var b' := PushSP(m, v).bus;
      b'.io == m.bus.io && b'.ie == m.bus.ie && b'.ic == m.bus.ic && b'.lcdc == m.bus.lcdc
      && b'.stat == m.bus.stat && b'.ly == m.bus.ly && b'.boot == m.bus.boot
  {
    var sp := m.r.sp - 2;
    assert Ram(sp) && Ram(sp + 1);
    Write16KeepsRegisters(m.bus, sp, v);
  }

  lemma Write16KeepsRegisters(b: Bus, addr: Word, v: Word)
    requires b.Valid() && Ram(addr) && Ram(addr + 1)
    ensures var b' := Write16(b, addr, v);
      b'.io == b.io && b'.ie == b.ie && b'.ic == b.ic && b'.lcdc == b.lcdc
      && b'.stat == b.stat && b'.ly == b.ly && b'.boot == b.boot
  {
    RamWriteKeepsRegisters(b, addr, Lo(v));
    RamWriteKeepsRegisters(Write(b, addr, Lo(v)), addr + 1, Hi(v));
  }

  // ---------------------------------------------------------------------
  // Interrupts (gb/interrupts.go).

  const IntVBlank := 0
  const IntStat := 1
  const IntTimer := 2
  const IntSerial := 3
  const IntJoypad := 4

  /** RequestInterrupt: IF is read (bits 5-7 read high), bit i set, and written back. */
  function RequestInterrupt(b: Bus, i: nat): (r: Bus)
    requires b.Valid()
    ensures r.Valid()
  {
    Write(b, AddrIF, SetBit(Read(b, AddrIF).value, i, true))
  }

  /** A request sets IF bit i, keeps every other IF bit, and touches nothing but IF's slot. */
  lemma RequestSetsOneBit(b: Bus, i: nat)
    requires b.Valid() && i < 5
    ensures GetBit(Read(RequestInterrupt(b, i), AddrIF).value, i)
    ensures forall j: nat :: j != i ==> GetBit(Read(RequestInterrupt(b, i), AddrIF).value, j) == GetBit(Read(b, AddrIF).value, j)
    ensures RequestInterrupt(b, i) == b.(io := Store(b.io, 0x0F, SetBit(IoByte(b, AddrIF) | 0xE0, i, true)))
  {
    SetBitKeepsOthers(Read(b, AddrIF).value, i, true);
  }

  /** The first of bits i..4 that is set in v: the loop of handleInterrupts from bit i on. */
  function LowestPending(v: Byte, i: nat): (r: Option<nat>)
    requires i <= 5
    ensures r.Some? ==> i <= r.value < 5 && GetBit(v, r.value)
    ensures r.Some? ==> forall j: nat :: i <= j < r.value ==> !GetBit(v, j)
    ensures r.None? ==> forall j: nat :: i <= j < 5 ==> !GetBit(v, j)
    decreases 5 - i
  {
    if i == 5 then None
    else if GetBit(v, i) then Some(i)
    else LowestPending(v, i + 1)
  }

  /** IE & IF: the requests that are enabled. */
  function Pending(b: Bus): Byte
    requires b.Valid()
  {
    Read(b, AddrIE).value & Read(b, AddrIF).value
  }

  /**
   * handleInterrupts: with a request pending in IE & IF, halt ends (even
   * with IME clear); with IME set, the lowest pending bit among 0-4 is
   * acknowledged in IF, IME cleared, PC pushed and set to its vector, for 20
   * cycles. Every other outcome costs 0. Only halt, IME, SP and PC can change
   * among the registers.
   */
  function HandleInterrupts(m: Machine, ime: bool): (res: (nat, Machine))
    requires m.Valid()
    ensures res.1.Valid()
    ensures res.1.r == m.r.(halt := res.1.r.halt, ime := res.1.r.ime, sp := res.1.r.sp, pc := res.1.r.pc)
  {
    var ief := Pending(m.bus);
    if ief == 0 then (0, m)
    else
      var m1 := m.(r := m.r.(halt := false));
      if !ime then (0, m1)
      else
        match LowestPending(ief, 0)
        case None => (0, m1)
        case Some(i) =>
          var m2 := Acknowledge(m1, i);
          (20, m2.(r := m2.r.(pc := Vector(i))))
  }

  /** Nothing pending in IE & IF: nothing changes and no cycles are spent. */
  lemma NoInterruptPending(m: Machine, ime: bool)
    requires m.Valid() && Pending(m.bus) == 0
    ensures HandleInterrupts(m, ime) == (0, m)
  {
  }

  /** A pending request ends halt even when IME is clear, and then nothing is dispatched. */
  lemma PendingWithoutIme(m: Machine)
    requires m.Valid() && Pending(m.bus) != 0
    ensures HandleInterrupts(m, false) == (0, m.(r := m.r.(halt := false)))
  {
  }

  /** Only bits 5-7 pending: halt ends but nothing is dispatched. */
  lemma PendingAboveBitFour(m: Machine)
    requires m.Valid() && Pending(m.bus) != 0 && Pending(m.bus) & 0x1F == 0
    ensures HandleInterrupts(m, true) == (0, m.(r := m.r.(halt := false)))
  {
    var ief := Pending(m.bus);
    assert !GetBit(ief, 0) && !GetBit(ief, 1) && !GetBit(ief, 2) && !GetBit(ief, 3) && !GetBit(ief, 4);
  }

  /** LowestPending finds k when k is set and no lower bit is. */
  lemma LowestPendingIs(v: Byte, k: nat)
    requires k < 5 && GetBit(v, k) && forall j: nat :: j < k ==> !GetBit(v, j)
    ensures LowestPending(v, 0) == Some(k)
  {
  }

  /** The address interrupt i jumps to: 0x40 + 8i. */
  function Vector(i: nat): (v: Word)
    requires i < 5
  {
    0x0040 + (i as Word) * 0x08
  }

  /** VBlank, STAT, Timer, Serial and Joypad vector to 0x40, 0x48, 0x50, 0x58 and 0x60. */
  lemma VectorTable()
    ensures Vector(IntVBlank) == 0x40 && Vector(IntStat) == 0x48 && Vector(IntTimer) == 0x50
    ensures Vector(IntSerial) == 0x58 && Vector(IntJoypad) == 0x60
  {
  }

  /** The dispatch of bit i before PC is set: IF bit i cleared, IME cleared, PC pushed. */
  function Acknowledge(m: Machine, i: nat): (r: Machine)
    requires m.Valid()
    ensures r.Valid() && r.r == m.r.(ime := false, sp := m.r.sp - 2)
  {
    var m1 := m.(r := m.r.(ime := false), bus := Write(m.bus, AddrIF, SetBit(Read(m.bus, AddrIF).value, i, false)));
    PushSP(m1, m1.r.pc)
  }

  /**
   * Dispatch: when k is the lowest pending bit, IME and halt are cleared,
   * SP drops by 2, PC becomes k's vector, and 20 cycles are spent.
   */
  lemma Dispatch(m: Machine, k: nat)
    requires m.Valid() && k < 5
    requires GetBit(Pending(m.bus), k) && forall j: nat :: j < k ==> !GetBit(Pending(m.bus), j)
    ensures HandleInterrupts(m, true).0 == 20
    ensures HandleInterrupts(m, true).1.r == m.r.(ime := false, halt := false, sp := m.r.sp - 2, pc := Vector(k))
    ensures HandleInterrupts(m, true).1.bus == Acknowledge(m.(r := m.r.(halt := false)), k).bus
  {
    LowestPendingIs(Pending(m.bus), k);
  }

  /** The dispatch pushes the old PC (on a stack in RAM) and clears bit k of IF. */
  lemma AcknowledgePushesPC(m: Machine, k: nat)
    requires m.Valid() && k < 5 && StackInRam(m.r.sp)
    ensures PopSP(Acknowledge(m, k)).Ok? && PopSP(Acknowledge(m, k)).value.0 == m.r.pc
    ensures !GetBit(IoByte(Acknowledge(m, k).bus, AddrIF), k)
  {
    var m1 := m.(r := m.r.(ime := false), bus := Write(m.bus, AddrIF, SetBit(Read(m.bus, AddrIF).value, k, false)));
    assert IoByte(m1.bus, AddrIF) == SetBit(Read(m.bus, AddrIF).value, k, false);
    PushThenPopValue(m1, m1.r.pc);
    PushKeepsRegisters(m1, m1.r.pc);
  }

  // ---------------------------------------------------------------------
  // The timer (gb/timers.go).

  /** The internal-counter bit whose falling edge clocks TIMA, by TAC's low two bits. */
  function Divisor(tac: Byte): (d: nat)
    ensures tac & 3 == 0 ==> d == 9
    ensures tac & 3 == 1 ==> d == 3
    ensures tac & 3 == 2 ==> d == 5
    ensures tac & 3 == 3 ==> d == 7
  {
    match tac & 0x3
    case 0 => 9
    case 1 => 3
    case 2 => 5
    case _ => 7
  }

  /** Whether watched bit d falls between counter values ic and ic + 4. */
  predicate Falling(ic: Word, d: nat)
  {
    GetBit16(ic, d) && !GetBit16(ic + 4, d)
  }

  /** The start of a sub-step: TIMA, or TMA with the timer interrupt requested when an overflow is pending. */
  function TimerReload(m: Machine): (res: (Byte, Machine))
    requires m.Valid()
    ensures res.1.Valid() && !res.1.r.of && res.1.bus.ic == m.bus.ic && res.1.r == m.r.(of := false)
  {
    if m.r.of then (Read(m.bus, AddrTMA).value, Machine(m.r.(of := false), RequestInterrupt(m.bus, IntTimer)))
    else (Read(m.bus, AddrTIMA).value, m)
  }

  /** The end of a sub-step: on a falling edge TIMA is incremented, a wrap to 0 arming the overflow; TIMA is written. */
  function TimerTick(m: Machine, tima: Byte, ic: Word, d: nat): (r: Machine)
    requires m.Valid()
    ensures r.Valid() && r.bus.ic == m.bus.ic && r.r == m.r.(of := r.r.of)
  {
    if Falling(ic, d) then
      var t := tima + 1;
      Machine(m.r.(of := m.r.of || t == 0), Write(m.bus, AddrTIMA, t))
    else m.(bus := Write(m.bus, AddrTIMA, tima))
  }

  /** One 4-clock sub-step of updateTimers. */
  function TimerSubStep(m: Machine, ic: Word, d: nat): (r: Machine)
    requires m.Valid()
    ensures r.Valid() && r.bus.ic == m.bus.ic && r.r == m.r.(of := r.r.of)
  {
    var (tima, m1) := TimerReload(m);
    TimerTick(m1, tima, ic, d)
  }

  /** The updateTimers loop from local counter ic with cycles left: one sub-step per 4 clocks. */
  function TimerLoop(m: Machine, ic: Word, cycles: int, d: nat): (r: Machine)
    requires m.Valid()
    ensures r.Valid() && r.bus.ic == m.bus.ic && r.r == m.r.(of := r.r.of)
    decreases cycles
  {
    if cycles <= 0 then m else TimerLoop(TimerSubStep(m, ic, d), ic + 4, cycles - 4, d)
  }

  /** Go's uint16(int(ic) + cycles): the sum truncated to 16 bits. */
  function AddCycles(ic: Word, cycles: int): Word
  {
    ((ic as int + cycles) % 0x10000) as Word
  }

  /**
   * updateTimers: the counter advances first; the sub-steps run only while
   * TAC bit 2 is set. No register but the overflow latch changes.
   */
  function UpdateTimers(m: Machine, cycles: int): (r: Machine)
    requires m.Valid()
    ensures r.Valid() && r.bus.ic == AddCycles(m.bus.ic, cycles) && r.r == m.r.(of := r.r.of)
  {
    var ic := m.bus.ic;
    var m1 := m.(bus := m.bus.(ic := AddCycles(ic, cycles)));
    var tac := Read(m1.bus, AddrTAC).value;
    if !GetBit(tac, 2) then m1 else TimerLoop(m1, ic, cycles, Divisor(tac))
  }

  /** With TAC bit 2 clear only the internal counter moves. */
  lemma TimerDisabled(m: Machine, cycles: int)
    requires m.Valid() && !GetBit(IoByte(m.bus, AddrTAC), 2)
    ensures UpdateTimers(m, cycles) == m.(bus := m.bus.(ic := AddCycles(m.bus.ic, cycles)))
  {
  }

  /** Without a pending overflow, TIMA moves by one exactly on a falling edge, and IF is untouched. */
  lemma SubStepEdge(m: Machine, ic: Word, d: nat)
    requires m.Valid() && !m.r.of
    ensures IoByte(TimerSubStep(m, ic, d).bus, AddrTIMA) == IoByte(m.bus, AddrTIMA) + (if Falling(ic, d) then 1 else 0)
    ensures TimerSubStep(m, ic, d).r.of <==> Falling(ic, d) && IoByte(m.bus, AddrTIMA) == 0xFF
    ensures IoByte(TimerSubStep(m, ic, d).bus, AddrIF) == IoByte(m.bus, AddrIF)
  {
  }

  /** A pending overflow reloads TIMA from TMA, requests the timer interrupt, and clears the latch. */
  lemma SubStepReload(m: Machine, ic: Word, d: nat)
    requires m.Valid() && m.r.of && !Falling(ic, d)
    ensures IoByte(TimerSubStep(m, ic, d).bus, AddrTIMA) == IoByte(m.bus, AddrTMA)
    ensures !TimerSubStep(m, ic, d).r.of
    ensures GetBit(IoByte(TimerSubStep(m, ic, d).bus, AddrIF), IntTimer)
  {
    RequestSetsOneBit(m.bus, IntTimer);
  }

  /** n sub-steps, the counter advancing by 4 each time. */
  function SubSteps(m: Machine, ic: Word, n: nat, d: nat): (r: Machine)
    requires m.Valid()
    ensures r.Valid()
    decreases n
  {
    if n == 0 then m else SubSteps(TimerSubStep(m, ic, d), ic + 4, n - 1, d)
  }

  /** The loop runs ceil(cycles / 4) sub-steps, so cycles / 4 of them for a multiple of 4. */
  lemma {:induction false} LoopIsSubSteps(m: Machine, ic: Word, cycles: int, d: nat)
    requires m.Valid() && cycles >= -3
    ensures TimerLoop(m, ic, cycles, d) == SubSteps(m, ic, (cycles + 3) / 4, d)
    decreases cycles
  {
    if cycles > 0 {
      LoopIsSubSteps(TimerSubStep(m, ic, d), ic + 4, cycles - 4, d);
      assert (cycles + 3) / 4 == (cycles - 4 + 3) / 4 + 1;
    }
  }

  // ---------------------------------------------------------------------
  // The instruction table (gb/instructions.go), one function per form.

  /** Flags written back through the four flag setters. */
  function SetFlags(r: Regs, fl: Flags): (r': Regs)
    ensures Keeps(r, r') && FlagsOf(r'.f) == fl
  {
    r.(f := WithFlags(r.f, fl))
  }

  /** The value of an 8-bit operand: a register, the byte at HL, or the byte at PC (IncPC). */
  function ReadOperand(m: Machine, o: Operand): (res: Result<(Byte, Machine)>)
    requires m.Valid()
    ensures res.Ok? ==> res.value.1.bus == m.bus
    ensures res.Ok? ==> res.value.1.r == if o == Imm then AfterFetch(m.r) else m.r
  {
    match o
    case Reg(x) => Ok((Get8(m.r, x), m))
    case AtHL =>
      var v := Read(m.bus, GetPair(m.r, HL));
      if v.Err? then Err(v.failure) else Ok((v.value, m))
    case Imm => IncPC(m)
  }

  /** Stores into an 8-bit destination: a register setter, or Memory.Write at HL. */
  function WriteOperand(m: Machine, o: Operand, v: Byte): (r: Machine)
    requires m.Valid() && o != Imm
    ensures r.Valid() && Keeps(m.r, r.r) && r.r.f == m.r.f
  {
    match o
    case Reg(x) => m.(r := Set8(m.r, x, v))
    case AtHL => m.(bus := Write(m.bus, GetPair(m.r, HL), v))
  }

  /** LD r,r', LD r,(HL), LD (HL),r, LD r,d8 and LD (HL),d8. */
  function ExecLd8(m: Machine, d: Operand, s: Operand): (res: Result<Machine>)
    requires m.Valid() && d != Imm
    ensures res.Ok? ==> res.value.Valid() && Keeps(m.r, res.value.r)
  {
    match ReadOperand(m, s)
    case Err(e) => Err(e)
    case Ok((v, m1)) => Ok(WriteOperand(m1, d, v))
  }

  /** The address of LD A,(x) and LD (x),A, fetching any immediate part. */
  function IndirectAddr(m: Machine, x: Indirect): (res: Result<(Word, Machine)>)
    requires m.Valid()
    ensures res.Ok? ==> res.value.1.bus == m.bus
    ensures res.Ok? ==> res.value.1.r == m.r.(pc := res.value.1.r.pc, haltBug := res.value.1.r.haltBug)
  {
    match x
    case AtBC => Ok((GetPair(m.r, BC), m))
    case AtDE => Ok((GetPair(m.r, DE), m))
    case AtHLInc => Ok((GetPair(m.r, HL), m))
    case AtHLDec => Ok((GetPair(m.r, HL), m))
    case HighImm =>
      (match IncPC(m)
       case Err(e) => Err(e)
       case Ok((v, m1)) => Ok((0xFF00 + v as Word, m1)))
    case HighC => Ok((0xFF00 + m.r.c as Word, m))
    case Absolute => IncPC16(m)
  }

  /** HL+ and HL-: HL moves by one after the access. */
  function AfterIndirect(r: Regs, x: Indirect): (r': Regs)
    ensures r' == r.(h := r'.h, l := r'.l)
  {
    match x
    case AtHLInc => SetPair(r, HL, GetPair(r, HL) + 1)
    case AtHLDec => SetPair(r, HL, GetPair(r, HL) - 1)
    case _ => r
  }

  /** LD A,(BC), LD A,(DE), LD A,(HL+), LD A,(HL-), LDH A,(a8), LD A,(C), LD A,(a16). */
  function ExecLoadA(m: Machine, x: Indirect): (res: Result<Machine>)
    requires m.Valid()
    ensures res.Ok? ==> res.value.Valid() && Keeps(m.r, res.value.r)
  {
    match IndirectAddr(m, x)
    case Err(e) => Err(e)
    case Ok((addr, m1)) => LoadA(m1, addr, x)
  }

  /** The load half of ExecLoadA, once the address is known. */
  function LoadA(m: Machine, addr: Word, x: Indirect): (res: Result<Machine>)
    requires m.Valid()
    ensures res.Ok? <==> Read(m.bus, addr).Ok?
    ensures res.Ok? ==> res.value.bus == m.bus && res.value.r == AfterIndirect(m.r.(a := Read(m.bus, addr).value), x)
  {
    var v := Read(m.bus, addr);
    if v.Err? then Err(v.failure) else Ok(m.(r := AfterIndirect(m.r.(a := v.value), x)))
  }

  /** LD (BC),A, LD (DE),A, LD (HL+),A, LD (HL-),A, LDH (a8),A, LD (C),A, LD (a16),A. */
  function ExecStoreA(m: Machine, x: Indirect): (res: Result<Machine>)
    requires m.Valid()
    ensures res.Ok? ==> res.value.Valid() && Keeps(m.r, res.value.r)
  {
    match IndirectAddr(m, x)
    case Err(e) => Err(e)
    case Ok((addr, m1)) => Ok(Machine(AfterIndirect(m1.r, x), Write(m1.bus, addr, m1.r.a)))
  }

  /** LD rr,d16. */
  function ExecLd16Imm(m: Machine, p: Pair): (res: Result<Machine>)
    requires m.Valid() && p != AF
    ensures res.Ok? ==> res.value.Valid() && Keeps(m.r, res.value.r)
  {
    match IncPC16(m)
    case Err(e) => Err(e)
    case Ok((v, m1)) =>
      SetPairF(m1.r, p, v);
      Ok(m1.(r := SetPair(m1.r, p, v)))
  }

  /** LD (a16),SP: SP stored little-endian at the immediate address. */
  function ExecLdAbsSP(m: Machine): (res: Result<Machine>)
    requires m.Valid()
    ensures res.Ok? ==> res.value.Valid() && Keeps(m.r, res.value.r)
  {
    match IncPC16(m)
    case Err(e) => Err(e)
    case Ok((addr, m1)) => Ok(m1.(bus := Write16(m1.bus, addr, m1.r.sp)))
  }

  /** POP rr; POP AF clears the low nibble of F through SetAF. */
  function ExecPop(m: Machine, p: Pair): (res: Result<Machine>)
    requires m.Valid() && p != SP
    ensures res.Ok? ==> res.value.Valid() && Keeps(m.r, res.value.r)
  {
    match PopSP(m)
    case Err(e) => Err(e)
    case Ok((v, m1)) =>
      SetPairF(m1.r, p, v);
      Ok(m1.(r := SetPair(m1.r, p, v)))
  }

  /** PUSH rr. */
  function ExecPush(m: Machine, p: Pair): (res: Machine)
    requires m.Valid() && p != SP
    ensures res.Valid() && Keeps(m.r, res.r)
  {
    PushSP(m, GetPair(m.r, p))
  }

  /** LD HL,SP+r8: HL gets SP plus the signed offset, with Z and N cleared. */
  function ExecLdHLSPOffset(m: Machine): (res: Result<Machine>)
    requires m.Valid()
    ensures res.Ok? ==> res.value.Valid() && Keeps(m.r, res.value.r)
  {
    match IncPC(m)
    case Err(e) => Err(e)
    case Ok((v, m1)) =>
      var res := OpSignedAdd(m1.r.sp, v);
      SetPairF(SetFlags(m1.r, res.flags), HL, res.value);
      Ok(m1.(r := SetPair(SetFlags(m1.r, res.flags), HL, res.value)))
  }

  /** INC r, DEC r, INC (HL), DEC (HL). */
  function ExecIncDec8(m: Machine, d: Operand, dec: bool): (res: Result<Machine>)
    requires m.Valid() && d != Imm
    ensures res.Ok? ==> res.value.Valid() && Keeps(m.r, res.value.r)
  {
    match ReadOperand(m, d)
    case Err(e) => Err(e)
    case Ok((v, m1)) =>
      var fl := FlagsOf(m1.r.f);
      var res := if dec then OpDec(v, fl) else OpInc(v, fl);
      Ok(WriteOperand(m1.(r := SetFlags(m1.r, res.flags)), d, res.value))
  }

  /** DAA, with its adjustments in the order written in opDaa (see GbAlu.OpDaa). */
  function ExecDaa(m: Machine): (res: Machine)
    ensures Keeps(m.r, res.r)
  {
    var res := OpDaa(m.r.a, FlagsOf(m.r.f));
    m.(r := SetFlags(m.r, res.flags).(a := res.value))
  }

  /** CPL: A complemented, N and H set. */
  function ExecCpl(m: Machine): (res: Machine)
    ensures Keeps(m.r, res.r)
  {
    var f := SetBit(SetBit(m.r.f, 6, true), 5, true);
    assert f & 0x0F == m.r.f & 0x0F;
    m.(r := m.r.(a := !m.r.a, f := f))
  }

  /** SCF: N and H cleared, C set. */
  function ExecScf(m: Machine): (res: Machine)
    ensures Keeps(m.r, res.r)
  {
    var f := SetBit(SetBit(SetBit(m.r.f, 6, false), 5, false), 4, true);
    assert f & 0x0F == m.r.f & 0x0F;
    m.(r := m.r.(f := f))
  }

  /** CCF: N and H cleared, C complemented. */
  function ExecCcf(m: Machine): (res: Machine)
    ensures Keeps(m.r, res.r)
  {
    var f := SetBit(SetBit(SetBit(m.r.f, 6, false), 5, false), 4, !GetBit(m.r.f, 4));
    assert f & 0x0F == m.r.f & 0x0F;
    m.(r := m.r.(f := f))
  }

  /** ADD, ADC, SUB, SBC, AND, XOR, OR and CP on A with a register, (HL) or d8. */
  function ExecAlu(m: Machine, k: AluOp, s: Operand): (res: Result<Machine>)
    requires m.Valid()
    ensures res.Ok? ==> res.value.Valid() && Keeps(m.r, res.value.r)
  {
    match ReadOperand(m, s)
    case Err(e) => Err(e)
    case Ok((v, m1)) =>
      var res := AluResult(k, m1.r.a, v);
      Ok(m1.(r := SetFlags(m1.r, res.flags).(a := res.value)))
  }

  /** The registers after INC rr or DEC rr: only the pair's bytes (or SP) change. */
  function IncDec16Regs(r: Regs, p: Pair, dec: bool): (r': Regs)
    requires p != AF
    ensures r' == r.(b := r'.b, c := r'.c, d := r'.d, e := r'.e, h := r'.h, l := r'.l, sp := r'.sp)
  {
    SetPairF(r, p, GetPair(r, p) - 1);
    SetPairF(r, p, GetPair(r, p) + 1);
    if dec then SetPair(r, p, GetPair(r, p) - 1) else SetPair(r, p, GetPair(r, p) + 1)
  }

  /** INC rr and DEC rr: no flags. */
  function ExecIncDec16(m: Machine, p: Pair, dec: bool): (res: Machine)
    requires p != AF
    ensures Keeps(m.r, res.r)
  {
    m.(r := IncDec16Regs(m.r, p, dec))
  }

  /** ADD HL,rr: Z kept. */
  function ExecAddHL(m: Machine, p: Pair): (res: Machine)
    requires p != AF
    ensures Keeps(m.r, res.r)
  {
    var res := OpAdd16(GetPair(m.r, HL), GetPair(m.r, p), FlagsOf(m.r.f));
    SetPairF(SetFlags(m.r, res.flags), HL, res.value);
    m.(r := SetPair(SetFlags(m.r, res.flags), HL, res.value))
  }

  /** ADD SP,r8: SP plus the signed offset, with Z and N cleared. */
  function ExecAddSPOffset(m: Machine): (res: Result<Machine>)
    requires m.Valid()
    ensures res.Ok? ==> res.value.Valid() && Keeps(m.r, res.value.r)
  {
    match IncPC(m)
    case Err(e) => Err(e)
    case Ok((v, m1)) =>
      var res := OpSignedAdd(m1.r.sp, v);
      Ok(m1.(r := SetFlags(m1.r, res.flags).(sp := res.value)))
  }

  /**
   * Running the table entry of instruction form i. No entry changes IME or
   * halt, and each keeps the low nibble of F clear.
   */
  function Exec(m: Machine, i: Instr): (res: Result<Machine>)
    requires m.Valid() && InTable(i)
    ensures res.Ok? ==> res.value.Valid() && Keeps(m.r, res.value.r)
  {
    match i
    case Ld8(d, s) => ExecLd8(m, d, s)
    case LoadA(x) => ExecLoadA(m, x)
    case StoreA(x) => ExecStoreA(m, x)
    case Ld16Imm(p) => ExecLd16Imm(m, p)
    case LdAbsSP => ExecLdAbsSP(m)
    case Pop(p) => ExecPop(m, p)
    case Push(p) => Ok(ExecPush(m, p))
    case LdHLSPOffset => ExecLdHLSPOffset(m)
    case LdSPHL => Ok(m.(r := m.r.(sp := GetPair(m.r, HL))))
    case IncDec8(d, dec) => ExecIncDec8(m, d, dec)
    case Daa => Ok(ExecDaa(m))
    case Cpl => Ok(ExecCpl(m))
    case Scf => Ok(ExecScf(m))
    case Ccf => Ok(ExecCcf(m))
    case Alu(k, s) => ExecAlu(m, k, s)
    case IncDec16(p, dec) => Ok(ExecIncDec16(m, p, dec))
    case AddHL(p) => Ok(ExecAddHL(m, p))
    case AddSPOffset => ExecAddSPOffset(m)
  }

  /** What the CPU does before interrupts: 4 idle cycles when halted, else fetch, decode and run. */
  function Run(m: Machine): (res: Result<(nat, Machine)>)
    requires m.Valid()
    ensures res.Ok? ==> res.value.1.Valid() && Keeps(m.r, res.value.1.r)
  {
    if m.r.halt then Ok((4, m))
    else
      match IncPC(m)
      case Err(e) => Err(e)
      case Ok((op, m1)) =>
        match Decode(op)
        case None => Err(Unimplemented(op as nat))
        case Some(i) =>
          assert InTable(i) by { OpcodeDecode(op); }
          match Exec(m1, i)
          case Err(e) => Err(e)
          case Ok(m2) => Ok((Cycles(i), m2))
  }

  /**
   * CPU.Step: IME is sampled first; the instruction runs; interrupt handling
   * receives the sampled IME, and the timers then advance by the
   * instruction's and the dispatch's cycles together.
   */
  function Step(m: Machine): (res: Result<(nat, Machine)>)
    requires m.Valid()
    ensures res.Ok? ==> res.value.1.Valid()
    ensures res.Ok? && m.r.f & 0x0F == 0 ==> res.value.1.r.f & 0x0F == 0
  {
    AfterRun(Run(m), m.r.ime)
  }

  /** The rest of Step once the instruction has run: interrupt handling with the sampled IME, then the timers. */
  function AfterRun(run: Result<(nat, Machine)>, ime: bool): (res: Result<(nat, Machine)>)
    requires run.Ok? ==> run.value.1.Valid()
    ensures res.Ok? <==> run.Ok?
    ensures res.Ok? ==> res.value.1.Valid() && res.value.1.r.f == run.value.1.r.f
  {
    if run.Err? then Err(run.failure)
    else
      var handled := HandleInterrupts(run.value.1, ime);
      var cycles := run.value.0 + handled.0;
      Ok((cycles, UpdateTimers(handled.1, cycles)))
  }

  // ---------------------------------------------------------------------
  // What the entries promise.

  /** LD r,r' copies the source register into the destination and changes nothing else. */
  lemma LdCopiesRegister(m: Machine, x: Reg8, y: Reg8)
    requires m.Valid()
    ensures ExecLd8(m, Reg(x), Reg(y)) == Ok(m.(r := Set8(m.r, x, Get8(m.r, y))))
    ensures Get8(ExecLd8(m, Reg(x), Reg(y)).value.r, x) == Get8(m.r, y)
  {
  }

  /** ADC and SBC ignore the C flag: two machines differing only in F leave the same A. */
  lemma CarryFlagIgnored(m: Machine, k: AluOp, y: Reg8, f: Byte)
    requires m.Valid() && (k == Adc || k == Sbc)
    ensures ExecAlu(m, k, Reg(y)).value.r.a == ExecAlu(m.(r := m.r.(f := f)), k, Reg(y)).value.r.a
  {
  }

  /** CP stores the difference in A: the comparison is not side-effect free. */
  lemma CpOverwritesA(m: Machine, y: Reg8)
    requires m.Valid()
    ensures ExecAlu(m, Cp, Reg(y)).value.r.a == m.r.a - Get8(m.r, y)
    ensures FlagsOf(ExecAlu(m, Cp, Reg(y)).value.r.f).z <==> m.r.a == Get8(m.r, y)
  {
    CpActsAsSub(m.r.a, Get8(m.r, y));
  }

  /** CPL twice gives A back. */
  lemma CplInvolution(m: Machine)
    ensures ExecCpl(ExecCpl(m)).r.a == m.r.a
  {
  }

  /** CPL complements A and sets N and H; Z, C and the other registers stay. */
  lemma CplComplements(m: Machine)
    ensures ExecCpl(m).r == m.r.(a := !m.r.a, f := ExecCpl(m).r.f)
    ensures FlagsOf(ExecCpl(m).r.f) == Flags(FlagsOf(m.r.f).z, true, true, FlagsOf(m.r.f).c)
  {
    SetBitKeepsOthers(m.r.f, 6, true);
    SetBitKeepsOthers(SetBit(m.r.f, 6, true), 5, true);
  }

  /** SCF sets C and clears N and H; Z and every other register stay. */
  lemma ScfSetsCarry(m: Machine)
    ensures ExecScf(m).r == m.r.(f := ExecScf(m).r.f)
    ensures FlagsOf(ExecScf(m).r.f) == Flags(FlagsOf(m.r.f).z, false, false, true)
  {
    var f1 := SetBit(m.r.f, 6, false);
    var f2 := SetBit(f1, 5, false);
    SetBitKeepsOthers(m.r.f, 6, false);
    SetBitKeepsOthers(f1, 5, false);
    SetBitKeepsOthers(f2, 4, true);
  }

  /** CCF complements C and clears N and H; Z and every other register stay. */
  lemma CcfFlipsCarry(m: Machine)
    ensures ExecCcf(m).r == m.r.(f := ExecCcf(m).r.f)
    ensures FlagsOf(ExecCcf(m).r.f) == Flags(FlagsOf(m.r.f).z, false, false, !FlagsOf(m.r.f).c)
  {
    var f1 := SetBit(m.r.f, 6, false);
    var f2 := SetBit(f1, 5, false);
    SetBitKeepsOthers(m.r.f, 6, false);
    SetBitKeepsOthers(f1, 5, false);
    SetBitKeepsOthers(f2, 4, !GetBit(m.r.f, 4));
  }

  /** SCF then CCF leaves C clear, and CCF twice gives C back. */
  lemma CarryFlagOps(m: Machine)
    ensures !FlagsOf(ExecCcf(ExecScf(m)).r.f).c
    ensures FlagsOf(ExecCcf(ExecCcf(m)).r.f).c == FlagsOf(m.r.f).c
  {
    ScfSetsCarry(m);
    CcfFlipsCarry(ExecScf(m));
    CcfFlipsCarry(m);
    CcfFlipsCarry(ExecCcf(m));
  }

  /** ADD HL,rr leaves opAdd16's sum HL + rr in HL and its flags in F; only H, L and F change. */
  lemma AddHLSums(m: Machine, p: Pair)
    requires p != AF
    ensures GetPair(ExecAddHL(m, p).r, HL) == OpAdd16(GetPair(m.r, HL), GetPair(m.r, p), FlagsOf(m.r.f)).value
    ensures FlagsOf(ExecAddHL(m, p).r.f) == OpAdd16(GetPair(m.r, HL), GetPair(m.r, p), FlagsOf(m.r.f)).flags
    ensures ExecAddHL(m, p).r == m.r.(h := ExecAddHL(m, p).r.h, l := ExecAddHL(m, p).r.l, f := ExecAddHL(m, p).r.f)
  {
    var res := OpAdd16(GetPair(m.r, HL), GetPair(m.r, p), FlagsOf(m.r.f));
    StoreHL(m.r, res.flags, res.value);
  }

  /** HL stored after the flags: HL reads back the value, F holds the flags, nothing else moves. */
  lemma StoreHL(r: Regs, fl: Flags, v: Word)
    ensures GetPair(SetPair(SetFlags(r, fl), HL, v), HL) == v
    ensures FlagsOf(SetPair(SetFlags(r, fl), HL, v).f) == fl
    ensures SetPair(SetFlags(r, fl), HL, v) == r.(h := Hi(v), l := Lo(v), f := SetPair(SetFlags(r, fl), HL, v).f)
  {
    PairRoundTrip(SetFlags(r, fl), HL, v);
  }

  /** LD HL,SP+r8 puts opSignedAdd's SP plus the signed offset in HL and leaves SP alone. */
  lemma LdHLSPOffsetSum(m: Machine)
    requires m.Valid() && IncPC(m).Ok?
    ensures ExecLdHLSPOffset(m).Ok?
    ensures GetPair(ExecLdHLSPOffset(m).value.r, HL) == OpSignedAdd(m.r.sp, IncPC(m).value.0).value
    ensures ExecLdHLSPOffset(m).value.r.sp == m.r.sp
  {
    var m1 := IncPC(m).value.1;
    var res := OpSignedAdd(m1.r.sp, IncPC(m).value.0);
    StoreHL(m1.r, res.flags, res.value);
  }

  /** ADD SP,r8 moves SP by the sign-extended offset. */
  lemma AddSPOffsetSum(m: Machine)
    requires m.Valid() && IncPC(m).Ok?
    ensures ExecAddSPOffset(m).Ok?
    ensures ExecAddSPOffset(m).value.r.sp == m.r.sp + SignExtend(IncPC(m).value.0)
  {
  }

  /** INC r and DEC r on a register: the operation's result in the register, its flags in F. */
  lemma IncDec8Reg(m: Machine, x: Reg8, dec: bool)
    requires m.Valid()
    ensures var v := Get8(m.r, x);
      var res := if dec then OpDec(v, FlagsOf(m.r.f)) else OpInc(v, FlagsOf(m.r.f));
      ExecIncDec8(m, Reg(x), dec) == Ok(m.(r := Set8(SetFlags(m.r, res.flags), x, res.value)))
  {
  }

  /** INC r then DEC r gives the register back; only F differs, and C is untouched throughout. */
  lemma IncThenDec8(m: Machine, x: Reg8)
    requires m.Valid()
    ensures ExecIncDec8(m, Reg(x), false).Ok?
    ensures var m1 := ExecIncDec8(m, Reg(x), false).value;
      ExecIncDec8(m1, Reg(x), true).Ok? &&
      var m2 := ExecIncDec8(m1, Reg(x), true).value;
      m2.bus == m.bus && m2.r == m.r.(f := m2.r.f) && FlagsOf(m2.r.f).c == FlagsOf(m.r.f).c
  {
    var v := Get8(m.r, x);
    var inc := OpInc(v, FlagsOf(m.r.f));
    var r1 := Set8(SetFlags(m.r, inc.flags), x, inc.value);
    IncDec8Reg(m, x, false);
    var dec := OpDec(inc.value, FlagsOf(r1.f));
    var r2 := Set8(SetFlags(r1, dec.flags), x, dec.value);
    IncDec8Reg(m.(r := r1), x, true);
    assert dec.value == v;
    Set8Back(m.r, x, inc.flags, inc.value, dec.flags);
  }

  /** Storing a register's old value back over a changed copy restores every register but F. */
  lemma Set8Back(r: Regs, x: Reg8, fl1: Flags, w: Byte, fl2: Flags)
    ensures var r2 := Set8(SetFlags(Set8(SetFlags(r, fl1), x, w), fl2), x, Get8(r, x));
      r2 == r.(f := r2.f)
  {
    match x
    case B => {} case C => {} case D => {} case E => {}
    case H => {} case L => {} case A => {}
  }

  /** LD (BC),A or LD (DE),A into plain memory, then the matching load: A reads back and nothing changes. */
  lemma StoreThenLoadA(m: Machine, x: Indirect)
    requires m.Valid() && (x == AtBC || x == AtDE)
    requires Plain(GetPair(m.r, if x == AtBC then BC else DE))
    ensures ExecStoreA(m, x).Ok?
    ensures ExecLoadA(ExecStoreA(m, x).value, x) == ExecStoreA(m, x)
  {
    var addr := GetPair(m.r, if x == AtBC then BC else DE);
    var m1 := Machine(m.r, Write(m.bus, addr, m.r.a));
    assert ExecStoreA(m, x) == Ok(m1);
    WriteThenRead(m.bus, addr, m.r.a);
    assert LoadA(m1, addr, x) == Ok(m1);
  }

  /** INC rr undone by DEC rr, and the other way round. */
  lemma IncDec16Inverse(r: Regs, p: Pair, dec: bool)
    requires p != AF
    ensures IncDec16Regs(IncDec16Regs(r, p, dec), p, !dec) == r
  {
    if dec {
      DecThenInc(r, p);
    } else {
      IncThenDec(r, p);
    }
  }

  lemma DecThenInc(r: Regs, p: Pair)
    requires p != AF
    ensures IncDec16Regs(IncDec16Regs(r, p, true), p, false) == r
  {
    var v := GetPair(r, p);
    var r1 := SetPair(r, p, v - 1);
    IncDec16IsStore(r, p, true);
    IncDec16IsStore(r1, p, false);
    PairRoundTrip(r, p, v - 1);
    DecUndone(r, p, r1, IncDec16Regs(r1, p, false), v);
  }

  lemma IncThenDec(r: Regs, p: Pair)
    requires p != AF
    ensures IncDec16Regs(IncDec16Regs(r, p, false), p, true) == r
  {
    var v := GetPair(r, p);
    var r1 := SetPair(r, p, v + 1);
    IncDec16IsStore(r, p, false);
    IncDec16IsStore(r1, p, true);
    PairRoundTrip(r, p, v + 1);
    IncUndone(r, p, r1, IncDec16Regs(r1, p, true), v);
  }

  /** INC rr and DEC rr store the pair plus or minus one. */
  lemma IncDec16IsStore(r: Regs, p: Pair, dec: bool)
    requires p != AF
    ensures IncDec16Regs(r, p, dec) == if dec then SetPair(r, p, GetPair(r, p) - 1) else SetPair(r, p, GetPair(r, p) + 1)
  {
  }

  /** A store of v - 1 followed by a store of that plus one restores the registers. */
  lemma DecUndone(r: Regs, p: Pair, r1: Regs, r2: Regs, v: Word)
    requires p != AF && v == GetPair(r, p)
    requires r1 == SetPair(r, p, v - 1) && GetPair(r1, p) == v - 1
    requires r2 == SetPair(r1, p, GetPair(r1, p) + 1)
    ensures r2 == r
  {
    Restore(r, p, v - 1, v);
  }

  /** A store of v + 1 followed by a store of that minus one restores the registers. */
  lemma IncUndone(r: Regs, p: Pair, r1: Regs, r2: Regs, v: Word)
    requires p != AF && v == GetPair(r, p)
    requires r1 == SetPair(r, p, v + 1) && GetPair(r1, p) == v + 1
    requires r2 == SetPair(r1, p, GetPair(r1, p) - 1)
    ensures r2 == r
  {
    Restore(r, p, v + 1, v);
  }

  /** Storing the pair's old value over a new one restores the registers. */
  lemma Restore(r: Regs, p: Pair, w: Word, back: Word)
    requires p != AF && back == GetPair(r, p)
    ensures SetPair(SetPair(r, p, w), p, back) == r
  {
    SetPairTwice(r, p, w, back);
    SetPairOwn(r, p);
  }

  /** A second store to a pair overwrites the first. */
  lemma SetPairTwice(r: Regs, p: Pair, v: Word, w: Word)
    requires p != AF
    ensures SetPair(SetPair(r, p, v), p, w) == SetPair(r, p, w)
  {
    match p
    case BC => assert SetPair(r, p, v).(b := Hi(w), c := Lo(w)) == r.(b := Hi(w), c := Lo(w));
    case DE => assert SetPair(r, p, v).(d := Hi(w), e := Lo(w)) == r.(d := Hi(w), e := Lo(w));
    case HL => assert SetPair(r, p, v).(h := Hi(w), l := Lo(w)) == r.(h := Hi(w), l := Lo(w));
    case SP =>
  }

  /** Storing a pair's own value changes nothing. */
  lemma SetPairOwn(r: Regs, p: Pair)
    requires p != AF
    ensures SetPair(r, p, GetPair(r, p)) == r
  {
  }

  /** PUSH rr then POP rr' moves rr into rr' (AF masks F) and leaves SP as it was. */
  lemma PushPopMoves(m: Machine, p: Pair, q: Pair)
    requires m.Valid() && StackInRam(m.r.sp) && p != SP && q != SP
    ensures Exec(Exec(m, Push(p)).value, Pop(q)).Ok?
    ensures Exec(Exec(m, Push(p)).value, Pop(q)).value.r == SetPair(m.r, q, GetPair(m.r, p))
  {
    PushThenPopValue(m, GetPair(m.r, p));
    PushThenPopRegs(m, GetPair(m.r, p));
  }

  /** While halted with nothing pending, Step spends 4 cycles and fetches nothing. */
  lemma HaltedStep(m: Machine)
    requires m.Valid() && m.r.halt && Pending(m.bus) == 0
    ensures Step(m).Ok?
    ensures Step(m).value.0 == 4
    ensures Step(m).value.1.r == m.r.(of := Step(m).value.1.r.of)
  {
  }

  /** An empty table slot (HALT among them) is an error once the opcode is fetched. */
  lemma UnimplementedStep(m: Machine)
    requires m.Valid() && !m.r.halt && Read(m.bus, m.r.pc).Ok?
    requires Decode(Read(m.bus, m.r.pc).value).None?
    ensures Step(m) == Err(Unimplemented(Read(m.bus, m.r.pc).value as nat))
  {
  }

  /** An instruction that runs is charged its table cost plus the dispatch cost. */
  lemma StepCost(m: Machine)
    requires m.Valid() && !m.r.halt && IncPC(m).Ok? && Decode(IncPC(m).value.0).Some?
    requires Step(m).Ok?
    ensures var i := Decode(IncPC(m).value.0).value;
      Step(m).value.0 == Cycles(i) || Step(m).value.0 == Cycles(i) + 20
  {
  }
}
