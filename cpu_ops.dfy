/**
 * The micro-op combinators of the split CPU package (gb/cpu/micro_ops.go),
 * the 8-bit load table built from them (gb/cpu/instructions.go) and one
 * CPU step (gb/cpu/cpu.go). In Go each combinator returns a closure over
 * an InstructionIO; here a combinator is a constructor of a small
 * datatype, and EvalSrc, EvalSrc16, EvalDst and EvalDst16 run it on a
 * State, in the order the closure makes its calls.
 */
module CpuOps {
  import opened Bits
  import opened Outcomes
  import opened CpuTiming
  import opened CpuState
  import GbAlu

  /** An 8-bit source (OpSrc). */
  datatype Src =
    | OpLoad(r: Reg)              // the register's value
    | OpImmediate                 // the byte at PC; PC advances by 1
    | OpRead(addr: Src16)         // the byte at the computed address
    | OpReadHLI                   // the byte at HL; HL advances by 1
    | OpReadHLD                   // the byte at HL; HL goes back by 1

  /** A 16-bit source (OpSrc16). */
  datatype Src16 =
    | OpLoad16(rr: Reg16)         // the pair's value
    | OpImmediate16               // the two bytes at PC, the first one high; PC advances by 2
    | OpPC
    | OpSP
    | OpHigh(src: Src)            // 0xFF00 plus the byte
    | OpRead16(addr: Src16)       // the two bytes at the address, the first one high
    | OpSAdd(a: Src16, b: Src)    // a plus the signed byte b, setting the flags

  /** An 8-bit destination (OpDst). */
  datatype Dst =
    | OpStore(r: Reg)
    | OpWrite(addr: Src16)
    | OpWriteHLI
    | OpWriteHLD

  /** A 16-bit destination (OpDst16). */
  datatype Dst16 =
    | OpStore16(rr: Reg16)
    | OpSetPC
    | OpSetSP
    | OpWrite16(addr: Src16)      // the high byte first, at the address, then the low byte

  /** A flag source (OpFlagSrc). */
  datatype FlagSrc = OpFlag(f: Flag) | OpNotFlag(f: Flag) | OpTrue

  /** The only instruction shape the table builds: opLD(dst, src). */
  datatype Instruction = LD(dst: Dst, src: Src)

  /** The H and C flags of a signed add (Z and N are always cleared). */
  datatype AddFlags = AddFlags(h: bool, c: bool)

  // ---------------------------------------------------------------------
  // Evaluation.

  function EvalSrc(s: State, src: Src): Out
    decreases src
  {
    match src
    case OpLoad(r) => Out(s, RegOf(s, r))
    case OpImmediate => Immediate(s)
    case OpRead(addr) =>
      var a := EvalSrc16(s, addr);
      ReadMem(a.s, a.v)
    case OpReadHLI => ReadHL(s, 1)
    case OpReadHLD => ReadHL(s, 0xFFFF)
  }

  function EvalSrc16(s: State, src: Src16): Out16
    decreases src
  {
    match src
    case OpLoad16(rr) => Out16(s, Reg16Of(s, rr))
    case OpImmediate16 => Immediate16(s)
    case OpPC => Out16(s, s.pc)
    case OpSP => Out16(s, s.sp)
    case OpHigh(b) =>
      var o := EvalSrc(s, b);
      Out16(o.s, 0xFF00 + o.v as Word)
    case OpRead16(addr) =>
      var a := EvalSrc16(s, addr);
      Read16At(a.s, a.v)
    case OpSAdd(x, y) =>
      var a := EvalSrc16(s, x);
      var b := EvalSrc(a.s, y);
      SAdd(b.s, a.v, b.v)
  }

  function EvalDst(s: State, dst: Dst, v: Byte): State
    decreases dst
  {
    match dst
    case OpStore(r) => WithReg(s, r, v)
    case OpWrite(addr) =>
      var a := EvalSrc16(s, addr);
      WriteMem(a.s, a.v, v)
    case OpWriteHLI => WriteHL(s, 1, v)
    case OpWriteHLD => WriteHL(s, 0xFFFF, v)
  }

  function EvalDst16(s: State, dst: Dst16, v: Word): State
  {
    match dst
    case OpStore16(rr) => WithReg16(s, rr, v)
    case OpSetPC => s.(pc := v)
    case OpSetSP => s.(sp := v)
    case OpWrite16(addr) =>
      var a := EvalSrc16(s, addr);
      Write16At(a.s, a.v, v)
  }

  function EvalFlag(s: State, f: FlagSrc): bool
  {
    match f
    case OpFlag(g) => FlagOf(s, g)
    case OpNotFlag(g) => !FlagOf(s, g)
    case OpTrue => true
  }

  /** opImmediate: the byte at PC, then PC + 1. */
  function Immediate(s: State): Out
  {
    var o := ReadMem(s, s.pc);
    Out(o.s.(pc := s.pc + 1), o.v)
  }

  /** opImmediate16: the bytes at PC and PC + 1, the first one high, then PC + 2. */
  function Immediate16(s: State): Out16
  {
    var o := Read16At(s, s.pc);
    Out16(o.s.(pc := s.pc + 2), o.v)
  }

  /** opReadHLI (delta 1) and opReadHLD (delta 0xFFFF, i.e. -1 in uint16): the byte at HL, then HL + delta. */
  function ReadHL(s: State, delta: Word): Out
  {
    var hl := Reg16Of(s, HL);
    var o := ReadMem(s, hl);
    Out(WithReg16(o.s, HL, hl + delta), o.v)
  }

  /** opWriteHLI (delta 1) and opWriteHLD (delta 0xFFFF): the byte to HL, then HL + delta. */
  function WriteHL(s: State, delta: Word, v: Byte): State
  {
    var hl := Reg16Of(s, HL);
    WithReg16(WriteMem(s, hl, v), HL, hl + delta)
  }

  /** opRead16 once its address is known: the byte at a is the high one, the byte at a + 1 the low one. */
  function Read16At(s: State, a: Word): Out16
  {
    var hi := ReadMem(s, a);
    var lo := ReadMem(hi.s, a + 1);
    Out16(lo.s, CombineBytes(hi.v, lo.v))
  }

  /** opWrite16 once its address is known: the high byte to a, then the low byte to a + 1. */
  function Write16At(s: State, a: Word, v: Word): State
  {
    WriteMem(WriteMem(s, a, Hi(v)), a + 1, Lo(v))
  }

  /** opSAdd once both operands are known: the flags as written, and a plus the sign-extended b. */
  function SAdd(s: State, a: Word, b: Byte): Out16
  {
    Out16(WithAddFlags(s, SAddFlagsAsWritten(a, b)), a + GbAlu.SignExtend(b))
  }

  /** opLD: the source runs first, then the destination takes its value. */
  function ExecLD(s: State, ins: Instruction): State
  {
    var o := EvalSrc(s, ins.src);
    EvalDst(o.s, ins.dst, o.v)
  }

  // ---------------------------------------------------------------------
  // The signed add's flags.

  /** Go's int8(b): the byte read as two's complement. */
  function Signed(b: Byte): (r: int)
    ensures -128 <= r < 128
  {
    if b < 0x80 then b as int else b as int - 0x100
  }

  /**
   * The flags as micro_ops.go computes them: H from the nibble difference
   * wrapping in uint8, C from the signed 32-bit sum exceeding 0xFF.
   */
  function SAddFlagsAsWritten(a: Word, b: Byte): AddFlags
  {
    AddFlags((Lo(a) & 0xF) - (b & 0xF) > 0xF, a as int + Signed(b) > 0xFF)
  }

  /**
   * The corrected flags of the signed add, as the monolithic generation
   * computes them: the carries out of bits 3 and 7 of the unsigned 8-bit
   * add of a's low byte and b. SAdd keeps the flags as written.
   */
  function SAddFlags(a: Word, b: Byte): (r: AddFlags)
    ensures r.h <==> (Lo(a) & 0xF) + (b & 0xF) > 0xF
    ensures r.c <==> Lo(a) + b < Lo(a)
  {
    var sum := GbAlu.OpAdd(Lo(a), b, 0);
    GbAlu.AddCarry(Lo(a), b, 0);
    AddFlags(sum.flags.h, sum.flags.c)
  }

  /** Z and N cleared, H and C as given. */
  function WithAddFlags(s: State, fl: AddFlags): State
  {
    WithFlag(WithFlag(WithFlag(WithFlag(s, FlagZ, false), FlagN, false), FlagH, fl.h), FlagC, fl.c)
  }

  // ---------------------------------------------------------------------
  // The instruction table (initInstructionSet) and Step.

  /** The entry for an opcode; 0x100-0x1FF are the 0xCB-prefixed opcodes. */
  function Table(op: nat): Option<Instruction>
  {
    match op
    case 0x06 => Some(LD(OpStore(B), OpImmediate))
    case 0x0E => Some(LD(OpStore(C), OpImmediate))
    case 0x16 => Some(LD(OpStore(D), OpImmediate))
    case 0x1E => Some(LD(OpStore(E), OpImmediate))
    case 0x26 => Some(LD(OpStore(H), OpImmediate))
    case 0x2E => Some(LD(OpStore(L), OpImmediate))
    case 0x40 => Some(LD(OpStore(B), OpLoad(B)))
    case 0x41 => Some(LD(OpStore(B), OpLoad(C)))
    case 0x42 => Some(LD(OpStore(B), OpLoad(D)))
    case 0x43 => Some(LD(OpStore(B), OpLoad(E)))
    case 0x44 => Some(LD(OpStore(B), OpLoad(H)))
    case 0x45 => Some(LD(OpStore(B), OpLoad(L)))
    case 0x46 => Some(LD(OpStore(B), OpRead(OpLoad16(HL))))
    case 0x47 => Some(LD(OpStore(B), OpLoad(A)))
    case 0x48 => Some(LD(OpStore(C), OpLoad(B)))
    case 0x49 => Some(LD(OpStore(C), OpLoad(C)))
    case 0x4A => Some(LD(OpStore(C), OpLoad(D)))
    case 0x4B => Some(LD(OpStore(C), OpLoad(E)))
    case 0x4C => Some(LD(OpStore(C), OpLoad(H)))
    case 0x4D => Some(LD(OpStore(C), OpLoad(L)))
    case 0x4E => Some(LD(OpStore(C), OpRead(OpLoad16(HL))))
    case 0x4F => Some(LD(OpStore(C), OpLoad(A)))
    case 0x50 => Some(LD(OpStore(D), OpLoad(B)))
    case 0x51 => Some(LD(OpStore(D), OpLoad(C)))
    case 0x52 => Some(LD(OpStore(D), OpLoad(D)))
    case 0x53 => Some(LD(OpStore(D), OpLoad(E)))
    case 0x54 => Some(LD(OpStore(D), OpLoad(H)))
    case 0x55 => Some(LD(OpStore(D), OpLoad(L)))
    case 0x56 => Some(LD(OpStore(D), OpRead(OpLoad16(HL))))
    case 0x57 => Some(LD(OpStore(D), OpLoad(A)))
    case 0x58 => Some(LD(OpStore(E), OpLoad(B)))
    case 0x59 => Some(LD(OpStore(E), OpLoad(C)))
    case 0x5A => Some(LD(OpStore(E), OpLoad(D)))
    case 0x5B => Some(LD(OpStore(E), OpLoad(E)))
    case 0x5C => Some(LD(OpStore(E), OpLoad(H)))
    case 0x5D => Some(LD(OpStore(E), OpLoad(L)))
    case 0x5E => Some(LD(OpStore(E), OpRead(OpLoad16(HL))))
    case 0x5F => Some(LD(OpStore(E), OpLoad(A)))
    case 0x60 => Some(LD(OpStore(H), OpLoad(B)))
    case 0x61 => Some(LD(OpStore(H), OpLoad(C)))
    case 0x62 => Some(LD(OpStore(H), OpLoad(D)))
    case 0x63 => Some(LD(OpStore(H), OpLoad(E)))
    case 0x64 => Some(LD(OpStore(H), OpLoad(H)))
    case 0x65 => Some(LD(OpStore(H), OpLoad(L)))
    case 0x66 => Some(LD(OpStore(H), OpRead(OpLoad16(HL))))
    case 0x67 => Some(LD(OpStore(H), OpLoad(A)))
    case 0x68 => Some(LD(OpStore(L), OpLoad(B)))
    case 0x69 => Some(LD(OpStore(L), OpLoad(C)))
    case 0x6A => Some(LD(OpStore(L), OpLoad(D)))
    case 0x6B => Some(LD(OpStore(L), OpLoad(E)))
    case 0x6C => Some(LD(OpStore(L), OpLoad(H)))
    case 0x6D => Some(LD(OpStore(L), OpLoad(L)))
    case 0x6E => Some(LD(OpStore(L), OpRead(OpLoad16(HL))))
    case 0x6F => Some(LD(OpStore(L), OpLoad(A)))
    case 0x70 => Some(LD(OpWrite(OpLoad16(HL)), OpLoad(B)))
    case 0x71 => Some(LD(OpWrite(OpLoad16(HL)), OpLoad(C)))
    case 0x72 => Some(LD(OpWrite(OpLoad16(HL)), OpLoad(D)))
    case 0x73 => Some(LD(OpWrite(OpLoad16(HL)), OpLoad(E)))
    case 0x74 => Some(LD(OpWrite(OpLoad16(HL)), OpLoad(H)))
    case 0x75 => Some(LD(OpWrite(OpLoad16(HL)), OpLoad(L)))
    case 0x77 => Some(LD(OpWrite(OpLoad16(HL)), OpLoad(A)))
    case 0x36 => Some(LD(OpWrite(OpLoad16(HL)), OpImmediate))
    case 0x78 => Some(LD(OpStore(A), OpLoad(B)))
    case 0x79 => Some(LD(OpStore(A), OpLoad(C)))
    case 0x7A => Some(LD(OpStore(A), OpLoad(D)))
    case 0x7B => Some(LD(OpStore(A), OpLoad(E)))
    case 0x7C => Some(LD(OpStore(A), OpLoad(H)))
    case 0x7D => Some(LD(OpStore(A), OpLoad(L)))
    case 0x7E => Some(LD(OpStore(A), OpRead(OpLoad16(HL))))
    case 0x7F => Some(LD(OpStore(A), OpLoad(A)))
    case 0x0A => Some(LD(OpStore(A), OpRead(OpLoad16(BC))))
    case 0x1A => Some(LD(OpStore(A), OpRead(OpLoad16(DE))))
    case 0xFA => Some(LD(OpStore(A), OpRead(OpImmediate16)))
    case 0x3E => Some(LD(OpStore(A), OpImmediate))
    case 0x2A => Some(LD(OpStore(A), OpReadHLI))
    case 0x3A => Some(LD(OpStore(A), OpReadHLD))
    case 0x22 => Some(LD(OpWriteHLI, OpLoad(A)))
    case 0x32 => Some(LD(OpWriteHLD, OpLoad(A)))
    case 0x02 => Some(LD(OpWrite(OpLoad16(BC)), OpLoad(A)))
    case 0x12 => Some(LD(OpWrite(OpLoad16(DE)), OpLoad(A)))
    case 0xEA => Some(LD(OpWrite(OpImmediate16), OpLoad(A)))
    case 0xE0 => Some(LD(OpWrite(OpHigh(OpImmediate)), OpLoad(A)))
    case 0xE2 => Some(LD(OpWrite(OpHigh(OpLoad(C))), OpLoad(A)))
    case 0xF0 => Some(LD(OpStore(A), OpRead(OpHigh(OpImmediate))))
    case 0xF2 => Some(LD(OpStore(A), OpRead(OpHigh(OpLoad(C)))))
    case _ => None
  }

  /** Not defined in the package: the byte at PC, PC advancing by one, as opImmediate reads it. */
  function PopPC(s: State): Out
  {
    EvalSrc(s, OpImmediate)
  }

  /** Not defined in the package: the call is recorded with the IME value it was given. */
  function HandleInterruptsCall(s: State, ime: bool): State
  {
    s.(trace := s.trace + [HandleInterrupts(ime)])
  }

  /** The opcode Step fetched and the state after fetching it. */
  datatype Fetched = Fetched(s: State, op: nat)

  /** One opcode byte, or 0xCB and a second byte, offset by 0x100. */
  function FetchOpcode(s: State): Fetched
  {
    var o := PopPC(s);
    if o.v == 0xCB then
      var p := PopPC(o.s);
      Fetched(p.s, p.v as nat + 0x100)
    else Fetched(o.s, o.v as nat)
  }

  /** Step's outcome: the state, or the error for an opcode without an entry (with the state at that point). */
  datatype StepOutcome = Stepped(s: State) | InvalidOpcode(s: State, op: nat)

  /**
   * Step: clocks restart at 0 and IME is sampled; a running CPU fetches and
   * executes one instruction, a halted one spends one machine cycle; then
   * interrupts are handled with the sampled IME. A missing table entry
   * returns before the interrupt handling.
   */
  function StepState(s: State): StepOutcome
  {
    var s0 := s.(clocks := 0);
    if s.halt then Stepped(HandleInterruptsCall(Cycle(s0), s.ime))
    else
      var f := FetchOpcode(s0);
      match Table(f.op)
      case None => InvalidOpcode(f.s, f.op)
      case Some(ins) => Stepped(HandleInterruptsCall(ExecLD(f.s, ins), s.ime))
  }

  /** FetchOpcode, given the first byte it pops. */
  lemma FetchSteps(s: State, first: Out)
    requires first == PopPC(s)
    ensures FetchOpcode(s) == if first.v == 0xCB then
      var p := PopPC(first.s); Fetched(p.s, p.v as nat + 0x100)
    else Fetched(first.s, first.v as nat)
  {
  }

  /** StepState on a running CPU, given the state with its clocks reset and what the fetch gave. */
  lemma StepRunning(s: State, start: State, f: Fetched)
    requires !s.halt && start == s.(clocks := 0) && f == FetchOpcode(start)
    ensures StepState(s) == match Table(f.op)
      case None => InvalidOpcode(f.s, f.op)
      case Some(ins) => Stepped(HandleInterruptsCall(ExecLD(f.s, ins), s.ime))
  {
  }

  /** How many HandleInterrupts calls a trace records. */
  function Handled(t: seq<Event>): (n: nat)
    ensures n <= |t|
  {
    if t == [] then 0
    else Handled(t[..|t| - 1]) + (if t[|t| - 1].HandleInterrupts? then 1 else 0)
  }

  // ---------------------------------------------------------------------
  // Machine cycles per micro-op.

  function SrcCycles(src: Src): nat
    decreases src
  {
    match src
    case OpLoad(_) => 0
    case OpImmediate => 1
    case OpRead(addr) => Src16Cycles(addr) + 1
    case OpReadHLI => 1
    case OpReadHLD => 1
  }

  function Src16Cycles(src: Src16): nat
    decreases src
  {
    match src
    case OpLoad16(_) => 0
    case OpImmediate16 => 2
    case OpPC => 0
    case OpSP => 0
    case OpHigh(b) => SrcCycles(b)
    case OpRead16(addr) => Src16Cycles(addr) + 2
    case OpSAdd(x, y) => Src16Cycles(x) + SrcCycles(y)
  }

  function DstCycles(dst: Dst): nat
  {
    match dst
    case OpStore(_) => 0
    case OpWrite(addr) => Src16Cycles(addr) + 1
    case OpWriteHLI => 1
    case OpWriteHLD => 1
  }

  function Dst16Cycles(dst: Dst16): nat
  {
    match dst
    case OpStore16(_) => 0
    case OpSetPC => 0
    case OpSetSP => 0
    case OpWrite16(addr) => Src16Cycles(addr) + 2
  }

  // ---------------------------------------------------------------------
  // Properties of the micro-ops.

  /** Every micro-op costs 4 clocks per bus access it makes and nothing else. */
  lemma {:induction false} SrcClocks(s: State, src: Src)
    ensures EvalSrc(s, src).s.clocks == s.clocks + 4 * SrcCycles(src)
    decreases src
  {
    match src
    case OpLoad(_) =>
    case OpImmediate =>
    case OpRead(addr) =>
      Src16Clocks(s, addr);
    case OpReadHLI =>
    case OpReadHLD =>
  }

  lemma {:induction false} Src16Clocks(s: State, src: Src16)
    ensures EvalSrc16(s, src).s.clocks == s.clocks + 4 * Src16Cycles(src)
    decreases src
  {
    match src
    case OpLoad16(_) =>
    case OpImmediate16 =>
    case OpPC =>
    case OpSP =>
    case OpHigh(b) =>
      SrcClocks(s, b);
    case OpRead16(addr) =>
      Src16Clocks(s, addr);
    case OpSAdd(x, y) =>
      Src16Clocks(s, x);
      SrcClocks(EvalSrc16(s, x).s, y);
  }

  lemma DstClocks(s: State, dst: Dst, v: Byte)
    ensures EvalDst(s, dst, v).clocks == s.clocks + 4 * DstCycles(dst)
  {
    if dst.OpWrite? {
      Src16Clocks(s, dst.addr);
    }
  }

  lemma Dst16Clocks(s: State, dst: Dst16, v: Word)
    ensures EvalDst16(s, dst, v).clocks == s.clocks + 4 * Dst16Cycles(dst)
  {
    if dst.OpWrite16? {
      Src16Clocks(s, dst.addr);
    }
  }

  /** Immediate, given the read it makes. */
  lemma ImmediateSteps(s: State, read: Out)
    requires read == ReadMem(s, s.pc)
    ensures Immediate(s) == Out(read.s.(pc := s.pc + 1), read.v)
  {
  }

  /** opImmediate: the byte at PC, PC + 1, one read at PC. */
  lemma ImmediateReadsPC(s: State)
    ensures Immediate(s).v == ReadMem(s, s.pc).v
    ensures Immediate(s).s.pc == s.pc + 1
    ensures Accesses(Immediate(s).s.trace) == Accesses(s.trace) + (if s.mem.Some? then [Read(s.pc)] else [])
  {
    ReadAccess(s, s.pc);
  }

  /**
   * opImmediate16's value: of the bytes at PC and PC + 1, the first becomes
   * the HIGH byte.
   */
  lemma Immediate16HighFirst(s: State)
    requires s.mem.Some?
    ensures Hi(Immediate16(s).v) == s.mem.value[s.pc as int]
    ensures Lo(Immediate16(s).v) == s.mem.value[(s.pc + 1) as int]
  {
    Read16AtValue(s, s.pc);
  }

  /** opImmediate16 reads PC and then PC + 1, and advances PC by 2. */
  lemma Immediate16Advances(s: State)
    requires s.mem.Some?
    ensures Immediate16(s).s.pc == s.pc + 2
    ensures Accesses(Immediate16(s).s.trace) == Accesses(s.trace) + [Read(s.pc), Read(s.pc + 1)]
  {
    Read16AtOrder(s, s.pc);
  }

  /** opRead16 at a: the byte at a is the high one, the byte at a + 1 the low one. */
  lemma Read16AtValue(s: State, a: Word)
    requires s.mem.Some?
    ensures Hi(Read16At(s, a).v) == s.mem.value[a as int]
    ensures Lo(Read16At(s, a).v) == s.mem.value[(a + 1) as int]
  {
    var hi := ReadMem(s, a);
    ReadValue(s, a);
    ReadValue(hi.s, a + 1);
  }

  /** opRead16's two reads are at a and then a + 1; PC is not touched. */
  lemma Read16AtOrder(s: State, a: Word)
    requires s.mem.Some?
    ensures Read16At(s, a).s.pc == s.pc
    ensures Accesses(Read16At(s, a).s.trace) == Accesses(s.trace) + [Read(a), Read(a + 1)]
  {
    var hi := ReadMem(s, a);
    ReadAccess(s, a);
    ReadAccess(hi.s, a + 1);
  }

  /** The HL reads give the byte at the old HL. */
  lemma ReadHLValue(s: State, delta: Word)
    ensures ReadHL(s, delta).v == ReadMem(s, Reg16Of(s, HL)).v
  {
  }

  /** The HL reads move HL by delta, wrapping. */
  lemma ReadHLMoves(s: State, delta: Word)
    ensures Reg16Of(ReadHL(s, delta).s, HL) == Reg16Of(s, HL) + delta
  {
    ReadHLState(s, delta);
    PairRoundTrip(ReadMem(s, Reg16Of(s, HL)).s, HL, Reg16Of(s, HL) + delta);
  }

  lemma ReadHLState(s: State, delta: Word)
    ensures ReadHL(s, delta).s == WithReg16(ReadMem(s, Reg16Of(s, HL)).s, HL, Reg16Of(s, HL) + delta)
  {
  }

  /** The HL reads make one bus access, at the old HL. */
  lemma ReadHLAccess(s: State, delta: Word)
    ensures Accesses(ReadHL(s, delta).s.trace) ==
      Accesses(s.trace) + (if s.mem.Some? then [Read(Reg16Of(s, HL))] else [])
  {
    ReadAccess(s, Reg16Of(s, HL));
  }

  /** The HL writes: the byte stored at the old HL. */
  lemma WriteHLStores(s: State, delta: Word, v: Byte)
    ensures WriteHL(s, delta, v).mem == WriteMem(s, Reg16Of(s, HL), v).mem
  {
  }

  /** The HL writes move HL by delta, wrapping. */
  lemma WriteHLMoves(s: State, delta: Word, v: Byte)
    ensures Reg16Of(WriteHL(s, delta, v), HL) == Reg16Of(s, HL) + delta
  {
    WriteHLState(s, delta, v);
    PairRoundTrip(WriteMem(s, Reg16Of(s, HL), v), HL, Reg16Of(s, HL) + delta);
  }

  lemma WriteHLState(s: State, delta: Word, v: Byte)
    ensures WriteHL(s, delta, v) == WithReg16(WriteMem(s, Reg16Of(s, HL), v), HL, Reg16Of(s, HL) + delta)
  {
  }

  /** opHigh: the address 0xFF00 + v, i.e. v in the low byte of page 0xFF. */
  lemma HighPage(s: State, src: Src)
    ensures EvalSrc16(s, OpHigh(src)).v == CombineBytes(0xFF, EvalSrc(s, src).v)
  {
  }

  /**
   * opWrite16 then opRead16 at the same address gives the value back: both
   * put the high byte at the lower address.
   */
  lemma Write16ThenRead16Ops(s: State, a: Word, v: Word)
    requires s.mem.Some?
    ensures Read16At(Write16At(s, a, v), a).v == v
  {
    var w1 := WriteMem(s, a, Hi(v));
    var w2 := WriteMem(w1, a + 1, Lo(v));
    WriteKeepsOthers(w1, a + 1, a, Lo(v));
    WriteThenRead(s, a, Hi(v));
    WriteThenRead(w1, a + 1, Lo(v));
    var hi := ReadMem(w2, a);
    assert hi.v == Hi(v);
    assert ReadMem(hi.s, a + 1).v == ReadMem(w2, a + 1).v;
    SplitHiLo(v);
  }

  /** opWrite16 puts the high byte at the address. */
  lemma Write16AtHighFirst(s: State, a: Word, v: Word)
    requires s.mem.Some?
    ensures Write16At(s, a, v).mem.value[a as int] == Hi(v)
  {
    WordToIntInjective(a, a + 1);
    var w1 := WriteMem(s, a, Hi(v));
    WriteValue(s, a, Hi(v));
    WriteValue(w1, a + 1, Lo(v));
    StoreRead(s.mem.value, a as int, a as int, Hi(v));
    StoreRead(w1.mem.value, (a + 1) as int, a as int, Lo(v));
  }

  /** writeMemory16 of the same package puts the low byte there instead. */
  lemma WriteMem16LowFirst(s: State, a: Word, v: Word)
    requires s.mem.Some?
    ensures WriteMem16(s, a, v).mem.value[a as int] == Lo(v)
  {
    WordToIntInjective(a, a + 1);
    var m1 := WriteMem(s, a, Lo(v));
    WriteValue(s, a, Lo(v));
    WriteValue(m1, a + 1, Hi(v));
    StoreRead(s.mem.value, a as int, a as int, Lo(v));
    StoreRead(m1.mem.value, (a + 1) as int, a as int, Hi(v));
  }

  /** The flag sources: a flag, its negation, and the constant true. */
  lemma FlagSources(s: State, f: Flag, v: bool)
    ensures EvalFlag(WithFlag(s, f, v), OpFlag(f)) == v
    ensures EvalFlag(WithFlag(s, f, v), OpNotFlag(f)) == !v
    ensures EvalFlag(s, OpNotFlag(f)) != EvalFlag(s, OpFlag(f))
  {
    FlagRoundTrip(s, f, v);
  }

  /** opSAdd's value is Go's uint16(int32(a) + int32(int8(b))): a plus the signed offset, modulo 2^16. */
  lemma SAddValue(s: State, a: Word, b: Byte)
    ensures b < 0x80 ==> SAdd(s, a, b).v == a + b as Word
    ensures b >= 0x80 ==> SAdd(s, a, b).v == a - (0x100 - b as Word)
  {
    assert SAdd(s, a, b).v == a + GbAlu.SignExtend(b);
    if b >= 0x80 {
      GbAlu.SignedAddNegative(a, b);
    } else {
      assert GbAlu.SignExtend(b) == b as Word;
    }
  }

  /**
   * opSAdd clears Z and N, sets H when b's low nibble exceeds a's (the
   * nibble difference wraps in uint8), and sets C when the signed sum
   * a + int8(b) exceeds 0xFF.
   */
  lemma SAddSetsFlags(s: State, a: Word, b: Byte)
    ensures !FlagOf(SAdd(s, a, b).s, FlagZ) && !FlagOf(SAdd(s, a, b).s, FlagN)
    ensures FlagOf(SAdd(s, a, b).s, FlagH) <==> (b & 0xF) > (Lo(a) & 0xF)
    ensures FlagOf(SAdd(s, a, b).s, FlagC) <==> a as int + Signed(b) > 0xFF
  {
    var fl := SAddFlagsAsWritten(a, b);
    SAddAsWrittenFlags(a, b);
    var t1 := WithFlag(s, FlagZ, false);
    var t2 := WithFlag(t1, FlagN, false);
    var t3 := WithFlag(t2, FlagH, fl.h);
    FlagRoundTrip(s, FlagZ, false);
    FlagRoundTrip(t1, FlagN, false);
    FlagRoundTrip(t2, FlagH, fl.h);
    FlagRoundTrip(t3, FlagC, fl.c);
  }

  /** The corrected flags are those of the monolithic generation's opSignedAdd. */
  lemma SAddFlagsMatchMonolithic(a: Word, b: Byte)
    ensures SAddFlags(a, b).h == GbAlu.OpSignedAdd(a, b).flags.h
    ensures SAddFlags(a, b).c == GbAlu.OpSignedAdd(a, b).flags.c
  {
  }

  /**
   * As written, H is the borrow of the nibble subtraction, not the carry
   * of the addition, and C is set for every a >= 0x180 whatever the
   * offset, since the signed 32-bit sum then exceeds 0xFF.
   */
  lemma SAddAsWrittenFlags(a: Word, b: Byte)
    ensures SAddFlagsAsWritten(a, b).h <==> (b & 0xF) > (Lo(a) & 0xF)
    ensures a >= 0x180 ==> SAddFlagsAsWritten(a, b).c
  {
  }

  /** Inputs on which the flags as written differ from the add's carries. */
  lemma SAddAsWrittenDiffers()
    ensures !SAddFlagsAsWritten(0x000F, 0x01).h && SAddFlags(0x000F, 0x01).h
    ensures SAddFlagsAsWritten(0x0100, 0x00).c && !SAddFlags(0x0100, 0x00).c
  {
  }

  // ---------------------------------------------------------------------
  // Properties of the table.

  /** The register the LD block's 3-bit code names: B, C, D, E, H, L, -, A. */
  function BlockReg(i: nat): Reg
    requires i < 8 && i != 6
  {
    if i == 7 then A else i
  }

  function BlockSrc(i: nat): Src
    requires i < 8
  {
    if i == 6 then OpRead(OpLoad16(HL)) else OpLoad(BlockReg(i))
  }

  function BlockDst(i: nat): Dst
    requires i < 8
  {
    if i == 6 then OpWrite(OpLoad16(HL)) else OpStore(BlockReg(i))
  }

  /**
   * 0x40-0x7F, except 0x76, is LD dst, src with dst coded in bits 3-5 and
   * src in bits 0-2, in the order B, C, D, E, H, L, (HL), A.
   */
  lemma LdBlock(op: nat)
    requires 0x40 <= op < 0x80 && op != 0x76
    ensures Table(op) == Some(LD(BlockDst((op - 0x40) / 8), BlockSrc(op % 8)))
  {
  }

  /** HALT (0x76) and every 0xCB-prefixed opcode have no entry; all entries are unprefixed. */
  lemma Unimplemented(op: nat)
    ensures Table(0x76) == None
    ensures 0x100 <= op ==> Table(op) == None
    ensures Table(op).Some? ==> op < 0x100
  {
  }

  /** LD r, r' copies the register without touching memory or the clock. */
  lemma LdRegisterCopy(s: State, op: nat)
    requires 0x40 <= op < 0x80 && op != 0x76 && op % 8 != 6 && (op - 0x40) / 8 != 6
    ensures ExecLD(s, Table(op).value) ==
      WithReg(s, BlockReg((op - 0x40) / 8), RegOf(s, BlockReg(op % 8)))
  {
    LdBlock(op);
  }

  // ---------------------------------------------------------------------
  // Properties of Step.

  /** Fetching costs one cycle per opcode byte and hands nothing to interrupt handling. */
  lemma FetchCharges(s: State)
    ensures FetchOpcode(s).s.clocks == s.clocks + (if FetchOpcode(s).op >= 0x100 then 8 else 4)
    ensures Handled(FetchOpcode(s).s.trace) == Handled(s.trace)
  {
    var o := PopPC(s);
    PopCharges(s);
    PopNotHandled(s);
    FetchSteps(s, o);
    if o.v == 0xCB {
      PopCharges(o.s);
      PopNotHandled(o.s);
    }
  }

  /** Popping a byte at PC is one machine cycle. */
  lemma PopCharges(s: State)
    ensures PopPC(s).s.clocks == s.clocks + 4
  {
  }

  lemma PopNotHandled(s: State)
    ensures Handled(PopPC(s).s.trace) == Handled(s.trace)
  {
    var t := UpdateTimers(s.timer);
    var c := Cycle(s);
    if t.interrupt {
      HandledAppend(s.trace, [RequestInterrupt(InterruptTimer)]);
      assert Handled([RequestInterrupt(InterruptTimer)]) == 0;
    }
    if s.mem.Some? {
      HandledAppend(c.trace, [Read(s.pc)]);
      assert Handled([Read(s.pc)]) == 0;
    }
  }

  /** Counting distributes over appending. */
  lemma {:induction false} HandledAppend(t: seq<Event>, u: seq<Event>)
    ensures Handled(t + u) == Handled(t) + Handled(u)
    decreases |u|
  {
    if u == [] {
      assert t + u == t;
    } else {
      var u' := u[..|u| - 1];
      assert (t + u)[..|t + u| - 1] == t + u';
      assert (t + u)[|t + u| - 1] == u[|u| - 1];
      HandledAppend(t, u');
    }
  }

  /**
   * A halted CPU spends exactly one machine cycle: 4 clocks, no fetch,
   * registers, PC and memory unchanged, then interrupts are handled.
   */
  lemma StepHalted(s: State)
    requires s.halt
    ensures StepState(s).Stepped?
    ensures var t := StepState(s).s;
      t.clocks == 4 && t.rg == s.rg && t.pc == s.pc && t.mem == s.mem
      && t.trace[|t.trace| - 1] == HandleInterrupts(s.ime)
  {
  }

  /**
   * A completed step hands interrupt handling the IME value sampled before
   * the instruction ran, as its last act; an opcode without an entry
   * returns its error before any interrupt handling, having charged only
   * the fetch.
   */
  lemma StepInterruptsAndErrors(s: State)
    ensures StepState(s).Stepped? ==>
      StepState(s).s.trace[|StepState(s).s.trace| - 1] == HandleInterrupts(s.ime)
    ensures StepState(s).InvalidOpcode? ==>
      && Table(StepState(s).op) == None
      && Handled(StepState(s).s.trace) == Handled(s.trace)
      && StepState(s).s.clocks == (if StepState(s).op >= 0x100 then 8 else 4)
  {
    if !s.halt {
      FetchCharges(s.(clocks := 0));
    }
  }

  /** A completed step of a running CPU costs 4 clocks for the opcode plus 4 per bus access of the load. */
  lemma StepClocks(s: State)
    requires !s.halt
    ensures var f := FetchOpcode(s.(clocks := 0));
      Table(f.op).Some? ==>
        && StepState(s).Stepped?
        && StepState(s).s.clocks == 4 + 4 * (SrcCycles(Table(f.op).value.src) + DstCycles(Table(f.op).value.dst))
  {
    var f := FetchOpcode(s.(clocks := 0));
    FetchCharges(s.(clocks := 0));
    if Table(f.op).Some? {
      Unimplemented(f.op);
      var ins := Table(f.op).value;
      var o := EvalSrc(f.s, ins.src);
      SrcClocks(f.s, ins.src);
      DstClocks(o.s, ins.dst, o.v);
    }
  }

  /** Every step, completed or not, costs a whole number of machine cycles and at least one. */
  lemma StepCharges(s: State)
    ensures StepState(s).s.clocks >= 4 && StepState(s).s.clocks % 4 == 0
  {
    var out := StepState(s);
    if s.halt {
      StepHalted(s);
    } else if out.Stepped? {
      StepRunningCharges(s);
    } else {
      StepInterruptsAndErrors(s);
      assert out.s.clocks == 4 || out.s.clocks == 8;
    }
  }

  /** A completed step of a running CPU costs a whole number of machine cycles and at least one. */
  lemma StepRunningCharges(s: State)
    requires !s.halt && StepState(s).Stepped?
    ensures StepState(s).s.clocks >= 4 && StepState(s).s.clocks % 4 == 0
  {
    var f := FetchOpcode(s.(clocks := 0));
    StepRunning(s, s.(clocks := 0), f);
    StepClocks(s);
    var k := SrcCycles(Table(f.op).value.src) + DstCycles(Table(f.op).value.dst);
    WholeCycles(StepState(s).s.clocks, k);
  }

  lemma WholeCycles(c: int, k: nat)
    requires c == 4 + 4 * k
    ensures c >= 4 && c % 4 == 0
  {
  }

  /** The instruction timings that follow: LD r, r' 4 clocks, LD r, (HL) 8, LDH (a8), A 12, LD A, (a16) 16. */
  lemma LoadTimings()
    ensures 4 + 4 * (SrcCycles(OpLoad(B)) + DstCycles(OpStore(C))) == 4
    ensures 4 + 4 * (SrcCycles(OpRead(OpLoad16(HL))) + DstCycles(OpStore(C))) == 8
    ensures 4 + 4 * (SrcCycles(OpLoad(A)) + DstCycles(OpWrite(OpHigh(OpImmediate)))) == 12
    ensures 4 + 4 * (SrcCycles(OpRead(OpImmediate16)) + DstCycles(OpStore(A))) == 16
  {
  }
}
