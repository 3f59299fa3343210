/**
 * The CPU object of the split package (gb/cpu/cpu.go, registers.go,
 * memory.go, timing.go): its register array and fields are updated in
 * place, and every method is proved against the State functions of
 * CpuState and CpuOps through Snapshot().
 *
 * The MMU behind the MemoryIO interface is a flat 64 KiB memory held in
 * the field mem (None for a CPU built without one). The ghost trace
 * records the bus accesses and the calls to RequestInterrupt and
 * handleInterrupts, which the package uses without defining.
 */
module Cpu {
  import opened Bits
  import opened Outcomes
  import opened CpuTiming
  import opened CpuState
  import opened CpuOps

  class CPU {
    const rg: array<Byte>
    var mem: Option<Ram>
    var sp: Word
    var pc: Word
    var halt: bool
    var ime: bool
    var ic: Word
    var tima: Byte
    var tma: Byte
    var tac: Byte
    var of: bool
    var clocks: int
    ghost var trace: seq<Event>

    ghost predicate Valid()
      reads this
    {
      rg.Length == 8
    }

    /** The fields as a State value. */
    ghost function Snapshot(): State
      requires Valid()
      reads this, rg
    {
      State(rg[..], sp, pc, halt, ime, Timer(ic, tima, tma, tac, of), clocks,
            mem, trace)
    }

    /** NewCPU: zeroed registers and timer, attached to m (or to nothing). */
    constructor(m: Option<Ram>)
      ensures Valid() && fresh(rg)
      ensures Snapshot() == Initial(m)
    {
      rg := new Byte[8](_ => 0);
      mem := m;
      sp, pc := 0, 0;
      halt, ime := false, false;
      ic, tima, tma, tac, of := 0, 0, 0, 0, false;
      clocks := 0;
      trace := [];
      new;
      assert rg[..] == [0, 0, 0, 0, 0, 0, 0, 0];
    }

    // -------------------------------------------------------------------
    // Registers (registers.go).

    method GetRegister(r: Reg) returns (v: Byte)
      requires Valid()
      ensures v == RegOf(Snapshot(), r)
    {
      v := rg[r];
    }

    method SetRegister(r: Reg, v: Byte)
      requires Valid()
      modifies rg
      ensures Valid() && Snapshot() == WithReg(old(Snapshot()), r, v)
    {
      var w := v;
      if r == F {
        w := w & 0xF0;
      }
      rg[r] := w;
    }

    method GetRegister16(rr: Reg16) returns (v: Word)
      requires Valid()
      ensures v == Reg16Of(Snapshot(), rr)
    {
      v := CombineBytes(rg[rr], rg[rr + 1]);
    }

    method SetRegister16(rr: Reg16, v: Word)
      requires Valid()
      modifies rg
      ensures Valid() && Snapshot() == WithReg16(old(Snapshot()), rr, v)
    {
      var w := v;
      if rr == AF {
        w := w & 0xFFF0;
      }
      var halves := SplitShort(w);
      rg[rr], rg[rr + 1] := halves.0, halves.1;
    }

    method GetFlag(f: Flag) returns (b: bool)
      requires Valid()
      ensures b == FlagOf(Snapshot(), f)
    {
      b := GetBit(rg[F], f);
    }

    method SetFlag(f: Flag, b: bool)
      requires Valid()
      modifies rg
      ensures Valid() && Snapshot() == WithFlag(old(Snapshot()), f, b)
    {
      rg[F] := SetBit(rg[F], f, b);
    }

    method GetPC() returns (v: Word)
      ensures v == pc
    {
      v := pc;
    }

    method SetPC(v: Word)
      requires Valid()
      modifies this`pc
      ensures Valid() && Snapshot() == old(Snapshot()).(pc := v)
    {
      pc := v;
    }

    method GetSP() returns (v: Word)
      ensures v == sp
    {
      v := sp;
    }

    method SetSP(v: Word)
      requires Valid()
      modifies this`sp
      ensures Valid() && Snapshot() == old(Snapshot()).(sp := v)
    {
      sp := v;
    }

    /** setIME (interrupts.go). */
    method SetIME(v: bool)
      requires Valid()
      modifies this`ime
      ensures Valid() && Snapshot() == old(Snapshot()).(ime := v)
    {
      ime := v;
    }

    // -------------------------------------------------------------------
    // Machine cycles and the timer (timing.go).

    /** Not defined in the package: the request is recorded. */
    method RequestInterrupt(i: nat)
      modifies this`trace
      ensures trace == old(trace) + [Event.RequestInterrupt(i)]
    {
      trace := trace + [Event.RequestInterrupt(i)];
    }

    /** The timer fields as a Timer value. */
    ghost function TimerOf(): Timer
      reads this
    {
      Timer(ic, tima, tma, tac, of)
    }

    method UpdateTimers()
      modifies this`ic, this`tima, this`of, this`trace
      ensures TimerOf() == CpuTiming.UpdateTimers(old(TimerOf())).timer
      ensures trace == if GetBit(tac, 2) && old(of)
        then old(trace) + [Event.RequestInterrupt(InterruptTimer)] else old(trace)
    {
      ghost var t0 := TimerOf();
      ic := ic + 4;
      if !GetBit(tac, 2) {
        TimerDisabled(t0);
        return;
      }
      var divisor := Divisor(tac);
      ServeOverflow();
      ghost var served := TimerOf();
      CountEdge(divisor);
      EnabledSteps(t0, served, TimerOf());
    }

    /** The overflow check of updateTimers: TIMA is reloaded and the interrupt requested. */
    method ServeOverflow()
      modifies this`tima, this`of, this`trace
      ensures TimerOf() == Reload(old(TimerOf()))
      ensures trace == if old(of) then old(trace) + [Event.RequestInterrupt(InterruptTimer)] else old(trace)
    {
      if of {
        tima := tma;
        RequestInterrupt(InterruptTimer);
        of := false;
      }
    }

    /** The falling-edge check of updateTimers, with the divisor bit it chose. */
    method CountEdge(divisor: nat)
      requires divisor == Divisor(tac)
      modifies this`tima, this`of
      ensures TimerOf() == Edge(old(TimerOf()))
    {
      ghost var t := TimerOf();
      var falling := GetBit16(ic - 4, divisor) && !GetBit16(ic, divisor);
      EdgeWhen(t, falling);
      if falling {
        tima := tima + 1;
        if tima == 0 {
          of := true;
        }
        IncrementFields(t);
      }
    }

    method IncrementMCycle()
      requires Valid()
      modifies this`clocks, this`ic, this`tima, this`of, this`trace
      ensures Valid() && Snapshot() == Cycle(old(Snapshot()))
    {
      ghost var s1 := Snapshot().(clocks := clocks + 4);
      clocks := clocks + 4;
      UpdateTimers();
      InterruptWhen(s1.timer);
      TimerUpdateShape(s1, CpuTiming.UpdateTimers(s1.timer));
    }

    method DIV() returns (v: Byte)
      requires Valid()
      ensures v == DivOf(Snapshot())
    {
      v := (ic >> 8) as Byte;
    }

    method SetDIV(v: Byte)
      requires Valid()
      modifies this`ic
      ensures Valid() && Snapshot() == WithDiv(old(Snapshot()), v)
    {
      ic := ((v as Word) << 8) | (ic & 0x0F);
    }

    method TIMA() returns (v: Byte)
      ensures v == tima
    {
      v := tima;
    }

    method TMA() returns (v: Byte)
      ensures v == tma
    {
      v := tma;
    }

    method TAC() returns (v: Byte)
      ensures v == tac
    {
      v := tac;
    }

    method SetTIMA(v: Byte)
      requires Valid()
      modifies this`tima
      ensures Valid() && Snapshot() == WithTima(old(Snapshot()), v)
    {
      tima := v;
    }

    method SetTMA(v: Byte)
      requires Valid()
      modifies this`tma
      ensures Valid() && Snapshot() == WithTma(old(Snapshot()), v)
    {
      tma := v;
    }

    method SetTAC(v: Byte)
      requires Valid()
      modifies this`tac
      ensures Valid() && Snapshot() == WithTac(old(Snapshot()), v)
    {
      tac := v & 0x07;
    }

    // -------------------------------------------------------------------
    // Bus accesses (memory.go).

    method ReadMemory(addr: Word) returns (v: Byte)
      requires Valid()
      modifies this`clocks, this`ic, this`tima, this`of, this`trace
      ensures Valid() && Out(Snapshot(), v) == ReadMem(old(Snapshot()), addr)
    {
      IncrementMCycle();
      if mem.Some? {
        v := mem.value[addr as int];
        trace := trace + [Read(addr)];
      } else {
        v := 0;
      }
    }

    method WriteMemory(addr: Word, v: Byte)
      requires Valid()
      modifies this`clocks, this`ic, this`tima, this`of, this`trace, this`mem
      ensures Valid() && Snapshot() == WriteMem(old(Snapshot()), addr, v)
    {
      IncrementMCycle();
      ghost var c := Snapshot();
      if mem.Some? {
        mem := Some(Store(mem.value, addr as int, v));
        trace := trace + [Write(addr, v)];
        assert Snapshot() == c.(mem := Some(Store(c.mem.value, addr as int, v)), trace := c.trace + [Write(addr, v)]);
        WriteMemSteps(old(Snapshot()), c, addr, v);
      }
    }

    method ReadMemory16(addr: Word) returns (v: Word)
      requires Valid()
      modifies this`clocks, this`ic, this`tima, this`of, this`trace
      ensures Valid() && Out16(Snapshot(), v) == ReadMem16(old(Snapshot()), addr)
    {
      var hi := ReadMemory(addr + 1);
      var lo := ReadMemory(addr);
      v := CombineBytes(hi, lo);
    }

    method WriteMemory16(addr: Word, v: Word)
      requires Valid()
      modifies this`clocks, this`ic, this`tima, this`of, this`trace, this`mem
      ensures Valid() && Snapshot() == WriteMem16(old(Snapshot()), addr, v)
    {
      var halves := SplitShort(v);
      WriteMemory(addr, halves.1);
      WriteMemory(addr + 1, halves.0);
    }
    // -------------------------------------------------------------------
    // Micro-ops (micro_ops.go), run against this CPU as its InstructionIO.

    /** opImmediate. */
    method Immediate() returns (v: Byte)
      requires Valid()
      modifies this
      ensures Valid() && Out(Snapshot(), v) == CpuOps.Immediate(old(Snapshot()))
    {
      ghost var s0 := Snapshot();
      var p := GetPC();
      v := ReadMemory(p);
      ghost var read := Out(Snapshot(), v);
      SetPC(p + 1);
      ImmediateSteps(s0, read);
    }

    /** opImmediate16: the byte at PC is the high one. */
    method Immediate16() returns (v: Word)
      requires Valid()
      modifies this
      ensures Valid() && Out16(Snapshot(), v) == CpuOps.Immediate16(old(Snapshot()))
    {
      var p := GetPC();
      v := Read16At(p);
      SetPC(p + 2);
    }

    /** opReadHLI (delta 1) and opReadHLD (delta 0xFFFF). */
    method ReadHL(delta: Word) returns (v: Byte)
      requires Valid()
      modifies this, rg
      ensures Valid() && Out(Snapshot(), v) == CpuOps.ReadHL(old(Snapshot()), delta)
    {
      var hl := GetRegister16(HL);
      v := ReadMemory(hl);
      SetRegister16(HL, hl + delta);
    }

    /** opWriteHLI (delta 1) and opWriteHLD (delta 0xFFFF). */
    method WriteHL(delta: Word, v: Byte)
      requires Valid()
      modifies this, rg
      ensures Valid() && Snapshot() == CpuOps.WriteHL(old(Snapshot()), delta, v)
    {
      var hl := GetRegister16(HL);
      WriteMemory(hl, v);
      SetRegister16(HL, hl + delta);
    }

    /** The body of opRead16 once the address is known: the byte at a is the high one. */
    method Read16At(a: Word) returns (v: Word)
      requires Valid()
      modifies this
      ensures Valid() && Out16(Snapshot(), v) == CpuOps.Read16At(old(Snapshot()), a)
    {
      var hi := ReadMemory(a);
      var lo := ReadMemory(a + 1);
      v := CombineBytes(hi, lo);
    }

    /** The body of opWrite16 once the address is known: the high byte goes to a. */
    method Write16At(a: Word, v: Word)
      requires Valid()
      modifies this
      ensures Valid() && Snapshot() == CpuOps.Write16At(old(Snapshot()), a, v)
    {
      var halves := SplitShort(v);
      WriteMemory(a, halves.0);
      WriteMemory(a + 1, halves.1);
    }

    /**
     * The body of opSAdd once both operands are known, with H and C as
     * written: the uint8 nibble difference above 0xF, and the signed
     * 32-bit sum above 0xFF.
     */
    method SAdd(a: Word, b: Byte) returns (r: Word)
      requires Valid()
      modifies rg
      ensures Valid() && Out16(Snapshot(), r) == CpuOps.SAdd(old(Snapshot()), a, b)
    {
      var sum: int := a as int + CpuOps.Signed(b);
      SetFlag(FlagZ, false);
      SetFlag(FlagN, false);
      SetFlag(FlagH, (Lo(a) & 0xF) - (b & 0xF) > 0xF);
      SetFlag(FlagC, sum > 0xFF);
      r := a + GbAlu.SignExtend(b);
    }

    method EvalSrc(src: Src) returns (v: Byte)
      requires Valid()
      modifies this, rg
      ensures Valid() && Out(Snapshot(), v) == CpuOps.EvalSrc(old(Snapshot()), src)
      decreases src
    {
      match src
      case OpLoad(r) =>
        v := GetRegister(r);
      case OpImmediate =>
        v := Immediate();
      case OpRead(addr) =>
        var a := EvalSrc16(addr);
        v := ReadMemory(a);
      case OpReadHLI =>
        v := ReadHL(1);
      case OpReadHLD =>
        v := ReadHL(0xFFFF);
    }

    method EvalSrc16(src: Src16) returns (v: Word)
      requires Valid()
      modifies this, rg
      ensures Valid() && Out16(Snapshot(), v) == CpuOps.EvalSrc16(old(Snapshot()), src)
      decreases src
    {
      match src
      case OpLoad16(rr) =>
        v := GetRegister16(rr);
      case OpImmediate16 =>
        v := Immediate16();
      case OpPC =>
        v := GetPC();
      case OpSP =>
        v := GetSP();
      case OpHigh(b) =>
        var x := EvalSrc(b);
        v := 0xFF00 + x as Word;
      case OpRead16(addr) =>
        var a := EvalSrc16(addr);
        v := Read16At(a);
      case OpSAdd(x, y) =>
        var a := EvalSrc16(x);
        var b := EvalSrc(y);
        v := SAdd(a, b);
    }

    method EvalDst(dst: Dst, v: Byte)
      requires Valid()
      modifies this, rg
      ensures Valid() && Snapshot() == CpuOps.EvalDst(old(Snapshot()), dst, v)
      decreases dst
    {
      match dst
      case OpStore(r) =>
        SetRegister(r, v);
      case OpWrite(addr) =>
        var a := EvalSrc16(addr);
        WriteMemory(a, v);
      case OpWriteHLI =>
        WriteHL(1, v);
      case OpWriteHLD =>
        WriteHL(0xFFFF, v);
    }

    method EvalDst16(dst: Dst16, v: Word)
      requires Valid()
      modifies this, rg
      ensures Valid() && Snapshot() == CpuOps.EvalDst16(old(Snapshot()), dst, v)
    {
      match dst
      case OpStore16(rr) =>
        SetRegister16(rr, v);
      case OpSetPC =>
        SetPC(v);
      case OpSetSP =>
        SetSP(v);
      case OpWrite16(addr) =>
        var a := EvalSrc16(addr);
        Write16At(a, v);
    }

    method EvalFlag(f: FlagSrc) returns (b: bool)
      requires Valid()
      ensures b == CpuOps.EvalFlag(Snapshot(), f)
    {
      match f
      case OpFlag(g) =>
        b := GetFlag(g);
      case OpNotFlag(g) =>
        b := GetFlag(g);
        b := !b;
      case OpTrue =>
        b := true;
    }

    /** opLD: the source runs, then the destination takes its value. */
    method ExecLD(ins: Instruction)
      requires Valid()
      modifies this, rg
      ensures Valid() && Snapshot() == CpuOps.ExecLD(old(Snapshot()), ins)
    {
      var v := EvalSrc(ins.src);
      EvalDst(ins.dst, v);
    }

    // -------------------------------------------------------------------
    // Step (cpu.go).

    /** Not defined in the package: read as opImmediate reads. */
    method PopPC() returns (v: Byte)
      requires Valid()
      modifies this
      ensures Valid() && Out(Snapshot(), v) == CpuOps.PopPC(old(Snapshot()))
    {
      v := Immediate();
    }

    /** Not defined in the package: the call is recorded. */
    method HandleInterrupts(sampled: bool)
      requires Valid()
      modifies this`trace
      ensures Valid() && Snapshot() == HandleInterruptsCall(old(Snapshot()), sampled)
    {
      trace := trace + [Event.HandleInterrupts(sampled)];
    }

    /** The opcode fetch at the start of Step: 0xCB is followed by a second byte, offset by 0x100. */
    method Fetch() returns (code: nat)
      requires Valid()
      modifies this
      ensures Valid() && Fetched(Snapshot(), code) == FetchOpcode(old(Snapshot()))
    {
      ghost var s0 := Snapshot();
      var op := PopPC();
      ghost var first := Out(Snapshot(), op);
      code := op as nat;
      if op == 0xCB {
        op := PopPC();
        code := op as nat + 0x100;
      }
      FetchSteps(s0, first);
    }

    /**
     * Step: the clocks the step used, and the opcode without an entry when
     * there was one (Go returns an error for it).
     */
    method Step() returns (used: int, invalid: Option<nat>)
      requires Valid()
      modifies this, rg
      ensures Valid()
      ensures match StepState(old(Snapshot()))
        case Stepped(r) => Snapshot() == r && invalid == None
        case InvalidOpcode(r, op) => Snapshot() == r && invalid == Some(op)
      ensures used == clocks
    {
      ghost var s0 := Snapshot();
      clocks := 0;
      ghost var start := Snapshot();
      var sampled := ime;
      if !halt {
        var code := Fetch();
        ghost var f := Fetched(Snapshot(), code);
        StepRunning(s0, start, f);
        var entry := Table(code);
        if entry.None? {
          return clocks, Some(code);
        }
        ExecLD(entry.value);
      } else {
        IncrementMCycle();
      }
      HandleInterrupts(sampled);
      return clocks, None;
    }
  }
}
