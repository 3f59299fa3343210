/**
 * The monolithic CPU (gb/cpu.go, gb/interrupts.go, gb/timers.go) as the
 * object the source has: the register fields are updated in place, IncPC
 * and the stack operations move PC and SP, handleInterrupts runs its loop
 * over bits 0-4 and updateTimers its loop of 4-clock sub-steps. Every
 * method is proved to leave the machine that the functions of GbMachine
 * compute, so the properties proved there hold of this object.
 *
 * The memory the CPU reaches through c.gb.mem is held as the value bus
 * (the Bus of GbMemoryMap, which also carries the internal counter IC that
 * DIV exposes); the instruction closures of gb/instructions.go are the
 * functions of GbMachine.
 */
module GbCpu {
  import opened Bits
  import opened Outcomes
  import opened GbIsa
  import opened GbMemoryMap
  import opened GbMachine

  /** NewCPU's internal counter. */
  const InitialIC: Word := 0xABCC

  class CPU {
    var b: Byte
    var c: Byte
    var d: Byte
    var e: Byte
    var h: Byte
    var l: Byte
    var a: Byte
    var f: Byte
    var sp: Word
    var pc: Word
    var ime: bool
    var halt: bool
    var haltBug: bool
    var of: bool  // a TIMA overflow waiting for its reload
    var bus: Bus

    ghost predicate Valid()
      reads this
    {
      bus.Valid()
    }

    /** The register fields as a value. */
    function Registers(): Regs
      reads this
    {
      Regs(b, c, d, e, h, l, a, f, sp, pc, ime, halt, haltBug, of)
    }

    /** The registers together with the memory the CPU sees. */
    function Current(): Machine
      reads this
    {
      Machine(Registers(), bus)
    }

    /** NewCPU: every register zero, IME, halt and the halt bug clear, IC at 0xABCC. */
    constructor(mem: Bus)
      requires mem.Valid()
      ensures Valid()
      ensures Current() == Machine(Regs(0, 0, 0, 0, 0, 0, 0, 0, 0, 0, false, false, false, false), mem.(ic := InitialIC))
    {
      b, c, d, e, h, l, a, f := 0, 0, 0, 0, 0, 0, 0, 0;
      sp, pc := 0, 0;
      ime, halt, haltBug, of := false, false, false, false;
      bus := mem.(ic := InitialIC);
    }

    // -------------------------------------------------------------------
    // Registers.

    /** B(), C(), D(), E(), H(), L() and A(). */
    method Get(x: Reg8) returns (v: Byte)
      ensures v == Get8(Registers(), x)
    {
      match x
      case B => v := b;
      case C => v := c;
      case D => v := d;
      case E => v := e;
      case H => v := h;
      case L => v := l;
      case A => v := a;
    }

    /** SetB: only B changes. */
    method SetB(v: Byte)
      modifies this`b
      ensures Registers() == Set8(old(Registers()), B, v)
    {
      b := v;
    }

    /** SetC: only C changes. */
    method SetC(v: Byte)
      modifies this`c
      ensures Registers() == Set8(old(Registers()), C, v)
    {
      c := v;
    }

    /** SetD: only D changes. */
    method SetD(v: Byte)
      modifies this`d
      ensures Registers() == Set8(old(Registers()), D, v)
    {
      d := v;
    }

    /** SetE: only E changes. */
    method SetE(v: Byte)
      modifies this`e
      ensures Registers() == Set8(old(Registers()), E, v)
    {
      e := v;
    }

    /** SetH: only H changes. */
    method SetH(v: Byte)
      modifies this`h
      ensures Registers() == Set8(old(Registers()), H, v)
    {
      h := v;
    }

    /** SetL: only L changes. */
    method SetL(v: Byte)
      modifies this`l
      ensures Registers() == Set8(old(Registers()), L, v)
    {
      l := v;
    }

    /** SetA: only A changes. */
    method SetA(v: Byte)
      modifies this`a
      ensures Registers() == Set8(old(Registers()), A, v)
    {
      a := v;
    }

    /** SetF: the low nibble of F is forced to 0. */
    method SetF(v: Byte)
      modifies this`f
      ensures f == MaskF(v)
    {
      f := v & 0xF0;
    }

    /** BC(), DE(), HL(), SP() and AF(). */
    method Pair(p: GbIsa.Pair) returns (v: Word)
      ensures v == GetPair(Registers(), p)
    {
      match p
      case BC => v := CombineBytes(b, c);
      case DE => v := CombineBytes(d, e);
      case HL => v := CombineBytes(h, l);
      case SP => v := sp;
      case AF => v := CombineBytes(a, f);
    }

    /** SetBC: B takes the high byte, C the low one. */
    method SetBC(v: Word)
      modifies this`b, this`c
      ensures Registers() == GbMachine.SetPair(old(Registers()), BC, v)
    {
      b, c := Hi(v), Lo(v);
    }

    /** SetDE: D takes the high byte, E the low one. */
    method SetDE(v: Word)
      modifies this`d, this`e
      ensures Registers() == GbMachine.SetPair(old(Registers()), DE, v)
    {
      d, e := Hi(v), Lo(v);
    }

    /** SetHL: H takes the high byte, L the low one. */
    method SetHL(v: Word)
      modifies this`h, this`l
      ensures Registers() == GbMachine.SetPair(old(Registers()), HL, v)
    {
      h, l := Hi(v), Lo(v);
    }

    /** SetAF: the low nibble of F is dropped. */
    method SetAF(v: Word)
      modifies this`a, this`f
      ensures Registers() == GbMachine.SetPair(old(Registers()), AF, v)
    {
      a, f := Hi(v & 0xFFF0), Lo(v & 0xFFF0);
    }

    /** SetSP stores the value unchanged. */
    method SetSP(v: Word)
      modifies this`sp
      ensures Registers() == GbMachine.SetPair(old(Registers()), SP, v)
    {
      sp := v;
    }

    /** FlagZ, FlagN, FlagH and FlagC: bits 7, 6, 5 and 4 of F. */
    method Flag(i: nat) returns (on: bool)
      requires 4 <= i <= 7
      ensures on == GetBit(f, i)
    {
      on := GetBit(f, i);
    }

    /** SetFlagZ, SetFlagN, SetFlagH and SetFlagC: only bit i of F changes. */
    method SetFlag(i: nat, on: bool)
      requires 4 <= i <= 7
      modifies this`f
      ensures f == SetBit(old(f), i, on)
    {
      f := SetBit(f, i, on);
    }

    // -------------------------------------------------------------------
    // Program counter and stack.

    /** IncPC: the byte at PC; PC advances unless the halt bug is armed, which it disarms. */
    method IncPC() returns (res: Result<Byte>)
      requires Valid()
      modifies this`pc, this`haltBug
      ensures Valid()
      ensures GbMachine.IncPC(old(Current())).Ok? ==>
        res == Ok(GbMachine.IncPC(old(Current())).value.0) && Current() == GbMachine.IncPC(old(Current())).value.1
      ensures GbMachine.IncPC(old(Current())).Err? ==>
        res == Err(GbMachine.IncPC(old(Current())).failure) && Current() == old(Current())
    {
      var v := Read(bus, pc);
      if v.Err? {
        return Err(v.failure);
      }
      if !haltBug {
        pc := pc + 1;
      }
      haltBug := false;
      return Ok(v.value);
    }

    /** IncPC16: the first byte fetched is the low byte. */
    method IncPC16() returns (res: Result<Word>)
      requires Valid()
      modifies this`pc, this`haltBug
      ensures Valid()
      ensures GbMachine.IncPC16(old(Current())).Ok? ==>
        res == Ok(GbMachine.IncPC16(old(Current())).value.0) && Current() == GbMachine.IncPC16(old(Current())).value.1
      ensures GbMachine.IncPC16(old(Current())).Err? ==> res == Err(GbMachine.IncPC16(old(Current())).failure)
    {
      var lo := IncPC();
      if lo.Err? {
        return Err(lo.failure);
      }
      var hi := IncPC();
      if hi.Err? {
        return Err(hi.failure);
      }
      return Ok(CombineBytes(hi.value, lo.value));
    }

    /** PushSP: SP drops by 2, then the value is written there. */
    method PushSP(v: Word)
      requires Valid()
      modifies this`sp, this`bus
      ensures Valid()
      ensures Current() == GbMachine.PushSP(old(Current()), v)
    {
      ghost var m0 := Current();
      var nsp := sp - 2;
      var nbus := Write16(bus, nsp, v);
      PushSteps(m0, nsp, nbus, v);
      sp, bus := nsp, nbus;
    }

    /** PopSP: the value at SP, then SP rises by 2. */
    method PopSP() returns (res: Result<Word>)
      requires Valid()
      modifies this`sp
      ensures Valid()
      ensures GbMachine.PopSP(old(Current())).Ok? ==>
        res == Ok(GbMachine.PopSP(old(Current())).value.0) && Current() == GbMachine.PopSP(old(Current())).value.1
      ensures GbMachine.PopSP(old(Current())).Err? ==>
        res == Err(GbMachine.PopSP(old(Current())).failure) && Current() == old(Current())
    {
      var v := Read16(bus, sp);
      PopSteps(Current(), v);
      if v.Err? {
        return Err(v.failure);
      }
      sp := sp + 2;
      return Ok(v.value);
    }

    // -------------------------------------------------------------------
    // Interrupts (gb/interrupts.go).

    /** RequestInterrupt: IF is read, bit i set, and IF written back. */
    method RequestInterrupt(i: nat)
      requires Valid()
      modifies this`bus
      ensures Valid()
      ensures Current() == old(Current()).(bus := GbMachine.RequestInterrupt(old(bus), i))
    {
      var iF := Read(bus, AddrIF).value;
      iF := SetBit(iF, i, true);
      bus := Write(bus, AddrIF, iF);
    }

    /** IF(): the stored byte with bits 5-7 read high. */
    method IF() returns (v: Byte)
      requires Valid()
      ensures v == Read(bus, AddrIF).value
    {
      v := bus.io[IoIndex(AddrIF)] | 0xE0;
    }

    /**
     * handleInterrupts, with the IME value Step sampled: the loop over bits
     * 0-4 dispatches the first one set in IE & IF.
     */
    method HandleInterrupts(ime': bool) returns (cycles: nat)
      requires Valid()
      modifies this
      ensures Valid()
      ensures (cycles, Current()) == GbMachine.HandleInterrupts(old(Current()), ime')
    {
      ghost var m0 := Current();
      var iE := Read(bus, AddrIE).value;
      var iF := Read(bus, AddrIF).value;
      var ief := iE & iF;
      if ief == 0 {
        NoInterruptPending(m0, ime');
        return 0;
      }
      halt := false;
      cycles := DispatchFirst(ief, iF, ime', m0);
    }

    /** The rest of handleInterrupts, on a CPU already out of halt: with IME set, the first of bits 0-4 set in ief is dispatched. */
    method DispatchFirst(ief: Byte, iF: Byte, ime': bool, ghost m0: Machine) returns (cycles: nat)
      requires Valid() && m0.Valid() && Current() == m0.(r := m0.r.(halt := false))
      requires ief == Pending(m0.bus) && ief != 0 && iF == Read(bus, AddrIF).value
      modifies this
      ensures Valid()
      ensures (cycles, Current()) == GbMachine.HandleInterrupts(m0, ime')
    {
      if !ime' {
        PendingWithoutIme(m0);
        return 0;
      }
      var i := 0;
      while i < 5
        invariant 0 <= i <= 5
        invariant LowestPending(ief, 0) == LowestPending(ief, i)
      {
        if GetBit(ief, i) {
          DispatchFound(m0, i);
          Dispatch(i, iF);
          return 20;
        }
        i := i + 1;
      }
      DispatchNone(m0);
      return 0;
    }

    /** The body of handleInterrupts' loop for the bit it found: acknowledge, push PC, jump. */
    method Dispatch(i: nat, iF: Byte)
      requires Valid() && i < 5 && iF == Read(bus, AddrIF).value
      modifies this
      ensures Valid()
      ensures Current() == Acknowledge(old(Current()), i).(r := Acknowledge(old(Current()), i).r.(pc := Vector(i)))
    {
      ime := false;
      bus := Write(bus, AddrIF, SetBit(iF, i, false));
      PushSP(pc);
      pc := 0x0040 + (i as Word) * 0x08;
    }

    // -------------------------------------------------------------------
    // The timer (gb/timers.go).

    /**
     * updateTimers: IC advances by cycles (truncated to 16 bits) first;
     * with TAC bit 2 set, the loop then runs one sub-step per 4 clocks,
     * watching the IC bit TAC selects from the counter's old value on.
     */
    method UpdateTimers(cycles: int)
      requires Valid()
      modifies this`bus, this`of
      ensures Valid()
      ensures Current() == GbMachine.UpdateTimers(old(Current()), cycles)
    {
      ghost var m0 := Current();
      var ic := bus.ic;
      bus := bus.(ic := AddCycles(ic, cycles));
      var tac := Read(bus, AddrTAC).value;
      UpdateTimersSteps(m0, cycles, Current(), tac);
      if !GetBit(tac, 2) {
        return;
      }
      var divisor := Divisor(tac);
      var left := cycles;
      while left > 0
        invariant Valid()
        invariant TimerLoop(Current(), ic, left, divisor) == GbMachine.UpdateTimers(m0, cycles)
        decreases left
      {
        SubStep(ic, divisor);
        ic := ic + 4;
        left := left - 4;
      }
    }

    /** One pass of updateTimers' loop, at local counter ic. */
    method SubStep(ic: Word, divisor: nat)
      requires Valid()
      modifies this`bus, this`of
      ensures Valid()
      ensures Current() == TimerSubStep(old(Current()), ic, divisor)
    {
      ghost var m0 := Current();
      var tima := ReloadTima();
      ghost var m1 := Current();
      CountTima(tima, ic, divisor);
      SubStepSteps(m0, tima, m1, ic, divisor);
    }

    /** The start of a pass: TIMA, or TMA with the timer interrupt requested when an overflow is pending. */
    method ReloadTima() returns (tima: Byte)
      requires Valid()
      modifies this`bus, this`of
      ensures Valid()
      ensures (tima, Current()) == TimerReload(old(Current()))
    {
      tima := Read(bus, AddrTIMA).value;
      if of {
        tima := Read(bus, AddrTMA).value;
        RequestInterrupt(IntTimer);
        of := false;
      }
    }

    /** The end of a pass: a falling edge increments TIMA, a wrap arming the overflow; TIMA is written back. */
    method CountTima(tima: Byte, ic: Word, divisor: nat)
      requires Valid()
      modifies this`bus, this`of
      ensures Valid()
      ensures Current() == TimerTick(old(Current()), tima, ic, divisor)
    {
      var t := tima;
      var falling := GetBit16(ic, divisor) && !GetBit16(ic + 4, divisor);
      if falling {
        t := t + 1;
        if t == 0 {
          of := true;
        }
      }
      bus := Write(bus, AddrTIMA, t);
    }

    /** DIV: the high byte of IC. */
    method DIV() returns (v: Byte)
      requires Valid()
      ensures v == Read(bus, AddrDIV).value
    {
      v := (bus.ic >> 8) as Byte;
    }

    /** SetDIV: IC keeps its low byte and takes v as its high byte, as a bus write to DIV does. */
    method SetDIV(v: Byte)
      requires Valid()
      modifies this`bus
      ensures Valid()
      ensures bus == Write(old(bus), AddrDIV, v)
    {
      var lo := Lo(bus.ic);
      bus := bus.(ic := CombineBytes(v, lo));
    }

    /** SetTAC: only the low three bits are stored, as a bus write to TAC does. */
    method SetTAC(v: Byte)
      requires Valid()
      modifies this`bus
      ensures Valid()
      ensures bus == Write(old(bus), AddrTAC, v)
    {
      bus := bus.(io := Store(bus.io, IoIndex(AddrTAC), v & 0x07));
    }

    // -------------------------------------------------------------------
    // Step (gb/cpu.go).

    /**
     * Step: IME is sampled first; a halted CPU spends 4 cycles, a running
     * one fetches an opcode with IncPC and runs its table entry (an empty
     * entry is the error Step returns); interrupt handling receives the
     * sampled IME, and the timers then advance by all the cycles spent.
     */
    method Step() returns (res: Result<nat>)
      requires Valid()
      modifies this
      ensures Valid()
      ensures GbMachine.Step(old(Current())).Ok? ==>
        res == Ok(GbMachine.Step(old(Current())).value.0) && Current() == GbMachine.Step(old(Current())).value.1
      ensures GbMachine.Step(old(Current())).Err? ==> res == Err(GbMachine.Step(old(Current())).failure)
    {
      ghost var m0 := Current();
      var sampled := ime;
      var cycles := Execute();
      res := AfterExecute(sampled, cycles, Run(m0));
      StepIsAfterRun(m0);
    }

    /** The part of Step after Run: interrupt handling with the sampled IME, then the timers. */
    method AfterExecute(sampled: bool, cycles: Result<nat>, ghost run: Result<(nat, Machine)>) returns (res: Result<nat>)
      requires Valid()
      requires run.Ok? ==> cycles == Ok(run.value.0) && Current() == run.value.1
      requires run.Err? ==> cycles == Err(run.failure)
      modifies this
      ensures Valid()
      ensures AfterRun(run, sampled).Ok? ==>
        res == Ok(AfterRun(run, sampled).value.0) && Current() == AfterRun(run, sampled).value.1
      ensures AfterRun(run, sampled).Err? ==> res == Err(AfterRun(run, sampled).failure)
    {
      if cycles.Ok? {
        var k := HandleInterrupts(sampled);
        ghost var m3 := Current();
        var total: nat := cycles.value + k;
        UpdateTimers(total);
        StepSteps(run, sampled, k, m3, total);
        res := Ok(total);
      } else {
        res := Err(cycles.failure);
      }
    }

    /** The part of Step before interrupt handling: the idle cycles of halt, or one instruction. */
    method Execute() returns (res: Result<nat>)
      requires Valid()
      modifies this
      ensures Valid()
      ensures Run(old(Current())).Ok? ==> res == Ok(Run(old(Current())).value.0) && Current() == Run(old(Current())).value.1
      ensures Run(old(Current())).Err? ==> res == Err(Run(old(Current())).failure)
    {
      if halt {
        return Ok(4);
      }
      ghost var m0 := Current();
      var op := IncPC();
      if op.Err? {
        return Err(op.failure);
      }
      var inst := Decode(op.value);
      if inst.None? {
        return Err(Unimplemented(op.value as nat));
      }
      OpcodeDecode(op.value);
      var m := Exec(Current(), inst.value);
      RunSteps(m0, op.value, Current(), inst.value, m);
      if m.Err? {
        return Err(m.failure);
      }
      Commit(m.value);
      return Ok(Cycles(inst.value));
    }

    /** What a table entry leaves, written back into the fields. */
    method Commit(m: Machine)
      requires m.Valid()
      modifies this
      ensures Valid() && Registers() == m.r && bus == m.bus
    {
      CommitBytes(m.r);
      CommitRest(m);
    }

    /** Commit, for the eight byte registers. */
    method CommitBytes(r: Regs)
      modifies this`b, this`c, this`d, this`e, this`h, this`l, this`a, this`f
      ensures b == r.b && c == r.c && d == r.d && e == r.e && h == r.h && l == r.l && a == r.a && f == r.f
    {
      b, c, d, e, h, l, a, f := r.b, r.c, r.d, r.e, r.h, r.l, r.a, r.f;
    }

    /** Commit, for SP, PC, the flags and the memory. */
    method CommitRest(m: Machine)
      modifies this`sp, this`pc, this`ime, this`halt, this`haltBug, this`of, this`bus
      ensures sp == m.r.sp && pc == m.r.pc && ime == m.r.ime && halt == m.r.halt
      ensures haltBug == m.r.haltBug && of == m.r.of && bus == m.bus
    {
      sp, pc, ime, halt, haltBug, of, bus := m.r.sp, m.r.pc, m.r.ime, m.r.halt, m.r.haltBug, m.r.of, m.bus;
    }
  }

  /** PushSP, given the new SP and the memory after the write. */
  lemma PushSteps(m: Machine, sp: Word, bus: Bus, v: Word)
    requires m.Valid() && sp == m.r.sp - 2 && bus == Write16(m.bus, sp, v)
    ensures GbMachine.PushSP(m, v) == Machine(m.r.(sp := sp), bus)
  {
  }

  /** PopSP, given what the 16-bit read at SP gave. */
  lemma PopSteps(m: Machine, v: Result<Word>)
    requires m.Valid() && v == Read16(m.bus, m.r.sp)
    ensures GbMachine.PopSP(m) == if v.Err? then Err(v.failure) else Ok((v.value, Machine(m.r.(sp := m.r.sp + 2), m.bus)))
  {
  }

  /** handleInterrupts when the loop finds bit i. */
  lemma DispatchFound(m: Machine, i: nat)
    requires m.Valid() && i < 5 && Pending(m.bus) != 0 && LowestPending(Pending(m.bus), 0) == Some(i)
    ensures var a := Acknowledge(m.(r := m.r.(halt := false)), i);
      GbMachine.HandleInterrupts(m, true) == (20, a.(r := a.r.(pc := Vector(i))))
  {
  }

  /** handleInterrupts when the loop finds no bit among 0-4. */
  lemma DispatchNone(m: Machine)
    requires m.Valid() && Pending(m.bus) != 0 && LowestPending(Pending(m.bus), 0) == None
    ensures GbMachine.HandleInterrupts(m, true) == (0, m.(r := m.r.(halt := false)))
  {
  }

  /** A sub-step is the reload followed by the count. */
  lemma SubStepSteps(m0: Machine, tima: Byte, m1: Machine, ic: Word, d: nat)
    requires m0.Valid() && (tima, m1) == TimerReload(m0)
    ensures TimerSubStep(m0, ic, d) == TimerTick(m1, tima, ic, d)
  {
  }

  /** updateTimers, given the machine after the counter moved and the TAC it then reads. */
  lemma UpdateTimersSteps(m0: Machine, cycles: int, m1: Machine, tac: Byte)
    requires m0.Valid() && m1 == m0.(bus := m0.bus.(ic := AddCycles(m0.bus.ic, cycles)))
    requires tac == Read(m1.bus, AddrTAC).value
    ensures GbMachine.UpdateTimers(m0, cycles) == if !GetBit(tac, 2) then m1 else TimerLoop(m1, m0.bus.ic, cycles, Divisor(tac))
  {
  }

  /** Run on a running CPU, given the fetched opcode, the machine after the fetch, its entry and what the entry gave. */
  lemma RunSteps(m0: Machine, op: Byte, m1: Machine, i: Instr, m: Result<Machine>)
    requires m0.Valid() && !m0.r.halt
    requires GbMachine.IncPC(m0) == Ok((op, m1)) && Decode(op) == Some(i) && InTable(i) && m == Exec(m1, i)
    ensures Run(m0) == if m.Err? then Err(m.failure) else Ok((Cycles(i), m.value))
  {
  }

  /** Step is Run followed by the rest of the step, with the IME sampled before the instruction. */
  lemma StepIsAfterRun(m: Machine)
    requires m.Valid()
    ensures GbMachine.Step(m) == AfterRun(Run(m), m.r.ime)
  {
  }

  /** The rest of Step, given what Run gave and what interrupt handling gave. */
  lemma StepSteps(run: Result<(nat, Machine)>, ime: bool, k: nat, m3: Machine, total: nat)
    requires run.Ok? && run.value.1.Valid()
    requires (k, m3) == GbMachine.HandleInterrupts(run.value.1, ime)
    requires total == run.value.0 + k
    ensures AfterRun(run, ime).Ok? && AfterRun(run, ime).value.0 == total
    ensures AfterRun(run, ime).value.1 == GbMachine.UpdateTimers(m3, total)
  {
  }
}
