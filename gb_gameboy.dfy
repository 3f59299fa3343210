/**
 * The GameBoy object (gb/gameboy.go): the tick loop that spends a budget of
 * clocks on CPU steps and catches the PPU up after each one, the boot ROM
 * copy and the cartridge slot.
 *
 * The CPU is the split package's object (module Cpu), stepped in place.
 * The PPU's Step method is not part of this model: the stand-in below
 * reports the same positive number of clocks, ppuStep, on every call and
 * records the clocks it has run. Go's log.Fatal on a step error becomes an
 * Err result.
 */
module GameBoy {
  import opened Bits
  import opened Outcomes
  import opened CpuState
  import opened CpuOps
  import Cart
  import Cpu

  /** The loop runs at a base of 256 Hz. */
  const BaseClock: nat := 256
  /** The CPU clock, 4.194304 MHz. */
  const CPUClock: nat := 4194304

  /** The clocks one tick of Run grants, before the previous tick's overshoot is repaid. */
  function TickBudget(debt: int): (budget: int)
    ensures budget == 16384 - debt
  {
    CPUClock / BaseClock - debt
  }

  /**
   * The clocks the catch-up loop makes the PPU run for a CPU step of c
   * clocks when every PPU step reports p clocks: whole PPU steps until c is
   * covered, so at least c and less than one PPU step more, and exactly c
   * when c is a whole number of PPU steps.
   */
  function CatchUp(c: int, p: int): (r: int)
    requires p > 0
    ensures c <= 0 ==> r == 0
    ensures c > 0 ==> c <= r < c + p
    ensures Whole(c, p) ==> r == c
    decreases c
  {
    if c <= 0 then 0 else p + CatchUp(c - p, p)
  }

  /** c is a whole number, possibly none, of PPU steps of p clocks. */
  predicate Whole(c: int, p: int)
    requires p > 0
    decreases c
  {
    c == 0 || (c >= p && Whole(c - p, p))
  }

  /** A whole number of machine cycles is a whole number of PPU steps of 1, 2 or 4 clocks. */
  lemma {:induction false} WholeOfCycles(c: int, p: int)
    requires c >= 0 && c % 4 == 0 && (p == 1 || p == 2 || p == 4)
    ensures Whole(c, p)
    decreases c
  {
    if c > 0 {
      WholeOfCycles(c - 4, p);
      if p == 2 {
        assert Whole(c - 2, p);
      } else if p == 1 {
        assert Whole(c - 3, p);
        assert Whole(c - 2, p);
        assert Whole(c - 1, p);
      }
    }
  }

  /**
   * What RunClocks leaves: the CPU state, the overshoot it returns, the
   * clocks the PPU has run in all and the cost of the last step; or the
   * state and opcode of the step whose error ends the program.
   */
  datatype Outcome =
    | Ran(cpu: State, overshoot: int, ppu: int, last: int)
    | Fatal(cpu: State, op: nat)

  /** A CPU step that always charges clocks, so a positive budget runs out. */
  ghost predicate Advances(step: State -> StepOutcome)
  {
    forall t :: step(t).Stepped? ==> step(t).s.clocks > 0
  }

  /** A CPU step that always charges a whole number of p-clock PPU steps. */
  ghost predicate WholeSteps(step: State -> StepOutcome, p: int)
    requires p > 0
  {
    forall t :: step(t).Stepped? ==> Whole(step(t).s.clocks, p)
  }

  /**
   * RunClocks over a CPU step function and a PPU step of p clocks, from
   * CPU state s with limit clocks left, the PPU having run ppu clocks and
   * the last step having cost last: while the limit is positive, step the
   * CPU, take its clocks off the limit and catch the PPU up; once it is
   * not, the overshoot is -limit.
   */
  function RunFrom(step: State -> StepOutcome, p: int, s: State, limit: int, ppu: int, last: int): (o: Outcome)
    requires Advances(step) && p > 0
    decreases if limit <= 0 then 0 else limit
  {
    if limit <= 0 then Ran(s, -limit, ppu, last)
    else match step(s)
      case InvalidOpcode(r, op) => Fatal(r, op)
      case Stepped(r) => RunFrom(step, p, r, limit - r.clocks, ppu + CatchUp(r.clocks, p), r.clocks)
  }

  /** The split CPU's Step charges at least one machine cycle. */
  lemma StepAdvances()
    ensures Advances(StepState)
  {
    forall t | StepState(t).Stepped?
      ensures StepState(t).s.clocks > 0
    {
      StepCharges(t);
    }
  }

  /** The split CPU's Step charges whole machine cycles, so whole PPU steps of 1, 2 or 4 clocks. */
  lemma StepWholeCycles(p: int)
    requires p == 1 || p == 2 || p == 4
    ensures WholeSteps(StepState, p)
  {
    forall t | StepState(t).Stepped?
      ensures Whole(StepState(t).s.clocks, p)
    {
      StepCharges(t);
      WholeOfCycles(StepState(t).s.clocks, p);
    }
  }

  /**
   * RunFrom after one completed step of used clocks: the rest of the run
   * starts from the step's state with used clocks fewer and the PPU caught up.
   */
  lemma RunFromNext(step: State -> StepOutcome, p: int, s: State, limit: int, ppu: int, last: int, r: State, used: int, ppu': int)
    requires Advances(step) && p > 0 && limit > 0 && step(s) == Stepped(r) && used == r.clocks && ppu' == ppu + CatchUp(used, p)
    ensures RunFrom(step, p, s, limit, ppu, last) == RunFrom(step, p, r, limit - used, ppu', used)
  {
  }

  /** RunFrom when the first step fails: the run ends with that step's error. */
  lemma RunFromFatal(step: State -> StepOutcome, p: int, s: State, limit: int, ppu: int, last: int, r: State, op: nat)
    requires Advances(step) && p > 0 && limit > 0 && step(s) == InvalidOpcode(r, op)
    ensures RunFrom(step, p, s, limit, ppu, last) == Fatal(r, op)
  {
  }

  /** With a budget that is not positive, no step runs and the overshoot is the debt itself. */
  lemma NoBudgetNoStep(step: State -> StepOutcome, p: int, s: State, limit: int, ppu: int, last: int)
    requires Advances(step) && p > 0 && limit <= 0
    ensures RunFrom(step, p, s, limit, ppu, last) == Ran(s, -limit, ppu, last)
  {
  }

  /**
   * With a positive budget, a run that ends normally overshoots by at least
   * 0 and by less than the cost of its last step.
   */
  lemma {:induction false} OvershootBounded(step: State -> StepOutcome, p: int, s: State, limit: int, ppu: int, last: int)
    requires Advances(step) && p > 0 && limit > 0 && RunFrom(step, p, s, limit, ppu, last).Ran?
    ensures var o := RunFrom(step, p, s, limit, ppu, last); 0 <= o.overshoot < o.last
    decreases limit
  {
    match step(s)
    case Stepped(r) =>
      if limit - r.clocks > 0 {
        OvershootBounded(step, p, r, limit - r.clocks, ppu + CatchUp(r.clocks, p), r.clocks);
      }
  }

  /**
   * The PPU never falls behind: when the run ends it has run at least the
   * clocks the CPU ran, the budget plus the overshoot.
   */
  lemma {:induction false} PpuCoversCpu(step: State -> StepOutcome, p: int, s: State, limit: int, ppu: int, last: int)
    requires Advances(step) && p > 0 && RunFrom(step, p, s, limit, ppu, last).Ran?
    ensures var o := RunFrom(step, p, s, limit, ppu, last); o.ppu >= ppu + limit + o.overshoot
    decreases if limit <= 0 then 0 else limit
  {
    if limit > 0 {
      match step(s)
      case Stepped(r) =>
        PpuCoversCpu(step, p, r, limit - r.clocks, ppu + CatchUp(r.clocks, p), r.clocks);
    }
  }

  /**
   * The PPU catches up exactly: when every CPU step costs a whole number of
   * PPU steps, the PPU has run, when the run ends, the clocks the CPU ran:
   * the budget plus the overshoot.
   */
  lemma {:induction false} PpuKeepsPace(step: State -> StepOutcome, p: int, s: State, limit: int, ppu: int, last: int)
    requires Advances(step) && p > 0 && WholeSteps(step, p) && RunFrom(step, p, s, limit, ppu, last).Ran?
    ensures var o := RunFrom(step, p, s, limit, ppu, last); o.ppu == ppu + limit + o.overshoot
    decreases if limit <= 0 then 0 else limit
  {
    if limit > 0 {
      match step(s)
      case Stepped(r) =>
        assert r.clocks > 0 && Whole(r.clocks, p);
        PpuKeepsPace(step, p, r, limit - r.clocks, ppu + CatchUp(r.clocks, p), r.clocks);
    }
  }

  /**
   * The split CPU's run: the overshoot bound, the PPU never behind the CPU,
   * and exactly level with it when the PPU step divides a machine cycle.
   */
  lemma RunAccounting(p: int, s: State, limit: int, ppu: int)
    requires Advances(StepState) && p > 0 && RunFrom(StepState, p, s, limit, ppu, 0).Ran?
    ensures var o := RunFrom(StepState, p, s, limit, ppu, 0);
      && (limit > 0 ==> 0 <= o.overshoot < o.last)
      && o.ppu >= ppu + limit + o.overshoot
      && (p == 1 || p == 2 || p == 4 ==> o.ppu == ppu + limit + o.overshoot)
  {
    if limit > 0 {
      OvershootBounded(StepState, p, s, limit, ppu, 0);
    }
    PpuCoversCpu(StepState, p, s, limit, ppu, 0);
    if p == 1 || p == 2 || p == 4 {
      StepWholeCycles(p);
      PpuKeepsPace(StepState, p, s, limit, ppu, 0);
    }
  }

  class GameBoy {
    /** The CPU (cpu.NewCPU, attached to the memory). */
    const cpu: Cpu.CPU
    /** The boot ROM image ([0x100]uint8). */
    const boot: array<Byte>
    /** The loaded cartridge, if any. */
    var cart: Option<Cart.Cartridge>
    /** Clocks the PPU stand-in has run, and the clocks it reports per Step call. */
    var ppuClocks: int
    const ppuStep: int

    ghost predicate Valid()
      reads this, cpu
    {
      cpu.Valid() && boot.Length == 0x100 && boot != cpu.rg && ppuStep > 0
    }

    /**
     * The components of NewGameBoy: a new CPU attached to mem, a zeroed
     * boot ROM, no cartridge, and a PPU stand-in of p clocks per step.
     */
    constructor(mem: Option<Ram>, p: int)
      requires p > 0
      ensures Valid() && fresh(cpu) && fresh(cpu.rg) && fresh(boot)
      ensures cpu.Snapshot() == Initial(mem)
      ensures boot[..] == seq(0x100, _ => 0) && cart == None && ppuClocks == 0 && ppuStep == p
    {
      boot := new Byte[0x100](_ => 0);
      cpu := new Cpu.CPU(mem);
      cart := None;
      ppuClocks := 0;
      ppuStep := p;
    }

    /** The PPU stand-in's Step: ppuStep clocks. */
    method PpuStep() returns (c: int)
      modifies this`ppuClocks
      ensures c == ppuStep && ppuClocks == old(ppuClocks) + c
    {
      c := ppuStep;
      ppuClocks := ppuClocks + c;
    }

    /** The inner loop of RunClocks: step the PPU until its clocks cover the CPU's. */
    method CatchUpPpu(clocks: int)
      requires ppuStep > 0
      modifies this`ppuClocks
      ensures ppuClocks == old(ppuClocks) + CatchUp(clocks, ppuStep)
    {
      var left := clocks;
      while left > 0
        invariant ppuClocks + CatchUp(left, ppuStep) == old(ppuClocks) + CatchUp(clocks, ppuStep)
        decreases left
      {
        var c := PpuStep();
        left := left - c;
      }
    }

    /** One pass of RunClocks's loop: a CPU step and, when it completes, the PPU catch-up. */
    method StepCpu(left: int, ghost last: int) returns (used: int, invalid: Option<nat>)
      requires Valid() && Advances(StepState) && left > 0
      modifies this`ppuClocks, cpu, cpu.rg
      ensures Valid()
      ensures invalid.None? ==> used > 0
      ensures invalid.None? ==>
        RunFrom(StepState, ppuStep, old(cpu.Snapshot()), left, old(ppuClocks), last)
          == RunFrom(StepState, ppuStep, cpu.Snapshot(), left - used, ppuClocks, used)
      ensures invalid.Some? ==>
        RunFrom(StepState, ppuStep, old(cpu.Snapshot()), left, old(ppuClocks), last) == Fatal(cpu.Snapshot(), invalid.value)
    {
      ghost var s := cpu.Snapshot();
      ghost var ppu0 := ppuClocks;
      used, invalid := cpu.Step();
      ghost var r := cpu.Snapshot();
      if invalid.None? {
        assert StepState(s) == Stepped(r) && used == r.clocks;
        CatchUpPpu(used);
        assert cpu.Snapshot() == r;
        RunFromNext(StepState, ppuStep, s, left, ppu0, last, r, used, ppuClocks);
      } else {
        RunFromFatal(StepState, ppuStep, s, left, ppu0, last, r, invalid.value);
      }
    }

    /** The loop of RunClocks: steps until the limit is spent or a step fails. */
    method RunLoop(limit: int) returns (left: int, fatal: Option<nat>, ghost last: int)
      requires Valid() && Advances(StepState)
      modifies this`ppuClocks, cpu, cpu.rg
      ensures Valid()
      ensures fatal.None? ==> left <= 0
      ensures fatal.None? ==>
        RunFrom(StepState, ppuStep, old(cpu.Snapshot()), limit, old(ppuClocks), 0)
          == RunFrom(StepState, ppuStep, cpu.Snapshot(), left, ppuClocks, last)
      ensures fatal.Some? ==>
        RunFrom(StepState, ppuStep, old(cpu.Snapshot()), limit, old(ppuClocks), 0) == Fatal(cpu.Snapshot(), fatal.value)
    {
      ghost var goal := RunFrom(StepState, ppuStep, cpu.Snapshot(), limit, ppuClocks, 0);
      left := limit;
      last := 0;
      fatal := None;
      while left > 0 && fatal.None?
        invariant Valid()
        invariant fatal.None? ==> RunFrom(StepState, ppuStep, cpu.Snapshot(), left, ppuClocks, last) == goal
        invariant fatal.Some? ==> goal == Fatal(cpu.Snapshot(), fatal.value)
        decreases if left <= 0 then 0 else left, if fatal.None? then 1 else 0
      {
        var used, invalid := StepCpu(left, last);
        if invalid.Some? {
          fatal := invalid;
        } else {
          left := left - used;
          last := used;
        }
      }
    }

    /**
     * RunClocks: runs the CPU while the limit is positive and returns how
     * many clocks it ran past the limit; a step error ends the run.
     */
    method RunClocks(limit: int) returns (res: Result<int>)
      requires Valid()
      modifies this`ppuClocks, cpu, cpu.rg
      ensures Valid() && Advances(StepState)
      ensures match RunFrom(StepState, ppuStep, old(cpu.Snapshot()), limit, old(ppuClocks), 0)
        case Ran(r, over, ppu, _) => res == Ok(over) && cpu.Snapshot() == r && ppuClocks == ppu
        case Fatal(r, op) => res == Err(Unimplemented(op)) && cpu.Snapshot() == r
    {
      StepAdvances();
      var left, fatal, last := RunLoop(limit);
      if fatal.Some? {
        res := Err(Unimplemented(fatal.value));
      } else {
        NoBudgetNoStep(StepState, ppuStep, cpu.Snapshot(), left, ppuClocks, last);
        res := Ok(-left);
      }
    }

    /** One tick of Run: spend this tick's budget less the previous tick's overshoot, which is returned. */
    method Tick(debt: int) returns (res: Result<int>)
      requires Valid()
      modifies this`ppuClocks, cpu, cpu.rg
      ensures Valid() && Advances(StepState)
      ensures match RunFrom(StepState, ppuStep, old(cpu.Snapshot()), TickBudget(debt), old(ppuClocks), 0)
        case Ran(r, over, ppu, _) => res == Ok(over) && cpu.Snapshot() == r && ppuClocks == ppu
        case Fatal(r, op) => res == Err(Unimplemented(op)) && cpu.Snapshot() == r
    {
      res := RunClocks(TickBudget(debt));
    }

    /** LoadBootRom: an image that is not exactly 0x100 bytes is refused and nothing is copied. */
    method LoadBootRom(rom: seq<Byte>) returns (res: Result<()>)
      requires Valid()
      modifies boot
      ensures res.Ok? <==> |rom| == 0x100
      ensures res.Err? ==> res.failure == BadSize(|rom|) && boot[..] == old(boot[..])
      ensures res.Ok? ==> boot[..] == rom
    {
      if |rom| != 0x100 {
        res := Err(BadSize(|rom|));
      } else {
        for i := 0 to 0x100
          invariant boot[..i] == rom[..i]
        {
          boot[i] := rom[i];
        }
        res := Ok(());
      }
    }

    /** LoadCartridge: the slot holds the given cartridge. */
    method LoadCartridge(c: Cart.Cartridge)
      modifies this`cart
      ensures cart == Some(c)
    {
      cart := Some(c);
    }
  }
}
