/**
 * The scanline and mode counter of the monolithic PPU (gb/ppu.go). Each
 * step covers 4 clocks; a line is 114 steps and a frame 154 lines, the
 * last ten of them vertical blank. The step functions below are what one
 * iteration of Update does; the PPU class runs the loop in place and is
 * proved to leave the state they compute.
 */
module GbPpu {
  import opened Bits

  /** LCDC flags. */
  const FlagLCDPower: nat := 7
  const FlagWindowTileMap: nat := 6
  const FlagWindowEnable: nat := 5
  const FlagBgTileset: nat := 4
  const FlagBgTileMap: nat := 3
  const FlagSpriteSize: nat := 2
  const FlagSpritesEnable: nat := 1
  const FlagBgEnable: nat := 0

  /** STAT modes (bits 0..1). */
  const ModeHBlank: Byte := 0
  const ModeVBlank: Byte := 1
  const ModeOAM: Byte := 2
  const ModeTransfer: Byte := 3

  /** Steps per scanline and scanlines per frame. */
  const HSteps: nat := 114
  const VLines: nat := 154
  /** Steps in one frame, and the clocks they take (4 per step). */
  const FrameSteps: nat := 114 * 154
  const FrameClocks: nat := 4 * FrameSteps

  /** The frame size. */
  const FrameWidth: nat := 160
  const FrameHeight: nat := 144

  /**
   * The fields Update works on: the step counter sc, the scanline ly and
   * STAT. The source declares sc uint16 and ly uint8; both stay below 154
   * (WellFormed is kept by every step), so they are plain numbers here.
   */
  datatype Timing = Timing(sc: nat, ly: nat, stat: Byte)
  {
    /** Where the counters are inside a frame. */
    predicate WellFormed() { sc < HSteps && ly < VLines }
  }

  /** setMode: the 2-bit mode replaces STAT bits 0..2 (bit 2 is cleared). */
  function SetMode(stat: Byte, m: Byte): (r: Byte)
    ensures r & 0xF8 == stat & 0xF8
    ensures r & 0x07 == m & 0x03
  {
    (stat & 0xF8) | (m & 0x03)
  }

  /** Mode: STAT bits 0..1. */
  function Mode(stat: Byte): (r: Byte)
    ensures r <= 3
  {
    stat & 0x03
  }

  /** SetSTAT: only the upper four bits are writable. */
  function WriteSTAT(stat: Byte, v: Byte): (r: Byte)
    ensures r & 0x0F == stat & 0x0F && r & 0xF0 == v & 0xF0
  {
    (stat & 0x0F) | (v & 0xF0)
  }

  // The LCDC accessors the package calls but does not define, read the
  // way the later PPU package defines them (gb/ppu/tiles.go): a flag bit
  // picks the map base, relative to the start of VRAM, or the sprite size.

  /** SpriteHeight: 16 rows for large sprites, 8 otherwise. */
  function SpriteHeight(lcdc: Byte): (h: Byte)
    ensures h == 8 || h == 16
  {
    if GetBit(lcdc, FlagSpriteSize) then 16 else 8
  }

  /** BgTileMap: the background map base, 0x1C00 with the flag set, 0x1800 otherwise. */
  function BgTileMap(lcdc: Byte): (m: Word)
    ensures m == 0x1800 || m == 0x1C00
  {
    if GetBit(lcdc, FlagBgTileMap) then 0x1C00 else 0x1800
  }

  /** WindowTileMap: the window map base, chosen by its own flag. */
  function WindowTileMap(lcdc: Byte): (m: Word)
    ensures m == 0x1800 || m == 0x1C00
  {
    if GetBit(lcdc, FlagWindowTileMap) then 0x1C00 else 0x1800
  }

  /** WindowEnabled: the window enable flag. */
  predicate WindowEnabled(lcdc: Byte)
  {
    GetBit(lcdc, FlagWindowEnable)
  }

  /**
   * The switch at the top of an Update iteration: OAM search at the start of
   * a visible line, pixel transfer 20 steps in, vertical blank at the start
   * of line 144. The flag is the VBlank interrupt request.
   */
  function ModeStep(t: Timing): (Timing, bool)
  {
    if t.ly < 144 && t.sc == 0 then (t.(stat := SetMode(t.stat, ModeOAM)), false)
    else if t.ly < 144 && t.sc == 20 then (t.(stat := SetMode(t.stat, ModeTransfer)), false)
    else if t.ly == 144 && t.sc == 0 then (t.(stat := SetMode(t.stat, ModeVBlank)), true)
    else (t, false)
  }

  /** The end of an iteration: sc counts modulo 114 and ly advances modulo 154 when sc wraps. */
  function Advance(t: Timing): Timing
  {
    var sc := (t.sc + 1) % HSteps;
    if sc == 0 then t.(sc := sc, ly := (t.ly + 1) % VLines) else t.(sc := sc)
  }

  /** One iteration of Update's loop: the new counters and whether VBlank was requested. */
  function Tick(t: Timing): (Timing, bool)
  {
    var (t1, vblank) := ModeStep(t);
    (Advance(t1), vblank)
  }

  /** Update(cycles): iterations until cycles, dropping by 4 each time, is no longer positive. */
  function Run(t: Timing, cycles: int): (r: (Timing, nat))
    decreases cycles
  {
    if cycles <= 0 then (t, 0)
    else
      var (t1, vblank) := Tick(t);
      var (t2, n) := Run(t1, cycles - 4);
      (t2, if vblank then n + 1 else n)
  }

  /** n iterations in a row. */
  function Iterate(t: Timing, n: nat): Timing
    decreases n
  {
    if n == 0 then t else Iterate(Tick(t).0, n - 1)
  }

  /** Iterations Update performs for a budget of cycles: ceil(cycles / 4), none for cycles <= 0. */
  function Steps(cycles: int): nat
  {
    if cycles <= 0 then 0 else (cycles + 3) / 4
  }

  /** The position of the counters inside a frame, in steps. */
  function Pos(t: Timing): nat
  {
    t.ly * HSteps + t.sc
  }

  // ---------------------------------------------------------------------
  // Properties of one step.

  /** The modes a step sets, and that only line 144's first step requests VBlank. */
  lemma TickModes(t: Timing)
    ensures t.ly < 144 && t.sc == 0 ==> Mode(Tick(t).0.stat) == ModeOAM
    ensures t.ly < 144 && t.sc == 20 ==> Mode(Tick(t).0.stat) == ModeTransfer
    ensures t.ly == 144 && t.sc == 0 ==> Mode(Tick(t).0.stat) == ModeVBlank
    ensures Tick(t).1 <==> t.ly == 144 && t.sc == 0
    ensures !(t.sc == 0 && t.ly <= 144) && !(t.sc == 20 && t.ly < 144) ==> Tick(t).0.stat == t.stat
  {
  }

  /** A step moves one position forward, wrapping at the end of the frame. */
  lemma TickAdvancesPos(t: Timing)
    requires t.WellFormed()
    ensures Tick(t).0.WellFormed()
    ensures Pos(Tick(t).0) == (Pos(t) + 1) % FrameSteps
  {
    var t1 := ModeStep(t).0;
    assert t1.sc == t.sc && t1.ly == t.ly;
  }

  /** Within a frame the position determines the counters. */
  lemma PosInjective(t: Timing, u: Timing)
    requires t.WellFormed() && u.WellFormed() && Pos(t) == Pos(u)
    ensures t.sc == u.sc && t.ly == u.ly
  {
    assert t.sc == Pos(t) % HSteps && u.sc == Pos(u) % HSteps;
    assert t.ly == Pos(t) / HSteps && u.ly == Pos(u) / HSteps;
  }

  /** Moving one position and then n - 1 more is moving n positions. */
  lemma ModStep(a: nat, n: nat)
    requires a < FrameSteps && n > 0
    ensures ((a + 1) % FrameSteps + (n - 1)) % FrameSteps == (a + n) % FrameSteps
  {
    if a + 1 == FrameSteps {
      assert (a + n) == (n - 1) + FrameSteps;
    }
  }

  /** n steps move n positions forward modulo the frame length. */
  lemma {:induction false} IteratePos(t: Timing, n: nat)
    requires t.WellFormed()
    decreases n
    ensures Iterate(t, n).WellFormed()
    ensures Pos(Iterate(t, n)) == (Pos(t) + n) % FrameSteps
  {
    if n > 0 {
      var t1 := Tick(t).0;
      TickAdvancesPos(t);
      IteratePos(t1, n - 1);
      assert Iterate(t, n) == Iterate(t1, n - 1);
      ModStep(Pos(t), n);
    }
  }

  /** Update(cycles) runs exactly ceil(cycles / 4) steps. */
  lemma {:induction false} RunIsSteps(t: Timing, cycles: int)
    ensures Run(t, cycles).0 == Iterate(t, Steps(cycles))
    decreases cycles
  {
    if cycles > 0 {
      RunIsSteps(Tick(t).0, cycles - 4);
      assert Steps(cycles) == Steps(cycles - 4) + 1;
    }
  }

  /** Moving a whole frame returns to the same position. */
  lemma WholeFrame(a: nat)
    requires a < FrameSteps
    ensures (a + FrameSteps) % FrameSteps == a
  {
  }

  /**
   * A frame is 114 x 154 steps, 70224 clocks: Update over that many clocks
   * brings sc and ly back to where they were.
   */
  lemma FramePeriod(t: Timing, clocks: int)
    requires t.WellFormed() && clocks == FrameClocks
    ensures Run(t, clocks).0.sc == t.sc && Run(t, clocks).0.ly == t.ly
  {
    var n := Steps(clocks);
    var u := Run(t, clocks).0;
    RunIsSteps(t, clocks);
    IteratePos(t, n);
    assert Pos(u) == (Pos(t) + n) % FrameSteps;
    assert n == FrameSteps;
    WholeFrame(Pos(t));
    PosInjective(t, u);
  }

  // ---------------------------------------------------------------------
  // The PPU.

  class PPU {
    /** Scanline counter: the step within the current line. */
    var sc: nat
    /** Current scanline. */
    var ly: nat
    /** LCD control. */
    var lcdc: Byte
    /** LCD status. */
    var stat: Byte

    /** The counters lie inside a frame. */
    ghost predicate Valid()
      reads this
    {
      Timing(sc, ly, stat).WellFormed()
    }

    /** NewPPU: every register at zero. */
    constructor ()
      ensures sc == 0 && ly == 0 && lcdc == 0 && stat == 0
      ensures Valid()
    {
      sc := 0;
      ly := 0;
      lcdc := 0;
      stat := 0;
    }

    /**
     * Update catches the PPU up by cycles clocks, 4 per iteration. The
     * result is the number of VBlank interrupts requested (the source calls
     * RequestInterrupt on the CPU for each). The per-mode step functions
     * are empty in this file, and the frame hand-off is not modelled.
     */
    method Update(cycles: int) returns (vblanks: nat)
      requires Valid()
      modifies this`sc, this`ly, this`stat
      ensures Valid()
      ensures (Timing(sc, ly, stat), vblanks) == Run(old(Timing(sc, ly, stat)), cycles)
    {
      var left := cycles;
      vblanks := 0;
      while left > 0
        invariant Valid()
        invariant Run(Timing(sc, ly, stat), left).0 == Run(old(Timing(sc, ly, stat)), cycles).0
        invariant vblanks + Run(Timing(sc, ly, stat), left).1 == Run(old(Timing(sc, ly, stat)), cycles).1
        decreases left
      {
        var vblank := Step();
        if vblank {
          vblanks := vblanks + 1;
        }
        left := left - 4;
      }
    }

    /** One iteration of Update's loop; the result is the VBlank interrupt request. */
    method Step() returns (vblank: bool)
      requires Valid()
      modifies this`sc, this`ly, this`stat
      ensures Valid()
      ensures (Timing(sc, ly, stat), vblank) == Tick(old(Timing(sc, ly, stat)))
    {
      TickAdvancesPos(Timing(sc, ly, stat));
      vblank := false;
      if ly < 144 && sc == 0 {
        SetModeOf(ModeOAM);
      } else if ly < 144 && sc == 20 {
        SetModeOf(ModeTransfer);
      } else if ly == 144 && sc == 0 {
        SetModeOf(ModeVBlank);
        vblank := true;
      }
      // stepOAM and stepTransfer, run next in OAM and Transfer mode, are empty here.
      var s := (sc + 1) % HSteps;
      sc := s;
      if s == 0 {
        ly := (ly + 1) % VLines;
      }
    }

    /** setMode: STAT bits 0..2 take the mode, the rest stays. */
    method SetModeOf(m: Byte)
      modifies this`stat
      ensures stat == SetMode(old(stat), m)
    {
      stat := (stat & 0xF8) | (m & 0x03);
    }

    function LCDC(): Byte
      reads this
    {
      lcdc
    }

    method SetLCDC(v: Byte)
      modifies this`lcdc
      ensures lcdc == v
    {
      lcdc := v;
    }

    /** STAT as written returns the LCDC register, not STAT. */
    function STAT(): (r: Byte)
      reads this
      ensures r == LCDC()
    {
      lcdc
    }

    /** SetSTAT keeps the low four bits and takes the upper four from v. */
    method SetSTAT(v: Byte)
      modifies this`stat
      ensures stat == WriteSTAT(old(stat), v)
    {
      stat := (stat & 0x0F) | (v & 0xF0);
    }

    function ModeOf(): (r: Byte)
      reads this
      ensures r == Mode(stat)
    {
      stat & 0x03
    }

    function LY(): Byte
      requires Valid()
      reads this
    {
      ly as Byte
    }
  }
}
