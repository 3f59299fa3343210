/**
 * Pixel transfer of the monolithic PPU (gb/pixel_transfer.go). At the
 * start of mode 3 the PPU snapshots the scroll, palette and window
 * registers and aims the fetcher at the first background tile of the
 * line; each step then runs four one-clock sub-steps, each of which may
 * switch the fetcher to the window, pops at most one pixel into the frame
 * and, on sub-steps 0 and 2, steps the fetcher. Once the line's 160th
 * pixel is out the PPU enters HBlank.
 *
 * The PPU of that package declares neither lx nor the fetcher nor the
 * snapshot fields; they are the fields of the Transfer class here, next to
 * the frame. The registers the source reads through the memory map are
 * passed in as one value, and the fetcher's VRAM and tile-data source are
 * parameters as in the fetcher model.
 */
module GbPixelTransfer {
  import opened Bits
  import opened GbPixel
  import opened GbFetcher
  import opened GbPpu

  /** The frame buffer: one shade per pixel, row by row. */
  const FrameSize: nat := FrameWidth * FrameHeight

  /** The registers startPixelTransfer snapshots: SCX, SCY, BGP, OBP0, OBP1, WX, WY. */
  datatype Registers = Registers(scx: Byte, scy: Byte, bgp: Byte, obp0: Byte, obp1: Byte, wx: Byte, wy: Byte)

  /** The palettes Resolve reads from the snapshot. */
  function PalettesOf(r: Registers): Palettes
  {
    Palettes(r.bgp, r.obp0, r.obp1)
  }

  /** What stepPixelTransfer changes: lx, the fetcher, STAT and the frame. */
  datatype Line = Line(lx: nat, fetcher: FetcherState, stat: Byte, frame: seq<Byte>)

  /** What a transfer step needs: a valid fetcher, a pixel left on a visible line, a whole frame and VRAM. */
  ghost predicate Ready(t: Line, ly: Byte, vram: seq<Byte>)
  {
    Valid(t.fetcher) && t.lx < FrameWidth && ly < 144
    && |t.frame| == FrameSize && |vram| == VramSize
  }

  /** The frame index of pixel lx of line ly. */
  function PixelIndex(ly: Byte, lx: nat): (i: nat)
    requires ly < 144 && lx < FrameWidth
    ensures i < FrameSize
  {
    ly as nat * FrameWidth + lx
  }

  /** startPixelTransfer: aim the fetcher at (SCX, ly + SCY) of the background map. */
  function StartFetcher(f: FetcherState, regs: Registers, ly: Byte, lcdc: Byte): (r: FetcherState)
    ensures Valid(r)
  {
    ResetValid(f, regs.scx, ly + regs.scy, BgTileMap(lcdc));
    ResetState(f, regs.scx, ly + regs.scy, BgTileMap(lcdc))
  }

  /** The window check: the window is on, the line is at or below WY and the next pixel is column WX. */
  predicate WindowHit(lx: nat, ly: Byte, regs: Registers, lcdc: Byte)
  {
    WindowEnabled(lcdc) && lx == regs.wx as nat && ly >= regs.wy
  }

  /** On a window hit the fetcher starts over on the window map, at line ly - WY of the window. */
  function WindowCheck(f: FetcherState, hit: bool, ly: Byte, regs: Registers, lcdc: Byte): (r: FetcherState)
  {
    if hit then ResetState(f, 0, ly - regs.wy, WindowTileMap(lcdc)) else f
  }

  /**
   * The first half of a sub-step: the window check, then a pop; a popped
   * shade goes to pixel lx of line ly and lx moves on.
   */
  function Draw(t: Line, ly: Byte, regs: Registers, lcdc: Byte): (r: Line)
    requires Valid(t.fetcher) && t.lx < FrameWidth && ly < 144 && |t.frame| == FrameSize
    ensures Valid(r.fetcher) && |r.frame| == FrameSize && r.stat == t.stat
    ensures t.lx <= r.lx <= t.lx + 1
  {
    var hit := WindowHit(t.lx, ly, regs, lcdc);
    WindowCheckValid(t.fetcher, hit, ly, regs, lcdc);
    var f1 := WindowCheck(t.fetcher, hit, ly, regs, lcdc);
    PopPixel(t.(fetcher := f1), ly, PalettesOf(regs))
  }

  /** A pop; a popped shade goes to pixel lx of line ly and lx moves on. */
  function PopPixel(t: Line, ly: Byte, pal: Palettes): (r: Line)
    requires Valid(t.fetcher) && t.lx < FrameWidth && ly < 144 && |t.frame| == FrameSize
    ensures Valid(r.fetcher) && |r.frame| == FrameSize && r.stat == t.stat
    ensures t.lx <= r.lx <= t.lx + 1
  {
    var (f, shade, ok) := PopState(t.fetcher, pal);
    PopValid(t.fetcher, pal);
    if ok then Line(t.lx + 1, f, t.stat, t.frame[PixelIndex(ly, t.lx) := shade])
    else Line(t.lx, f, t.stat, t.frame)
  }

  /**
   * The second half: at the end of the line STAT enters HBlank and the
   * loop stops (the flag); otherwise the fetcher steps on even sub-steps.
   */
  function Finish(t: Line, c: nat, vram: seq<Byte>, tile: (Byte, Byte) -> Byte): (r: (Line, bool))
    requires Valid(t.fetcher) && |vram| == VramSize
    ensures Valid(r.0.fetcher) && r.0.lx == t.lx && r.0.frame == t.frame
    ensures r.1 <==> t.lx == FrameWidth
    ensures r.0.stat == (if r.1 then SetMode(t.stat, ModeHBlank) else t.stat)
  {
    if t.lx == FrameWidth then (t.(stat := SetMode(t.stat, ModeHBlank)), true)
    else
      StepValid(t.fetcher, vram, tile);
      (t.(fetcher := if c % 2 == 0 then StepState(t.fetcher, vram, tile) else t.fetcher), false)
  }

  /** Sub-step c of stepPixelTransfer; the flag says the loop stops. */
  function SubStep(t: Line, c: nat, ly: Byte, regs: Registers, lcdc: Byte,
                   vram: seq<Byte>, tile: (Byte, Byte) -> Byte): (r: (Line, bool))
    requires Ready(t, ly, vram)
  {
    Finish(Draw(t, ly, regs, lcdc), c, vram, tile)
  }

  /** stepPixelTransfer from sub-step c on: up to sub-step 3, or until the line is done. */
  function TransferSteps(t: Line, c: nat, ly: Byte, regs: Registers, lcdc: Byte,
                    vram: seq<Byte>, tile: (Byte, Byte) -> Byte): (r: Line)
    requires c <= 4 && (c < 4 ==> Ready(t, ly, vram))
    decreases 4 - c
  {
    if c == 4 then t
    else
      var (t1, stop) := SubStep(t, c, ly, regs, lcdc, vram, tile);
      if stop then t1 else TransferSteps(t1, c + 1, ly, regs, lcdc, vram, tile)
  }

  // ---------------------------------------------------------------------
  // Properties.

  /**
   * A step draws at most four pixels, never past the end of the line; the
   * fetcher stays valid; STAT changes, to HBlank, exactly when the line is
   * done, and the next step can run exactly when it is not.
   */
  lemma {:induction false} TransferProgress(t: Line, c: nat, ly: Byte, regs: Registers, lcdc: Byte,
                                            vram: seq<Byte>, tile: (Byte, Byte) -> Byte)
    requires c < 4 && Ready(t, ly, vram)
    decreases 4 - c
    ensures var r := TransferSteps(t, c, ly, regs, lcdc, vram, tile);
      && t.lx <= r.lx <= t.lx + (4 - c) && r.lx <= FrameWidth
      && Valid(r.fetcher) && |r.frame| == FrameSize
      && r.stat == (if r.lx == FrameWidth then SetMode(t.stat, ModeHBlank) else t.stat)
      && (r.lx < FrameWidth ==> Ready(r, ly, vram))
  {
    var (t1, stop) := SubStep(t, c, ly, regs, lcdc, vram, tile);
    if !stop && c + 1 < 4 {
      TransferProgress(t1, c + 1, ly, regs, lcdc, vram, tile);
    }
  }

  /**
   * b is a with pixels from..to-1 of the row starting at base, and only
   * those, rewritten, all with shades 0..3.
   */
  ghost predicate Drawn(a: seq<Byte>, b: seq<Byte>, base: nat, from: nat, to: nat)
  {
    && |a| == |b|
    && (forall i :: 0 <= i < |a| && !(base + from <= i < base + to) ==> a[i] == b[i])
    && (forall i :: base + from <= i < base + to && i < |b| ==> b[i] <= 3)
  }

  /** Two runs of drawing, one after the other, draw the joined range. */
  lemma DrawnJoin(a: seq<Byte>, b: seq<Byte>, c: seq<Byte>, base: nat, x: nat, y: nat, z: nat)
    requires x <= y <= z && Drawn(a, b, base, x, y) && Drawn(b, c, base, y, z)
    ensures Drawn(a, c, base, x, z)
  {
  }

  /** One sub-step draws at most the pixel at lx. */
  lemma SubStepDraws(t: Line, c: nat, ly: Byte, regs: Registers, lcdc: Byte,
                     vram: seq<Byte>, tile: (Byte, Byte) -> Byte)
    requires Ready(t, ly, vram)
    ensures var r := SubStep(t, c, ly, regs, lcdc, vram, tile).0;
      Drawn(t.frame, r.frame, ly as nat * FrameWidth, t.lx, r.lx)
  {
    var d := Draw(t, ly, regs, lcdc);
    DrawWritesOnePixel(t, ly, regs, lcdc);
    assert Drawn(t.frame, d.frame, ly as nat * FrameWidth, t.lx, d.lx);
  }

  /**
   * A step writes only line ly, only the pixels from the old lx up to the
   * new one, and only shades 0..3.
   */
  lemma {:induction false} TransferWritesRow(t: Line, c: nat, ly: Byte, regs: Registers, lcdc: Byte,
                                             vram: seq<Byte>, tile: (Byte, Byte) -> Byte)
    requires c < 4 && Ready(t, ly, vram)
    decreases 4 - c
    ensures var r := TransferSteps(t, c, ly, regs, lcdc, vram, tile);
      Drawn(t.frame, r.frame, ly as nat * FrameWidth, t.lx, r.lx)
  {
    var (t1, stop) := SubStep(t, c, ly, regs, lcdc, vram, tile);
    SubStepDraws(t, c, ly, regs, lcdc, vram, tile);
    TransferProgress(t, c, ly, regs, lcdc, vram, tile);
    if !stop && c + 1 < 4 {
      TransferWritesRow(t1, c + 1, ly, regs, lcdc, vram, tile);
      TransferProgress(t1, c + 1, ly, regs, lcdc, vram, tile);
      var r := TransferSteps(t1, c + 1, ly, regs, lcdc, vram, tile);
      DrawnJoin(t.frame, t1.frame, r.frame, ly as nat * FrameWidth, t.lx, t1.lx, r.lx);
    }
  }

  /** The first half of a sub-step writes at most pixel lx of line ly, with a shade 0..3. */
  lemma DrawWritesOnePixel(t: Line, ly: Byte, regs: Registers, lcdc: Byte)
    requires Valid(t.fetcher) && t.lx < FrameWidth && ly < 144 && |t.frame| == FrameSize
    ensures var r := Draw(t, ly, regs, lcdc);
      && (r.lx == t.lx ==> r.frame == t.frame)
      && (r.lx == t.lx + 1 ==>
            r.frame[PixelIndex(ly, t.lx)] <= 3 &&
            r.frame == t.frame[PixelIndex(ly, t.lx) := r.frame[PixelIndex(ly, t.lx)]])
  {
  }

  /** On odd sub-steps, and on the sub-step that finishes the line, the fetcher is not stepped. */
  lemma OddSubStepsDoNotFetch(t: Line, c: nat, ly: Byte, regs: Registers, lcdc: Byte,
                              vram: seq<Byte>, tile: (Byte, Byte) -> Byte)
    requires Ready(t, ly, vram)
    requires c % 2 == 1 || SubStep(t, c, ly, regs, lcdc, vram, tile).1
    ensures SubStep(t, c, ly, regs, lcdc, vram, tile).0.fetcher ==
      PopState(WindowCheck(t.fetcher, WindowHit(t.lx, ly, regs, lcdc), ly, regs, lcdc), PalettesOf(regs)).0
  {
  }

  /** The window check keeps the fetcher invariant. */
  lemma WindowCheckValid(f: FetcherState, hit: bool, ly: Byte, regs: Registers, lcdc: Byte)
    requires Valid(f)
    ensures Valid(WindowCheck(f, hit, ly, regs, lcdc))
  {
    ResetValid(f, 0, ly - regs.wy, WindowTileMap(lcdc));
  }

  /** On a window hit the fetcher starts over on the window map, at column 0, with nothing queued or to discard. */
  lemma WindowRestarts(f: FetcherState, ly: Byte, regs: Registers, lcdc: Byte)
    ensures var r := WindowCheck(f, true, ly, regs, lcdc);
      r.fifo == [] && r.tileX == 0 && r.tileDiscard == 0 && r.bgMap == WindowTileMap(lcdc)
  {
  }

  // ---------------------------------------------------------------------
  // The transfer state of the PPU.

  class Transfer {
    /** The next pixel of the line. */
    var lx: nat
    /** The registers snapshotted at the start of the line. */
    var snap: Registers
    const fetcher: Fetcher
    /** The current frame. */
    const frame: array<Byte>

    /** The transfer state as a value. */
    function Current(ppu: PPU): Line
      reads this, fetcher, frame, ppu
    {
      Line(lx, fetcher.Snapshot(), ppu.stat, frame[..])
    }

    /** A fresh fetcher and a blank frame. */
    constructor ()
      ensures lx == 0 && fresh(fetcher) && fresh(frame)
      ensures frame.Length == FrameSize && Valid(fetcher.Snapshot())
    {
      lx := 0;
      snap := Registers(0, 0, 0, 0, 0, 0, 0);
      fetcher := new Fetcher();
      frame := new Byte[FrameSize];
    }

    /** startPixelTransfer. */
    method Start(regs: Registers, ly: Byte, lcdc: Byte)
      modifies this`lx, this`snap, fetcher
      ensures snap == regs && lx == 0
      ensures fetcher.Snapshot() == StartFetcher(old(fetcher.Snapshot()), regs, ly, lcdc)
    {
      fetcher.Reset(regs.scx, ly + regs.scy, BgTileMap(lcdc));
      snap, lx := regs, 0;
    }

    /**
     * stepPixelTransfer: four sub-steps, leaving the loop when the line is
     * done. ppu supplies ly and LCDC, and takes the HBlank mode.
     */
    method Step(ppu: PPU, ly: Byte, vram: seq<Byte>, tile: (Byte, Byte) -> Byte)
      requires Ready(Current(ppu), ly, vram)
      modifies this`lx, fetcher, frame, ppu`stat
      ensures Current(ppu) == TransferSteps(old(Current(ppu)), 0, ly, snap, ppu.lcdc, vram, tile)
    {
      var c := 0;
      while c < 4
        invariant 0 <= c <= 4
        invariant c < 4 ==> Ready(Current(ppu), ly, vram)
        invariant TransferSteps(Current(ppu), c, ly, snap, ppu.lcdc, vram, tile) ==
          TransferSteps(old(Current(ppu)), 0, ly, snap, ppu.lcdc, vram, tile)
      {
        var stop := SubStepOf(ppu, ly, c, vram, tile);
        if stop {
          break;
        }
        c := c + 1;
      }
    }

    /** One pass of stepPixelTransfer's loop; the result says the line is done. */
    method SubStepOf(ppu: PPU, ly: Byte, c: nat, vram: seq<Byte>, tile: (Byte, Byte) -> Byte) returns (stop: bool)
      requires Ready(Current(ppu), ly, vram)
      modifies this`lx, fetcher, frame, ppu`stat
      ensures (Current(ppu), stop) == SubStep(old(Current(ppu)), c, ly, snap, ppu.lcdc, vram, tile)
    {
      DrawOf(ppu, ly);
      if lx == FrameWidth {
        ppu.SetModeOf(ModeHBlank);
        return true;
      }
      if c % 2 == 0 {
        fetcher.Step(vram, tile);
      }
      return false;
    }

    /** The first half of a sub-step. */
    method DrawOf(ppu: PPU, ly: Byte)
      requires Valid(fetcher.Snapshot()) && lx < FrameWidth && ly < 144 && frame.Length == FrameSize
      modifies this`lx, fetcher, frame
      ensures Current(ppu) == Draw(old(Current(ppu)), ly, snap, ppu.lcdc)
    {
      WindowOf(WindowHit(lx, ly, snap, ppu.lcdc), ly, ppu.lcdc);
      PopOf(ppu, ly);
    }

    /** A pop, and the popped shade into the frame. */
    method PopOf(ppu: PPU, ly: Byte)
      requires Valid(fetcher.Snapshot()) && lx < FrameWidth && ly < 144 && frame.Length == FrameSize
      modifies this`lx, fetcher, frame
      ensures Current(ppu) == PopPixel(old(Current(ppu)), ly, PalettesOf(snap))
    {
      var color, ok := fetcher.Pop(PalettesOf(snap));
      if ok {
        Plot(ly, color);
      }
    }

    /** The window check at the top of a sub-step. */
    method WindowOf(hit: bool, ly: Byte, lcdc: Byte)
      modifies fetcher`fifo, fetcher`tileX, fetcher`tileY, fetcher`tileDiscard, fetcher`tileOffset, fetcher`bgMap
      ensures fetcher.Snapshot() == WindowCheck(old(fetcher.Snapshot()), hit, ly, snap, lcdc)
    {
      if hit {
        fetcher.Reset(0, ly - snap.wy, WindowTileMap(lcdc));
      }
    }

    /** A popped pixel goes to position lx of line ly, and lx moves on. */
    method Plot(ly: Byte, color: Byte)
      requires ly < 144 && lx < FrameWidth && frame.Length == FrameSize
      modifies this`lx, frame
      ensures lx == old(lx) + 1
      ensures frame[..] == old(frame[..])[PixelIndex(ly, old(lx)) := color]
    {
      frame[PixelIndex(ly, lx)] := color;
      lx := lx + 1;
    }
  }
}
