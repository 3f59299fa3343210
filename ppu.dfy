/**
 * The PPU of the split PPU package (gb/ppu/ppu.go, memory.go, oam.go,
 * transfer.go and the register accessors of tiles.go): its registers, its
 * VRAM and OAM arrays, the interrupt requests it sends to its MMU, OAM
 * search and pixel transfer.
 *
 * The PPU struct declares only the registers, VRAM and OAM; the code of
 * the package also reads and writes bgMap, winMap, tileset, spriteSize,
 * winEnable, lx, sc, mode, oamCache, frame and fetcher, which no file
 * declares. These are fields of the PPU class here: the four LCDC flags
 * as booleans, lx as a byte (it is compared with the byte WX), sc as a
 * 16-bit counter (newSprite takes sc * 2 as its uint16 address), the
 * frame as 160 x 144 shades. The MMU field is a flag saying whether one
 * is attached, and the interrupts requested through it are logged in
 * order.
 *
 * Pixel transfer resets the fetcher to the window on every step at which
 * lx equals WX, so a line that reaches the window never finishes. The
 * class runs that step as written (TransferStepAsWritten); TransferStep is
 * the corrected step, which starts the window once per line and so needs
 * a flag, carried beside the transfer state, saying whether it has started.
 */
module Ppu {
  import opened Bits
  import opened Outcomes
  import opened Sprites
  import opened PpuTiles
  import opened PpuPixel
  import opened PpuFetcher

  /** The interrupts the PPU requests: VBlank is bit 0, STAT is bit 1. */
  const InterruptVBlank: nat := 0
  const InterruptStat: nat := 1

  /** The PPU mode pixel transfer ends in. */
  const ModeHBlank: Byte := 0

  /** The frame: 160 x 144 shades, row by row. */
  const FrameWidth: nat := 160
  const FrameHeight: nat := 144
  const FrameSize: nat := 23040  // FrameWidth * FrameHeight

  // ---------------------------------------------------------------------
  // OAM search.

  /**
   * stepOAMSearch: nothing on even sc or with ten sprites cached; otherwise
   * decode the four bytes at sc * 2 (16-bit arithmetic) and append the
   * sprite when it is on line ly. An address whose four bytes do not fit
   * in OAM is Go's index panic, reported at the first missing index.
   */
  function OamStep(cache: seq<Sprite>, oam: seq<Byte>, sc: Word, ly: Byte, height: Byte): Result<seq<Sprite>>
    requires |oam| == OamSize
  {
    if Even(sc) then Ok(cache)
    else if |cache| == MaxSpritesPerScanline then Ok(cache)
    else
      var a := OamAddr(sc);
      if a + 4 > OamSize then Err(OutOfRange(if a >= OamSize then a else OamSize))
      else
        var s := NewSprite(oam, a);
        Ok(if OnLine(s, ly, height) then cache + [s] else cache)
  }

  /** sc % 2 == 0: the parity of the 16-bit counter, that of its integer value. */
  predicate Even(sc: Word)
  {
    sc as int % 2 == 0
  }

  /** sc * 2 in 16-bit arithmetic, the address newSprite is given. */
  function OamAddr(sc: Word): (a: nat)
    ensures a < 0x10000
  {
    (sc as int * 2) % 0x10000
  }

  /** A search step keeps the cache at ten at most, only appends, and appends at most one sprite. */
  lemma OamStepBounded(cache: seq<Sprite>, oam: seq<Byte>, sc: Word, ly: Byte, height: Byte)
    requires |oam| == OamSize && |cache| <= MaxSpritesPerScanline
    ensures var r := OamStep(cache, oam, sc, ly, height);
      r.Ok? ==> |r.value| <= MaxSpritesPerScanline && cache <= r.value && |r.value| <= |cache| + 1
  {
  }

  /**
   * A step appends exactly when sc is odd, the cache has room, the four
   * bytes at sc * 2 lie in OAM and the sprite they decode to is on the
   * line; the appended sprite is that one.
   */
  lemma OamStepAppends(cache: seq<Sprite>, oam: seq<Byte>, sc: Word, ly: Byte, height: Byte)
    requires |oam| == OamSize
    ensures var r := OamStep(cache, oam, sc, ly, height);
      var a := OamAddr(sc);
      (r.Ok? && |r.value| != |cache|) <==>
        (!Even(sc) && |cache| != MaxSpritesPerScanline && a + 4 <= OamSize && OnLine(NewSprite(oam, a), ly, height))
    ensures var r := OamStep(cache, oam, sc, ly, height);
      r.Ok? && |r.value| != |cache| ==> r.value == cache + [NewSprite(oam, OamAddr(sc))]
  {
  }

  /** Odd values of sc give addresses 2 past a multiple of 4: halfway into a four-byte entry. */
  lemma OddAddress(sc: Word)
    requires !Even(sc)
    ensures OamAddr(sc) % 4 == 2
  {
    OddQuarter(sc as int);
  }

  /** The same on integers: twice an odd number, reduced modulo 0x10000, is 2 modulo 4. */
  lemma OddQuarter(n: int)
    requires n >= 0 && n % 2 != 0
    ensures ((n * 2) % 0x10000) % 4 == 2
  {
    var h := n / 2;
    assert n == 2 * h + 1;
    var q := (2 * n) / 0x10000;
    assert (2 * n) % 0x10000 == 4 * (h - 0x4000 * q) + 2;
  }

  /**
   * Since OAM is decoded only at odd sc, at address a = sc * 2, every
   * decoded "sprite" straddles two OAM entries, those at a - 2 and a + 2:
   * its Y is the first one's tile number, its X the first one's flags
   * byte, its tile number the second one's Y, and its flag bits come from
   * the second one's X.
   */
  lemma OddStepsStraddle(oam: seq<Byte>, sc: Word)
    requires |oam| == OamSize && !Even(sc) && OamAddr(sc) + 4 <= OamSize
    ensures var a := OamAddr(sc);
      && a >= 2 && (a - 2) % 4 == 0 && a + 6 <= OamSize
      && NewSprite(oam, a).posY == NewSprite(oam, a - 2).tileN
      && NewSprite(oam, a).posX == oam[a - 2 + 3]
      && NewSprite(oam, a).tileN == NewSprite(oam, a + 2).posY
      && NewSprite(oam, a).palette == GetBit(NewSprite(oam, a + 2).posX, SpritePalette)
  {
    OddAddress(sc);
    StraddleAt(oam, OamAddr(sc));
  }

  /** The straddle at an address 2 past a multiple of 4. */
  lemma StraddleAt(oam: seq<Byte>, a: nat)
    requires |oam| == OamSize && a % 4 == 2 && a + 4 <= OamSize
    ensures
      && a >= 2 && (a - 2) % 4 == 0 && a + 6 <= OamSize
      && NewSprite(oam, a).posY == NewSprite(oam, a - 2).tileN
      && NewSprite(oam, a).posX == oam[a - 2 + 3]
      && NewSprite(oam, a).tileN == NewSprite(oam, a + 2).posY
      && NewSprite(oam, a).palette == GetBit(NewSprite(oam, a + 2).posX, SpritePalette)
  {
    var k := a / 4;
    assert a == 4 * k + 2;
  }

  // ---------------------------------------------------------------------
  // Pixel transfer.

  /** What pixel transfer reads and never changes: the registers and the stand-in flags. */
  datatype TransferInputs = TransferInputs(
    scy: Byte, scx: Byte, ly: Byte, wx: Byte, wy: Byte, pal: Palettes,
    winEnable: bool, bgMap1: bool, winMap1: bool, tileset1: bool, sc: Word)

  /** What pixel transfer changes besides the frame: the fetcher, lx and the mode. */
  datatype Transfer = Transfer(fetch: FetcherState, lx: Byte, mode: Byte)

  /** A pixel put in the frame: its index and shade. */
  datatype Plot = Plot(index: nat, shade: Byte)

  /** The outcome of a transfer step: the new state and the pixel it drew, if any. */
  datatype Drawn = Drawn(t: Transfer, plot: Option<Plot>)

  /**
   * startPixelTransfer: aim the fetcher at (SCX, ly + SCY) of the
   * background map and start the line at column 0.
   */
  function StartTransfer(t: Transfer, v: TransferInputs): Transfer
  {
    Transfer(ResetState(t.fetch, v.scx, v.ly + v.scy, MapAddr(v.bgMap1)), 0, t.mode)
  }

  /** The window condition: the window is on, the line is at or below WY and the next pixel is column WX. */
  predicate WindowHit(t: Transfer, v: TransferInputs)
  {
    v.winEnable && t.lx == v.wx && v.ly >= v.wy
  }

  /** The fetcher aimed at column 0 and line ly - WY of the window map. */
  function WindowReset(f: FetcherState, v: TransferInputs): FetcherState
  {
    ResetState(f, 0, v.ly - v.wy, MapAddr(v.winMap1))
  }

  /** The window check as written: reset the fetcher whenever the condition holds. */
  function WindowCheckAsWritten(t: Transfer, v: TransferInputs): Transfer
  {
    if WindowHit(t, v) then t.(fetch := WindowReset(t.fetch, v)) else t
  }

  /**
   * The window check as intended: reset the fetcher when the condition
   * first holds on this line, that is, while the window has not started.
   */
  function WindowStart(t: Transfer, v: TransferInputs, started: bool): Transfer
  {
    if !started && WindowHit(t, v) then t.(fetch := WindowReset(t.fetch, v)) else t
  }

  /** Whether the window has started on this line after the intended check. */
  predicate WindowStarted(t: Transfer, v: TransferInputs, started: bool)
  {
    started || WindowHit(t, v)
  }

  /** The frame index of pixel (lx, ly). */
  function PixelIndex(ly: Byte, lx: Byte): nat
  {
    ly as nat * 160 + lx as nat
  }

  /**
   * The pop: a shade the fetcher hands out is drawn at (lx, ly) and lx
   * moves on; an index past the frame is Go's index panic.
   */
  function Draw(t: Transfer, v: TransferInputs): Result<Drawn>
  {
    var p := PopState(t.fetch, v.pal);
    if !p.2 then Ok(Drawn(t.(fetch := p.0), None))
    else
      var i := PixelIndex(v.ly, t.lx);
      if i >= FrameSize then Err(OutOfRange(i))
      else Ok(Drawn(t.(fetch := p.0, lx := t.lx + 1), Some(Plot(i, p.1))))
  }

  /** The end of a step: HBlank once 160 pixels are out, otherwise a fetcher step on even sc. */
  function Finish(t: Transfer, v: TransferInputs, vram: seq<Byte>): Result<Transfer>
    requires PpuFetcher.Valid(t.fetch) && |vram| == VramSize
  {
    if t.lx == 160 then Ok(t.(mode := ModeHBlank))
    else if Even(v.sc) then
      var r := StepState(t.fetch, vram, v.tileset1);
      if r.Err? then Err(r.failure) else Ok(t.(fetch := r.value))
    else Ok(t)
  }

  /** A whole step after the window check: the pop, then the end of the step. */
  function DrawAndFinish(t: Transfer, v: TransferInputs, vram: seq<Byte>): Result<Drawn>
    requires PpuFetcher.Valid(t.fetch) && |vram| == VramSize
  {
    DrawValid(t, v);
    var d := Draw(t, v);
    if d.Err? then d
    else
      var f := Finish(d.value.t, v, vram);
      if f.Err? then Err(f.failure) else Ok(Drawn(f.value, d.value.plot))
  }

  /** stepPixelTransfer as written. */
  function TransferStepAsWritten(t: Transfer, v: TransferInputs, vram: seq<Byte>): Result<Drawn>
    requires PpuFetcher.Valid(t.fetch) && |vram| == VramSize
  {
    WindowCheckValid(t, v, true);
    DrawAndFinish(WindowCheckAsWritten(t, v), v, vram)
  }

  /**
   * stepPixelTransfer with the window started once per line; the flag
   * after the step is WindowStarted(t, v, started).
   */
  function TransferStep(t: Transfer, started: bool, v: TransferInputs, vram: seq<Byte>): Result<Drawn>
    requires PpuFetcher.Valid(t.fetch) && |vram| == VramSize
  {
    WindowCheckValid(t, v, started);
    DrawAndFinish(WindowStart(t, v, started), v, vram)
  }

  /** Both window checks keep the fetcher invariant. */
  lemma WindowCheckValid(t: Transfer, v: TransferInputs, started: bool)
    requires PpuFetcher.Valid(t.fetch)
    ensures PpuFetcher.Valid(WindowCheckAsWritten(t, v).fetch)
    ensures PpuFetcher.Valid(WindowStart(t, v, started).fetch)
  {
    ResetValid(t.fetch, 0, v.ly - v.wy, MapAddr(v.winMap1));
  }

  /** The pop keeps the fetcher invariant and draws only inside the frame. */
  lemma DrawValid(t: Transfer, v: TransferInputs)
    requires PpuFetcher.Valid(t.fetch)
    ensures var d := Draw(t, v);
      d.Ok? ==> PpuFetcher.Valid(d.value.t.fetch) && (d.value.plot.Some? ==> d.value.plot.value.index < FrameSize)
  {
    PopValid(t.fetch, v.pal);
    var p := PopState(t.fetch, v.pal);
    var d := Draw(t, v);
    if d.Ok? {
      assert d.value.t.fetch == p.0;
    }
  }

  /**
   * Starting a line empties the FIFO, aims at the tile column holding
   * pixel SCX of the background map, and sets lx to 0.
   */
  lemma StartTransferAims(t: Transfer, v: TransferInputs)
    ensures var r := StartTransfer(t, v);
      && PpuFetcher.Valid(r.fetch) && r.fetch.fifo == [] && r.fetch.state == FetcherTile
      && r.fetch.bgMap == MapAddr(v.bgMap1) && r.fetch.tileX * 8 + v.scx % 8 == v.scx
      && r.lx == 0
  {
    ResetValid(t.fetch, v.scx, v.ly + v.scy, MapAddr(v.bgMap1));
    ResetDiscard(t.fetch, v.scx, v.ly + v.scy, MapAddr(v.bgMap1));
  }

  /** A step keeps the fetcher invariant. */
  lemma TransferStepValid(t: Transfer, v: TransferInputs, vram: seq<Byte>)
    requires PpuFetcher.Valid(t.fetch) && |vram| == VramSize
    ensures var r := TransferStepAsWritten(t, v, vram);
      r.Ok? ==> PpuFetcher.Valid(r.value.t.fetch)
  {
    WindowCheckValid(t, v, true);
    DrawAndFinishValid(WindowCheckAsWritten(t, v), v, vram);
  }

  /** The pop and the end of a step keep the fetcher invariant. */
  lemma DrawAndFinishValid(w: Transfer, v: TransferInputs, vram: seq<Byte>)
    requires PpuFetcher.Valid(w.fetch) && |vram| == VramSize
    ensures var r := DrawAndFinish(w, v, vram);
      r.Ok? ==> PpuFetcher.Valid(r.value.t.fetch)
  {
    var r := DrawAndFinish(w, v, vram);
    if r.Ok? {
      StepParts(w, v, vram);
      FinishValid(Draw(w, v).value.t, v, vram);
    }
  }

  /**
   * A step that succeeds is the pop on the window-checked state followed
   * by the end of the step: both succeed, and the step's plot is the pop's.
   */
  lemma StepParts(w: Transfer, v: TransferInputs, vram: seq<Byte>)
    requires PpuFetcher.Valid(w.fetch) && |vram| == VramSize
    requires DrawAndFinish(w, v, vram).Ok?
    ensures var r := DrawAndFinish(w, v, vram);
      && Draw(w, v).Ok?
      && PpuFetcher.Valid(Draw(w, v).value.t.fetch)
      && Finish(Draw(w, v).value.t, v, vram) == Ok(r.value.t)
      && r.value.plot == Draw(w, v).value.plot
  {
    DrawValid(w, v);
  }

  /** The end of a step keeps the fetcher invariant. */
  lemma FinishValid(t: Transfer, v: TransferInputs, vram: seq<Byte>)
    requires PpuFetcher.Valid(t.fetch) && |vram| == VramSize
    ensures Finish(t, v, vram).Ok? ==> PpuFetcher.Valid(Finish(t, v, vram).value.fetch)
  {
    StepValid(t.fetch, vram, v.tileset1);
  }

  /**
   * The end of a step keeps lx. At lx = 160 it enters
   * HBlank without stepping the fetcher; otherwise the mode stays, and on
   * odd sc nothing changes.
   */
  lemma FinishKeeps(t: Transfer, v: TransferInputs, vram: seq<Byte>)
    requires PpuFetcher.Valid(t.fetch) && |vram| == VramSize
    ensures var f := Finish(t, v, vram);
      f.Ok? ==>
        && f.value.lx == t.lx
        && (t.lx == 160 ==> f.value == t.(mode := ModeHBlank))
        && (t.lx != 160 ==> f.value.mode == t.mode)
        && (t.lx != 160 && !Even(v.sc) ==> f.value == t)
  {
  }

  /** With the fetcher on its background path, the end of a step cannot fail and stays on that path. */
  lemma FinishSucceeds(t: Transfer, v: TransferInputs, vram: seq<Byte>)
    requires PpuFetcher.Valid(t.fetch) && |vram| == VramSize && t.fetch.state <= FetcherIdle
    ensures Finish(t, v, vram).Ok? && Finish(t, v, vram).value.fetch.state <= FetcherIdle
  {
    if t.lx != 160 && Even(v.sc) {
      BgTransitions(t.fetch, vram, v.tileset1);
    }
  }

  /**
   * The pop draws a pixel exactly when it moves lx on by one; otherwise lx
   * stays.
   */
  lemma DrawOutcome(t: Transfer, v: TransferInputs)
    requires PpuFetcher.Valid(t.fetch)
    ensures var d := Draw(t, v);
      d.Ok? ==>
        && (d.value.plot.Some? <==> d.value.t.lx == t.lx + 1)
        && (d.value.plot.None? ==> d.value.t.lx == t.lx)
  {
    PopValid(t.fetch, v.pal);
  }

  /**
   * What drawing a popped shade does to lx and the frame: nothing without
   * a shade; otherwise the shade lands at (lx0, ly) and lx moves on, or,
   * past the frame, nothing changes and the step fails.
   */
  ghost predicate Plotting(ly: Byte, lx0: Byte, shade: Byte, popped: bool,
                           ok: bool, plot: Option<Plot>, lx: Byte, after: seq<Byte>, before: seq<Byte>)
  {
    if !popped then ok && plot.None? && lx == lx0 && after == before
    else
      var i := PixelIndex(ly, lx0);
      && ok == (i < FrameSize)
      && (ok ==> lx == lx0 + 1 && plot == Some(Plot(i, shade)) && i < |before| && after == before[i := shade])
      && (!ok ==> lx == lx0 && after == before)
  }

  /**
   * The pop, given what the fetcher's pop returned and what was then
   * drawn: nothing without a pixel, otherwise the shade at (lx, ly) with
   * lx moved on, or a failure past the frame.
   */
  lemma DrawDone(t: Transfer, v: TransferInputs, f: FetcherState, shade: Byte, popped: bool,
                 ok: bool, plot: Option<Plot>, lx: Byte, after: seq<Byte>, before: seq<Byte>)
    requires (f, shade, popped) == PopState(t.fetch, v.pal)
    requires Plotting(v.ly, t.lx, shade, popped, ok, plot, lx, after, before)
    ensures var d := Draw(t, v);
      && ok == d.Ok?
      && (ok ==> Transfer(f, lx, t.mode) == d.value.t && plot == d.value.plot && Plotted(after, before, plot))
  {
  }

  /** A drawn pixel is at (lx, ly), inside the frame, with a shade in 0..3. */
  lemma DrawPlots(t: Transfer, v: TransferInputs)
    ensures var d := Draw(t, v);
      d.Ok? && d.value.plot.Some? ==>
        d.value.plot.value.index == PixelIndex(v.ly, t.lx) < FrameSize && d.value.plot.value.shade <= 3
  {
  }

  /** The pop keeps the mode and the fetcher state. */
  lemma DrawKeeps(t: Transfer, v: TransferInputs)
    ensures var d := Draw(t, v);
      d.Ok? ==>
        && d.value.t.mode == t.mode
        && d.value.t.fetch.state == t.fetch.state
        && d.value.t.fetch == PopState(t.fetch, v.pal).0
  {
  }

  /** On a visible line with a column left, the pop cannot fail. */
  lemma DrawSucceeds(t: Transfer, v: TransferInputs)
    requires v.ly as int < FrameHeight && t.lx as int < FrameWidth
    ensures Draw(t, v).Ok?
  {
  }

  /** A step draws a pixel exactly when it moves lx on by one; otherwise lx stays. */
  lemma TransferStepDraws(t: Transfer, v: TransferInputs, vram: seq<Byte>)
    requires PpuFetcher.Valid(t.fetch) && |vram| == VramSize
    ensures var r := TransferStepAsWritten(t, v, vram);
      r.Ok? ==>
        && (r.value.plot.Some? <==> r.value.t.lx == t.lx + 1)
        && (r.value.plot.None? ==> r.value.t.lx == t.lx)
  {
    WindowCheckValid(t, v, true);
    var w := WindowCheckAsWritten(t, v);
    assert w.lx == t.lx;
    assert TransferStepAsWritten(t, v, vram) == DrawAndFinish(w, v, vram);
    DrawAndFinishDraws(w, v, vram);
  }

  /** After the window check, a step draws a pixel exactly when it moves lx on by one. */
  lemma DrawAndFinishDraws(w: Transfer, v: TransferInputs, vram: seq<Byte>)
    requires PpuFetcher.Valid(w.fetch) && |vram| == VramSize
    ensures var r := DrawAndFinish(w, v, vram);
      r.Ok? ==>
        && (r.value.plot.Some? <==> r.value.t.lx == w.lx + 1)
        && (r.value.plot.None? ==> r.value.t.lx == w.lx)
  {
    var r := DrawAndFinish(w, v, vram);
    if r.Ok? {
      StepParts(w, v, vram);
      var d := Draw(w, v).value;
      DrawOutcome(w, v);
      FinishKeeps(d.t, v, vram);
      LxCarried(w.lx, d, r.value);
    }
  }

  /** A step's plot and lx move together when its pop's do and the end of the step keeps lx. */
  lemma LxCarried(lx: Byte, d: Drawn, r: Drawn)
    requires (d.plot.Some? <==> d.t.lx == lx + 1) && (d.plot.None? ==> d.t.lx == lx)
    requires r.plot == d.plot && r.t.lx == d.t.lx
    ensures (r.plot.Some? <==> r.t.lx == lx + 1) && (r.plot.None? ==> r.t.lx == lx)
  {
  }

  /** The pixel a step draws is at (lx, ly), inside the frame, with a shade in 0..3. */
  lemma TransferStepPlots(t: Transfer, v: TransferInputs, vram: seq<Byte>)
    requires PpuFetcher.Valid(t.fetch) && |vram| == VramSize
    ensures var r := TransferStepAsWritten(t, v, vram);
      r.Ok? && r.value.plot.Some? ==>
        r.value.plot.value.index == PixelIndex(v.ly, t.lx) < FrameSize && r.value.plot.value.shade <= 3
  {
    WindowCheckValid(t, v, true);
    DrawPlots(WindowCheckAsWritten(t, v), v);
  }

  /**
   * A step ends in HBlank exactly when lx has reached 160, and then the
   * fetcher is not stepped; otherwise the mode stays and on odd sc the
   * fetcher only pops.
   */
  lemma TransferStepEnds(t: Transfer, v: TransferInputs, vram: seq<Byte>)
    requires PpuFetcher.Valid(t.fetch) && |vram| == VramSize && t.mode != ModeHBlank
    ensures var r := TransferStepAsWritten(t, v, vram);
      var w := WindowCheckAsWritten(t, v);
      r.Ok? ==>
        && (r.value.t.mode == ModeHBlank <==> r.value.t.lx == 160)
        && (r.value.t.lx == 160 || !Even(v.sc) ==> r.value.t.fetch == PopState(w.fetch, v.pal).0)
  {
    WindowCheckValid(t, v, true);
    var w := WindowCheckAsWritten(t, v);
    DrawValid(w, v);
    DrawKeeps(w, v);
    var d := Draw(w, v);
    if d.Ok? {
      FinishKeeps(d.value.t, v, vram);
    }
  }

  /**
   * On a visible line, with a column left and the fetcher on its
   * background path, a step cannot fail, and the fetcher stays on its
   * background path.
   */
  lemma TransferStepSucceeds(t: Transfer, v: TransferInputs, vram: seq<Byte>)
    requires PpuFetcher.Valid(t.fetch) && |vram| == VramSize
    requires v.ly as int < FrameHeight && t.lx as int < FrameWidth && t.fetch.state <= FetcherIdle
    ensures TransferStepAsWritten(t, v, vram).Ok?
    ensures TransferStepAsWritten(t, v, vram).value.t.fetch.state <= FetcherIdle
  {
    WindowCheckValid(t, v, true);
    ResetValid(t.fetch, 0, v.ly - v.wy, MapAddr(v.winMap1));
    DrawAndFinishSucceeds(WindowCheckAsWritten(t, v), v, vram);
  }

  /**
   * After the window check, on a visible line with a column left and the
   * fetcher on its background path, the pop and the end of the step
   * cannot fail, and the fetcher stays on its background path.
   */
  lemma DrawAndFinishSucceeds(w: Transfer, v: TransferInputs, vram: seq<Byte>)
    requires PpuFetcher.Valid(w.fetch) && |vram| == VramSize
    requires v.ly as int < FrameHeight && w.lx as int < FrameWidth && w.fetch.state <= FetcherIdle
    ensures DrawAndFinish(w, v, vram).Ok?
    ensures DrawAndFinish(w, v, vram).value.t.fetch.state <= FetcherIdle
  {
    DrawValid(w, v);
    DrawKeeps(w, v);
    DrawSucceeds(w, v);
    FinishSucceeds(Draw(w, v).value.t, v, vram);
  }

  /**
   * The window check as written stalls a line: once lx equals WX with the
   * window on and the line at or below WY, a step resets the fetcher,
   * draws nothing and leaves lx where it was, so the condition holds again
   * at the next step, whatever the fetcher held.
   */
  lemma WindowStallsAsWritten(t: Transfer, v: TransferInputs, vram: seq<Byte>)
    requires PpuFetcher.Valid(t.fetch) && |vram| == VramSize
    requires WindowHit(t, v) && t.lx as int < FrameWidth
    ensures TransferStepAsWritten(t, v, vram).Ok?
    ensures var r := TransferStepAsWritten(t, v, vram).value;
      r.plot.None? && r.t.lx == t.lx && WindowHit(r.t, v) && r.t.fetch.bgMap == MapAddr(v.winMap1)
  {
    WindowCheckValid(t, v, true);
    var w := WindowCheckAsWritten(t, v);
    assert w.fetch.fifo == [];
    DrawValid(w, v);
    var d := Draw(w, v);
    assert d == Ok(Drawn(w, None));
    BgTransitions(w.fetch, vram, v.tileset1);
  }

  /**
   * Corrected: once the window has started, the window condition no
   * longer resets the fetcher, so a step with more than 8 pixels queued
   * and no discard credit left draws a pixel and moves lx on, also at
   * column WX.
   */
  lemma WindowLetsPixelsThrough(t: Transfer, v: TransferInputs, vram: seq<Byte>)
    requires PpuFetcher.Valid(t.fetch) && |vram| == VramSize
    requires v.ly as int < FrameHeight && t.lx as int < FrameWidth
    requires |t.fetch.fifo| > 8 && t.fetch.state <= FetcherIdle && t.fetch.tileDiscard == 0
    ensures TransferStep(t, true, v, vram).Ok?
    ensures TransferStep(t, true, v, vram).value.plot.Some? && TransferStep(t, true, v, vram).value.t.lx == t.lx + 1
  {
    assert WindowStart(t, v, true) == t;
    DrawAndFinishSucceeds(t, v, vram);
    DrawAndFinishDraws(t, v, vram);
  }

  /**
   * Corrected: the window resets the fetcher on the first step that meets
   * it, which starts the window, and on no later step of the line.
   */
  lemma WindowStartsOnce(t: Transfer, v: TransferInputs, started: bool)
    ensures WindowHit(t, v) && !started ==>
      WindowStarted(t, v, started) && WindowStart(t, v, started).fetch == WindowReset(t.fetch, v)
    ensures started ==> WindowStarted(t, v, started) && WindowStart(t, v, started) == t
    ensures !WindowHit(t, v) ==> WindowStart(t, v, started) == t
  {
  }

  // ---------------------------------------------------------------------
  // The PPU.

  class PPU {
    /** Whether an MMU is attached (p.mmu != nil), and the interrupts requested through it, oldest first. */
    var attached: bool
    var requested: seq<nat>

    var lcdc: Byte
    var stat: Byte
    var scy: Byte
    var scx: Byte
    var ly: Byte
    var lyc: Byte
    var bgp: Byte
    var obp0: Byte
    var obp1: Byte
    var wx: Byte
    var wy: Byte

    const vram: array<Byte>
    const oam: array<Byte>

    /** The LCDC flags tiles.go and transfer.go read, as booleans. */
    var bgMap1: bool
    var winMap1: bool
    var tileset1: bool
    var largeSprites: bool
    var winEnable: bool

    var lx: Byte
    var sc: Word
    var mode: Byte
    var oamCache: seq<Sprite>
    const frame: array<Byte>
    const fetcher: Fetcher

    /** The arrays have their sizes and are distinct, and the fetcher keeps its invariant. */
    ghost predicate Valid()
      reads this, fetcher
    {
      && vram.Length == VramSize && oam.Length == OamSize && frame.Length == FrameSize
      && vram != oam && vram != frame && oam != frame
      && PpuFetcher.Valid(fetcher.Snapshot())
    }

    /** The registers and flags pixel transfer reads. */
    function Inputs(): TransferInputs
      reads this
    {
      TransferInputs(scy, scx, ly, wx, wy, Palettes(bgp, obp0, obp1), winEnable, bgMap1, winMap1, tileset1, sc)
    }

    /** The state pixel transfer changes, besides the frame. */
    function TransferState(): Transfer
      reads this, fetcher
    {
      Transfer(fetcher.Snapshot(), lx, mode)
    }

    /** A PPU with zeroed memory and registers and a fresh fetcher. */
    constructor (withMmu: bool)
      ensures Valid() && fresh(vram) && fresh(oam) && fresh(frame) && fresh(fetcher)
      ensures attached == withMmu && requested == [] && oamCache == []
      ensures vram[..] == seq(VramSize, _ => 0) && oam[..] == seq(OamSize, _ => 0)
    {
      attached, requested := withMmu, [];
      lcdc, stat, scy, scx, ly, lyc := 0, 0, 0, 0, 0, 0;
      bgp, obp0, obp1, wx, wy := 0, 0, 0, 0, 0;
      vram := new Byte[VramSize](_ => 0);
      oam := new Byte[OamSize](_ => 0);
      frame := new Byte[FrameSize](_ => 0);
      fetcher := new Fetcher();
      bgMap1, winMap1, tileset1, largeSprites, winEnable := false, false, false, false, false;
      lx, sc, mode, oamCache := 0, 0, 0, [];
    }

    // -------------------------------------------------------------------
    // Memory.

    /** ReadVRAM: the byte at addr, for an address below 0x4000. */
    method ReadVRAM(addr: Word) returns (v: Byte)
      requires vram.Length == VramSize && addr as int < VramSize
      ensures v == vram[addr]
    {
      v := vram[addr];
    }

    /** ReadOAM: the byte at addr, for an address below 0x100. */
    method ReadOAM(addr: Word) returns (v: Byte)
      requires oam.Length == OamSize && addr as int < OamSize
      ensures v == oam[addr]
    {
      v := oam[addr];
    }

    /** WriteVRAM: a later read at addr returns v, and every other byte keeps its value. */
    method WriteVRAM(addr: Word, v: Byte)
      requires vram.Length == VramSize && addr as int < VramSize
      modifies vram
      ensures vram[addr] == v
      ensures forall i :: 0 <= i < VramSize && i != addr as int ==> vram[i] == old(vram[i])
    {
      vram[addr] := v;
    }

    /** WriteOAM: a later read at addr returns v, and every other byte keeps its value. */
    method WriteOAM(addr: Word, v: Byte)
      requires oam.Length == OamSize && addr as int < OamSize
      modifies oam
      ensures oam[addr] == v
      ensures forall i :: 0 <= i < OamSize && i != addr as int ==> oam[i] == old(oam[i])
    {
      oam[addr] := v;
    }

    /** interruptVBlank: bit 0 is requested when an MMU is attached, nothing otherwise. */
    method RequestVBlank()
      modifies this`requested
      ensures requested == old(requested) + (if attached then [InterruptVBlank] else [])
    {
      if attached {
        requested := requested + [InterruptVBlank];
      }
    }

    /** interruptSTAT: bit 1 is requested when an MMU is attached, nothing otherwise. */
    method RequestStat()
      modifies this`requested
      ensures requested == old(requested) + (if attached then [InterruptStat] else [])
    {
      if attached {
        requested := requested + [InterruptStat];
      }
    }

    // -------------------------------------------------------------------
    // Register accessors.

    function BGP(): Byte reads this { bgp }
    function OBP0(): Byte reads this { obp0 }
    function OBP1(): Byte reads this { obp1 }
    function SCY(): Byte reads this { scy }
    function SCX(): Byte reads this { scx }
    function WY(): Byte reads this { wy }
    function WX(): Byte reads this { wx }

    method SetBGP(v: Byte)
      modifies this`bgp
      ensures BGP() == v
    {
      bgp := v;
    }

    method SetOBP0(v: Byte)
      modifies this`obp0
      ensures OBP0() == v
    {
      obp0 := v;
    }

    method SetOBP1(v: Byte)
      modifies this`obp1
      ensures OBP1() == v
    {
      obp1 := v;
    }

    method SetSCY(v: Byte)
      modifies this`scy
      ensures SCY() == v
    {
      scy := v;
    }

    method SetSCX(v: Byte)
      modifies this`scx
      ensures SCX() == v
    {
      scx := v;
    }

    method SetWY(v: Byte)
      modifies this`wy
      ensures WY() == v
    {
      wy := v;
    }

    method SetWX(v: Byte)
      modifies this`wx
      ensures WX() == v
    {
      wx := v;
    }

    // -------------------------------------------------------------------
    // OAM search.

    /** startOAMSearch: empty the cache. */
    method StartOAMSearch()
      modifies this`oamCache
      ensures oamCache == []
    {
      oamCache := [];
    }

    /**
     * stepOAMSearch. The result is false where Go would panic on an OAM
     * index, and the cache is then unchanged.
     */
    method StepOAMSearch() returns (ok: bool)
      requires Valid()
      modifies this`oamCache
      ensures var r := OamStep(old(oamCache), old(oam[..]), sc, ly, SpriteHeight(largeSprites));
        && ok == r.Ok?
        && (ok ==> oamCache == r.value)
        && (!ok ==> oamCache == old(oamCache))
    {
      var addr := OamAddr(sc);
      if Even(sc) || |oamCache| == MaxSpritesPerScanline {
        ok := true;
      } else if addr + 4 > oam.Length {
        ok := false;
      } else {
        var sprite := NewSprite(oam[..], addr);
        if OnLine(sprite, ly, SpriteHeight(largeSprites)) {
          oamCache := oamCache + [sprite];
        }
        ok := true;
      }
    }

    // -------------------------------------------------------------------
    // Pixel transfer.

    /** startPixelTransfer. */
    method StartPixelTransfer()
      modifies this`lx, fetcher
      ensures TransferState() == StartTransfer(old(TransferState()), old(Inputs()))
    {
      fetcher.Reset(scx, ly + scy, MapAddr(bgMap1));
      lx := 0;
    }

    /**
     * stepPixelTransfer, with the window check as written. The result is
     * false where Go would panic, on a frame index or in the fetcher; the
     * state is then left as the panic found it.
     */
    method StepPixelTransfer() returns (ok: bool)
      requires Valid()
      modifies this`lx, this`mode, fetcher, frame
      ensures ok ==> Valid()
      ensures var r := TransferStepAsWritten(old(TransferState()), old(Inputs()), vram[..]);
        && ok == r.Ok?
        && (ok ==> TransferState() == r.value.t && Plotted(frame[..], old(frame[..]), r.value.plot))
    {
      WindowCheckOf();
      var plot;
      ok, plot := DrawOf();
      if ok {
        ok := FinishOf();
      }
    }

    /** The window check at the top of a step: a reset whenever the window condition holds. */
    method WindowCheckOf()
      requires PpuFetcher.Valid(fetcher.Snapshot())
      modifies fetcher
      ensures PpuFetcher.Valid(fetcher.Snapshot())
      ensures TransferState() == WindowCheckAsWritten(old(TransferState()), old(Inputs()))
    {
      WindowCheckValid(TransferState(), Inputs(), true);
      if WindowHit(TransferState(), Inputs()) {
        ResetToWindow();
      }
    }

    /** The fetcher aimed at column 0 and line ly - WY of the window map. */
    method ResetToWindow()
      modifies fetcher
      ensures TransferState() == old(TransferState()).(fetch := WindowReset(old(fetcher.Snapshot()), old(Inputs())))
    {
      fetcher.Reset(0, ly - wy, MapAddr(winMap1));
    }

    /** The pop, and the pixel it draws. */
    method DrawOf() returns (ok: bool, plot: Option<Plot>)
      requires frame.Length == FrameSize && PpuFetcher.Valid(fetcher.Snapshot())
      modifies this`lx, fetcher, frame
      ensures ok ==> PpuFetcher.Valid(fetcher.Snapshot())
      ensures var d := Draw(old(TransferState()), old(Inputs()));
        && ok == d.Ok?
        && (ok ==> TransferState() == d.value.t && plot == d.value.plot && Plotted(frame[..], old(frame[..]), plot))
    {
      ghost var t0, v0 := TransferState(), Inputs();
      PopValid(fetcher.Snapshot(), Palettes(bgp, obp0, obp1));
      var shade, popped := fetcher.Pop(Palettes(bgp, obp0, obp1));
      ok, plot := PlotPixel(shade, popped);
      DrawDone(t0, v0, fetcher.Snapshot(), shade, popped, ok, plot, lx, frame[..], old(frame[..]));
    }

    /**
     * The drawing half of the pop: without a popped pixel nothing happens;
     * otherwise lx moves on and the shade goes to (lx, ly), and an index
     * past the frame fails.
     */
    method PlotPixel(shade: Byte, popped: bool) returns (ok: bool, plot: Option<Plot>)
      requires frame.Length == FrameSize
      modifies this`lx, frame
      ensures Plotting(ly, old(lx), shade, popped, ok, plot, lx, frame[..], old(frame[..]))
    {
      var i := PixelIndex(ly, lx);
      if !popped {
        ok, plot := true, None;
      } else if i >= frame.Length {
        ok, plot := false, None;
      } else {
        lx := lx + 1;
        frame[i] := shade;
        ok, plot := true, Some(Plot(i, shade));
      }
    }

    /** The end of a step. */
    method FinishOf() returns (ok: bool)
      requires vram.Length == VramSize && PpuFetcher.Valid(fetcher.Snapshot())
      modifies this`mode, fetcher
      ensures ok ==> PpuFetcher.Valid(fetcher.Snapshot())
      ensures var f := Finish(old(TransferState()), old(Inputs()), vram[..]);
        ok == f.Ok? && (ok ==> TransferState() == f.value)
    {
      if lx == 160 {
        mode := ModeHBlank;
        return true;
      }
      if Even(sc) {
        StepValid(fetcher.Snapshot(), vram[..], tileset1);
        ok := fetcher.Step(vram[..], tileset1);
      } else {
        ok := true;
      }
    }
  }

  /** The frame after a step: one pixel changed, or none. */
  ghost predicate Plotted(after: seq<Byte>, before: seq<Byte>, plot: Option<Plot>)
  {
    if plot.None? then after == before
    else plot.value.index < |before| && after == before[plot.value.index := plot.value.shade]
  }
}
