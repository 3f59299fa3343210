/**
 * The background pixel fetcher of the monolithic PPU (gb/fetcher.go): a
 * four-state machine that reads a tile number and two bytes of tile data
 * and loads eight pixels at a time into a FIFO, from which the pixel
 * transfer pops one pixel per clock. The functions over FetcherState are
 * what each method does; the Fetcher class runs them in place.
 *
 * The fetcher reads ppu.vram and calls ppu.Tile, neither of which the
 * PPU of that package defines. VRAM is a parameter here, a byte sequence
 * indexed from the start of video RAM, and Tile is a parameter function
 * from tile number and row offset to a byte of tile data.
 */
module GbFetcher {
  import opened Bits
  import opened GbPixel

  /** Fetcher states. */
  const FetcherTile: Byte := 0
  const FetcherData0: Byte := 1
  const FetcherData1: Byte := 2
  const FetcherIdle: Byte := 3

  /** Size of video RAM; the tile maps are its last 0x800 bytes. */
  const VramSize: nat := 0x2000
  /** The highest tile-map base: a map is 32 x 32 tile numbers. */
  const LastMapBase: Word := 0x1C00

  /** The fields of the Fetcher struct other than its reference to the PPU. */
  datatype FetcherState = FetcherState(
    fifo: seq<Pixel>,
    state: Byte,
    bgMap: Word,
    tileX: Byte, tileY: Byte, tileDiscard: Byte, tileOffset: Byte,
    tileN: Byte, data0: Byte, data1: Byte)

  /**
   * What every operation keeps: at most 16 queued background pixels with
   * 2-bit colour numbers, tile coordinates inside the 32 x 32 map, and a
   * map base whose map lies inside VRAM.
   */
  ghost predicate Valid(s: FetcherState)
  {
    && |s.fifo| <= 16
    && BgPixels(s.fifo)
    && s.tileX < 32 && s.tileY < 32
    && s.bgMap <= LastMapBase
  }

  /** Background pixels with 2-bit colour numbers. */
  ghost predicate BgPixels(f: seq<Pixel>)
  {
    forall i :: 0 <= i < |f| ==> f[i].data <= 3 && f[i].src == PixelSrcBG
  }

  /** Reset: empty the FIFO and aim at the tile under (x, y) of the given map. */
  function ResetState(s: FetcherState, x: Byte, y: Byte, mapAddr: Word): FetcherState
  {
    s.(fifo := [],
       tileX := (x & 0xF8) >> 3, tileY := (y & 0xF8) >> 3,
       tileDiscard := x & 0x03, tileOffset := (y % 8) * 2,
       bgMap := mapAddr)
  }

  /**
   * Pop: with more than 8 pixels queued, remove the front one; it is
   * dropped while discard credit remains, otherwise resolved to a shade.
   * The flag says whether a shade was produced.
   */
  function PopState(s: FetcherState, pal: Palettes): (FetcherState, Byte, bool)
  {
    if |s.fifo| <= 8 then (s, 0, false)
    else if s.tileDiscard > 0 then (s.(fifo := s.fifo[1..], tileDiscard := s.tileDiscard - 1), 0, false)
    else (s.(fifo := s.fifo[1..]), Resolve(pal, s.fifo[0]), true)
  }

  /** The colour number of column i of a tile row: bit i of the low and of the high data byte. */
  function ColourBits(data0: Byte, data1: Byte, i: nat): (c: Byte)
    requires i < 8
    ensures c <= 3
  {
    ((data0 >> i) & 1) | (((data1 >> i) & 1) << 1)
  }

  /** The eight background pixels of a tile row, leftmost (bit 7) first. */
  function Row(data0: Byte, data1: Byte): (r: seq<Pixel>)
    ensures |r| == 8
  {
    seq(8, k requires 0 <= k < 8 => Pixel(ColourBits(data0, data1, 7 - k), PixelSrcBG))
  }

  /**
   * load: with at most 8 pixels queued, append a tile row and move to the
   * next tile column, modulo 32 (written as the equivalent mask).
   */
  function LoadState(s: FetcherState): (FetcherState, bool)
  {
    if |s.fifo| > 8 then (s, false)
    else (s.(fifo := s.fifo + Row(s.data0, s.data1), tileX := (s.tileX + 1) & 0x1F), true)
  }

  /** The tile-map entry for the current tile: bgMap + tileY * 32 + tileX. */
  function MapIndex(s: FetcherState): (i: Word)
    requires Valid(s)
    ensures i as int < VramSize
  {
    s.bgMap + (s.tileY as Word) * 32 + (s.tileX as Word)
  }

  /** Step: one fetcher step (2 clocks). */
  function StepState(s: FetcherState, vram: seq<Byte>, tile: (Byte, Byte) -> Byte): FetcherState
    requires Valid(s) && |vram| == VramSize
  {
    if s.state == FetcherTile then
      s.(tileN := vram[MapIndex(s) as int], state := FetcherData0)
    else if s.state == FetcherData0 then
      s.(data0 := tile(s.tileN, s.tileOffset), state := FetcherData1)
    else if s.state == FetcherData1 then
      LoadOrWait(s.(data1 := tile(s.tileN, s.tileOffset + 1)))
    else if s.state == FetcherIdle then
      LoadOrStay(s)
    else s
  }

  /** The end of the Data1 step: back to Tile after a load, Idle if the FIFO is too full. */
  function LoadOrWait(s: FetcherState): FetcherState
  {
    var (s1, ok) := LoadState(s);
    if ok then s1.(state := FetcherTile) else s1.(state := FetcherIdle)
  }

  /** The Idle step: back to Tile once a load succeeds. */
  function LoadOrStay(s: FetcherState): FetcherState
  {
    var (s1, ok) := LoadState(s);
    if ok then s1.(state := FetcherTile) else s1
  }

  // ---------------------------------------------------------------------
  // Properties.

  /** Column i of a row encodes bit i of each data byte: the low one in bit 0, the high one in bit 1. */
  lemma ColourBitsEncode(data0: Byte, data1: Byte, i: nat)
    requires i < 8
    ensures GetBit(ColourBits(data0, data1, i), 0) == GetBit(data0, i)
    ensures GetBit(ColourBits(data0, data1, i), 1) == GetBit(data1, i)
  {
  }

  /** A tile row loses nothing: the two data bytes can be read back from its pixels. */
  lemma {:induction false} RowInjective(a0: Byte, a1: Byte, b0: Byte, b1: Byte)
    requires Row(a0, a1) == Row(b0, b1)
    ensures a0 == b0 && a1 == b1
  {
    forall j: nat | j < 8
      ensures GetBit(a0, j) == GetBit(b0, j) && GetBit(a1, j) == GetBit(b1, j)
    {
      assert Row(a0, a1)[7 - j] == Row(b0, b1)[7 - j];
      ColourBitsEncode(a0, a1, j);
      ColourBitsEncode(b0, b1, j);
    }
    BitsDetermine(a0, b0);
    BitsDetermine(a1, b1);
  }

  /** Reset keeps the invariant for any map base whose map lies inside VRAM. */
  lemma ResetValid(s: FetcherState, x: Byte, y: Byte, mapAddr: Word)
    requires mapAddr <= LastMapBase
    ensures Valid(ResetState(s, x, y, mapAddr))
    ensures ResetState(s, x, y, mapAddr).tileDiscard <= 3 && ResetState(s, x, y, mapAddr).tileOffset <= 14
  {
  }

  /** Pop keeps the invariant; it fails without change at 8 pixels or fewer and otherwise removes the front one. */
  lemma PopValid(s: FetcherState, pal: Palettes)
    requires Valid(s)
    ensures Valid(PopState(s, pal).0)
    ensures |s.fifo| <= 8 ==> PopState(s, pal) == (s, 0, false)
    ensures |s.fifo| > 8 ==> PopState(s, pal).0.fifo == s.fifo[1..]
    ensures PopState(s, pal).2 <==> |s.fifo| > 8 && s.tileDiscard == 0
  {
  }

  /** load succeeds iff at most 8 pixels are queued, so the FIFO never exceeds 16. */
  lemma {:induction false} LoadValid(s: FetcherState)
    requires Valid(s)
    ensures Valid(LoadState(s).0)
    ensures LoadState(s).1 <==> |s.fifo| <= 8
    ensures LoadState(s).1 ==> LoadState(s).0.fifo == s.fifo + Row(s.data0, s.data1)
  {
    if |s.fifo| <= 8 {
      var f := s.fifo + Row(s.data0, s.data1);
      forall i | 0 <= i < |f|
        ensures f[i].data <= 3 && f[i].src == PixelSrcBG
      {
        if i >= |s.fifo| {
          assert f[i] == Row(s.data0, s.data1)[i - |s.fifo|];
        }
      }
    }
  }

  /** The two loading steps keep the invariant. */
  lemma LoadStepsValid(s: FetcherState)
    requires Valid(s)
    ensures Valid(LoadOrWait(s)) && Valid(LoadOrStay(s))
  {
    LoadValid(s);
  }

  /** Step keeps the invariant. */
  lemma StepValid(s: FetcherState, vram: seq<Byte>, tile: (Byte, Byte) -> Byte)
    requires Valid(s) && |vram| == VramSize
    ensures Valid(StepState(s, vram, tile))
  {
    if s.state == FetcherData1 {
      LoadStepsValid(s.(data1 := tile(s.tileN, s.tileOffset + 1)));
    } else if s.state == FetcherIdle {
      LoadStepsValid(s);
    }
  }

  /**
   * The state machine: Tile -> Data0 -> Data1 -> Tile, or Idle when the
   * FIFO is too full to load; Idle -> Tile once a load succeeds; any other
   * state value stays as it is.
   */
  lemma {:induction false} StepTransitions(s: FetcherState, vram: seq<Byte>, tile: (Byte, Byte) -> Byte)
    requires Valid(s) && |vram| == VramSize
    ensures s.state == FetcherTile ==> StepState(s, vram, tile).state == FetcherData0
    ensures s.state == FetcherData0 ==> StepState(s, vram, tile).state == FetcherData1
    ensures s.state == FetcherData1 ==>
      StepState(s, vram, tile).state == (if |s.fifo| <= 8 then FetcherTile else FetcherIdle)
    ensures s.state == FetcherIdle ==>
      StepState(s, vram, tile).state == (if |s.fifo| <= 8 then FetcherTile else FetcherIdle)
    ensures s.state > FetcherIdle ==> StepState(s, vram, tile) == s
  {
    if s.state == FetcherData1 {
      LoadValid(s.(data1 := tile(s.tileN, s.tileOffset + 1)));
    } else if s.state == FetcherIdle {
      LoadValid(s);
    }
  }

  /** After Reset the first x & 3 pixels popped are dropped, one per pop, and nothing is shown meanwhile. */
  lemma DiscardFirst(s: FetcherState, pal: Palettes)
    requires |s.fifo| > 8 && s.tileDiscard > 0
    ensures !PopState(s, pal).2 && PopState(s, pal).0.tileDiscard == s.tileDiscard - 1
  {
  }

  // ---------------------------------------------------------------------
  // The Fetcher.

  class Fetcher {
    var fifo: seq<Pixel>
    var state: Byte
    var bgMap: Word
    var tileX: Byte
    var tileY: Byte
    var tileDiscard: Byte
    var tileOffset: Byte
    var tileN: Byte
    var data0: Byte
    var data1: Byte

    /** The fields as a value. */
    function Snapshot(): FetcherState
      reads this
    {
      FetcherState(fifo, state, bgMap, tileX, tileY, tileDiscard, tileOffset, tileN, data0, data1)
    }

    /** NewFetcher: every field at its zero value. */
    constructor ()
      ensures Snapshot() == FetcherState([], 0, 0, 0, 0, 0, 0, 0, 0, 0)
      ensures Valid(Snapshot())
    {
      fifo := [];
      state := 0;
      bgMap := 0;
      tileX, tileY, tileDiscard, tileOffset := 0, 0, 0, 0;
      tileN, data0, data1 := 0, 0, 0;
    }

    method Reset(x: Byte, y: Byte, mapAddr: Word)
      modifies this`fifo, this`tileX, this`tileY, this`tileDiscard, this`tileOffset, this`bgMap
      ensures Snapshot() == ResetState(old(Snapshot()), x, y, mapAddr)
    {
      fifo := [];
      tileX := (x & 0xF8) >> 3;
      tileY := (y & 0xF8) >> 3;
      tileDiscard := x & 0x03;
      tileOffset := (y % 8) * 2;
      bgMap := mapAddr;
    }

    /** Pop returns the shade and whether one was produced. */
    method Pop(pal: Palettes) returns (shade: Byte, ok: bool)
      modifies this`fifo, this`tileDiscard
      ensures (Snapshot(), shade, ok) == PopState(old(Snapshot()), pal)
    {
      if |fifo| <= 8 {
        return 0, false;
      }
      var pixel := fifo[0];
      fifo := fifo[1..];
      if tileDiscard > 0 {
        tileDiscard := tileDiscard - 1;
        return 0, false;
      }
      return Resolve(pal, pixel), true;
    }

    method Step(vram: seq<Byte>, tile: (Byte, Byte) -> Byte)
      requires Valid(Snapshot()) && |vram| == VramSize
      modifies this`tileN, this`state, this`data0, this`data1, this`fifo, this`tileX
      ensures Snapshot() == StepState(old(Snapshot()), vram, tile)
    {
      if state == FetcherTile {
        var i := MapIndex(Snapshot());
        tileN := vram[i as int];
        state := FetcherData0;
      } else if state == FetcherData0 {
        data0 := tile(tileN, tileOffset);
        state := FetcherData1;
      } else if state == FetcherData1 {
        data1 := tile(tileN, tileOffset + 1);
        LoadOrWaitOf();
      } else if state == FetcherIdle {
        LoadOrStayOf();
      }
    }

    /** The end of the Data1 step: Tile after a load, Idle otherwise. */
    method LoadOrWaitOf()
      modifies this`state, this`fifo, this`tileX
      ensures Snapshot() == LoadOrWait(old(Snapshot()))
    {
      var ok := Load();
      if ok {
        state := FetcherTile;
      } else {
        state := FetcherIdle;
      }
    }

    /** The Idle step: Tile once a load succeeds. */
    method LoadOrStayOf()
      modifies this`state, this`fifo, this`tileX
      ensures Snapshot() == LoadOrStay(old(Snapshot()))
    {
      var ok := Load();
      if ok {
        state := FetcherTile;
      }
    }

    /** load: the row is appended pixel by pixel, from bit 7 down to bit 0. */
    method Load() returns (ok: bool)
      modifies this`fifo, this`tileX
      ensures Snapshot() == LoadState(old(Snapshot())).0
      ensures ok == LoadState(old(Snapshot())).1
    {
      if |fifo| > 8 {
        return false;
      }
      AppendRow();
      tileX := (tileX + 1) % 32;
      return true;
    }

    /** The loop of load: one pixel per bit of the two data bytes, leftmost first. */
    method AppendRow()
      modifies this`fifo
      ensures fifo == old(fifo) + Row(data0, data1)
    {
      var i: int := 7;
      while i >= 0
        invariant -1 <= i <= 7
        invariant fifo == old(fifo) + Row(data0, data1)[..7 - i]
        decreases i
      {
        var lo := (data0 >> i) & 0x1;
        var hi := (data1 >> i) & 0x1;
        var data := lo | (hi << 1);
        fifo := fifo + [Pixel(data, PixelSrcBG)];
        assert Row(data0, data1)[..7 - (i - 1)] == Row(data0, data1)[..7 - i] + [Row(data0, data1)[7 - i]];
        i := i - 1;
      }
      assert Row(data0, data1)[..8] == Row(data0, data1);
    }
  }
}
