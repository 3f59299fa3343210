/**
 * The pixel fetcher of the split PPU package (gb/ppu/fetcher.go): the
 * background state machine of the monolithic fetcher extended with a
 * sprite path. A pushed sprite is fetched through four more states, and
 * its row is written over the first eight queued pixels. The functions
 * over FetcherState are what each method does; the Fetcher class runs
 * them in place.
 *
 * The fetcher reaches into its PPU for VRAM, the tileset flag, the palette
 * registers, ly and the sprite height; these are parameters here. Go
 * panics when loadSprite indexes past a FIFO of fewer than eight pixels;
 * the model reports that as an out-of-range failure and leaves the fetcher
 * unchanged.
 */
module PpuFetcher {
  import opened Bits
  import opened Outcomes
  import opened Sprites
  import opened PpuTiles
  import opened PpuPixel

  /** Fetcher states: four for the background, four for a sprite. */
  const FetcherTile: Byte := 0
  const FetcherData0: Byte := 1
  const FetcherData1: Byte := 2
  const FetcherIdle: Byte := 3
  const FetcherSpriteTile: Byte := 4
  const FetcherSpriteData0: Byte := 5
  const FetcherSpriteData1: Byte := 6
  const FetcherSpriteIdle: Byte := 7

  /** The highest tile-map base: the map at 0x1C00 is the last one in VRAM. */
  const LastMapBase: Word := 0x1C00

  /** The fields of the Fetcher struct other than its reference to the PPU. */
  datatype FetcherState = FetcherState(
    fifo: seq<Pixel>,
    state: Byte,
    bgMap: Word,
    tileX: Byte, tileY: Byte, tileDiscard: Byte, tileOffset: Byte,
    sprite: Sprite, spriteTileOffset: Byte, spriteTileN: Byte,
    tileN: Byte, data0: Byte, data1: Byte)

  /**
   * What every operation keeps: at most 16 queued pixels with 2-bit colour
   * numbers, tile coordinates inside the 32 x 32 map, and a map base whose
   * map lies inside VRAM.
   */
  ghost predicate Valid(s: FetcherState)
  {
    && |s.fifo| <= 16
    && ColourNumbers(s.fifo)
    && s.tileX < 32 && s.tileY < 32
    && s.bgMap <= LastMapBase
  }

  /** Every queued pixel has a 2-bit colour number. */
  ghost predicate ColourNumbers(f: seq<Pixel>)
  {
    forall i :: 0 <= i < |f| ==> f[i].data <= 3
  }

  /**
   * Reset: empty the FIFO, aim at the tile under (x, y) of the given map
   * and restart at FetcherTile. x / 8, y / 8 and (y % 8) * 2 are written as
   * the equivalent shifts and mask.
   */
  function ResetState(s: FetcherState, x: Byte, y: Byte, mapAddr: Word): FetcherState
  {
    s.(fifo := [],
       tileX := x >> 3, tileY := y >> 3,
       tileDiscard := x & 0x03, tileOffset := (y & 0x07) << 1,
       bgMap := mapAddr, state := FetcherTile)
  }

  /**
   * Pop: with more than 8 pixels queued and no sprite being fetched, remove
   * the front one; it is dropped while discard credit remains, otherwise
   * resolved to a shade. The flag says whether a shade was produced.
   */
  function PopState(s: FetcherState, pal: Palettes): (FetcherState, Byte, bool)
  {
    if |s.fifo| <= 8 then (s, 0, false)
    else if s.state > FetcherIdle then (s, 0, false)
    else if s.tileDiscard > 0 then (s.(fifo := s.fifo[1..], tileDiscard := s.tileDiscard - 1), 0, false)
    else (s.(fifo := s.fifo[1..]), Resolve(pal, s.fifo[0]), true)
  }

  /** The row offset PushSprite starts from, in 8-bit arithmetic: (ly + 2 * height - Y) * 2. */
  function RawRowOffset(sp: Sprite, ly: Byte, height: Byte): Byte
  {
    (ly + 2 * height - sp.posY) * 2
  }

  /** Mirrored to height * 2 - 1 - offset when the sprite is flipped vertically. */
  function FlipRowOffset(o: Byte, height: Byte, flipY: bool): Byte
  {
    if flipY then height * 2 - 1 - o else o
  }

  /** An offset of 16 or more moves to tile number + 32 and 16 bytes back. */
  function NextTileRow(tileN: Byte, o: Byte): (Byte, Byte)
  {
    if o >= 16 then (tileN + 32, o - 16) else (tileN, o)
  }

  /** The sprite's tile number and row offset PushSprite computes. */
  function SpriteRowAddr(sp: Sprite, ly: Byte, height: Byte): (Byte, Byte)
  {
    NextTileRow(sp.tileN, FlipRowOffset(RawRowOffset(sp, ly, height), height, sp.flipY))
  }

  /** PushSprite: refused while a sprite is being fetched, otherwise start fetching this one. */
  function PushState(s: FetcherState, sp: Sprite, ly: Byte, height: Byte): (FetcherState, bool)
  {
    if s.state > FetcherIdle then (s, false)
    else
      var a := SpriteRowAddr(sp, ly, height);
      (s.(sprite := sp, spriteTileN := a.0, spriteTileOffset := a.1, state := FetcherSpriteTile), true)
  }

  /** The colour number of column i of a tile row: bit i of the low and of the high data byte. */
  function ColourBits(data0: Byte, data1: Byte, i: nat): (c: Byte)
    requires i < 8
    ensures c <= 3
  {
    ((data0 >> i) & 1) | (((data1 >> i) & 1) << 1)
  }

  /** The eight background pixels of a tile row, leftmost (bit 7) first. */
  function BgRow(data0: Byte, data1: Byte): (r: seq<Pixel>)
    ensures |r| == 8
  {
    seq(8, k requires 0 <= k < 8 => Pixel(ColourBits(data0, data1, 7 - k), true, false, false))
  }

  /** The eight pixels of a sprite row, leftmost first: bit 7 first, or bit 0 first when flipped horizontally. */
  function SpriteRow(data0: Byte, data1: Byte, sp: Sprite): (r: seq<Pixel>)
    ensures |r| == 8
  {
    seq(8, k requires 0 <= k < 8 =>
      Pixel(ColourBits(data0, data1, if sp.flipX then k else 7 - k), false, sp.palette, sp.priority))
  }

  /**
   * loadBg: with at most 8 pixels queued, append a tile row and move to the
   * next tile column, modulo 32 (written as the equivalent mask).
   */
  function LoadBgState(s: FetcherState): (FetcherState, bool)
  {
    if |s.fifo| > 8 then (s, false)
    else (s.(fifo := s.fifo + BgRow(s.data0, s.data1), tileX := (s.tileX + 1) & 0x1F), true)
  }

  /** loadSprite and mix: the sprite row replaces queued pixels 0..7; fewer than 8 queued is Go's index panic. */
  function LoadSpriteState(s: FetcherState): Result<FetcherState>
  {
    if |s.fifo| < 8 then Err(OutOfRange(|s.fifo|))
    else Ok(s.(fifo := SpriteRow(s.data0, s.data1, s.sprite) + s.fifo[8..]))
  }

  /** The tile-map entry for the current tile: bgMap + tileY * 32 + tileX. */
  function MapIndex(s: FetcherState): (i: Word)
    requires Valid(s)
    ensures i as int < VramSize
  {
    s.bgMap + (s.tileY as Word) * 32 + (s.tileX as Word)
  }

  /** The tile number of the current tile, from the tile map in VRAM. */
  function MapEntry(s: FetcherState, vram: seq<Byte>): Byte
    requires Valid(s) && |vram| == VramSize
  {
    vram[MapIndex(s) as int]
  }

  /** Step: one fetcher step, on the background path or the sprite path. */
  function StepState(s: FetcherState, vram: seq<Byte>, tileset1: bool): Result<FetcherState>
    requires Valid(s) && |vram| == VramSize
  {
    if s.state <= FetcherIdle then Ok(BgStep(s, vram, tileset1))
    else SpriteStep(s, vram, tileset1)
  }

  /** The background states: Tile -> Data0 -> Data1 -> Tile, or Idle until a load succeeds. */
  function BgStep(s: FetcherState, vram: seq<Byte>, tileset1: bool): FetcherState
    requires Valid(s) && |vram| == VramSize && s.state <= FetcherIdle
  {
    if s.state == FetcherTile then
      s.(tileN := MapEntry(s, vram), state := FetcherData0)
    else if s.state == FetcherData0 then
      s.(data0 := TileData(vram, s.tileN, s.tileOffset, tileset1, false), state := FetcherData1)
    else if s.state == FetcherData1 then
      LoadOrWait(s.(data1 := TileData(vram, s.tileN, s.tileOffset + 1, tileset1, false)))
    else
      LoadOrStay(s)
  }

  /**
   * The sprite states: SpriteTile -> SpriteData0 -> SpriteData1 ->
   * SpriteIdle -> Tile. The second data byte is read with sprite = false,
   * so in tileset 0 it comes from signed addressing; any larger state value
   * stays as it is.
   */
  function SpriteStep(s: FetcherState, vram: seq<Byte>, tileset1: bool): Result<FetcherState>
    requires |vram| == VramSize && s.state > FetcherIdle
  {
    if s.state == FetcherSpriteTile then
      Ok(s.(tileN := s.spriteTileN, state := FetcherSpriteData0))
    else if s.state == FetcherSpriteData0 then
      Ok(s.(data0 := TileData(vram, s.spriteTileN, s.spriteTileOffset, tileset1, true), state := FetcherSpriteData1))
    else if s.state == FetcherSpriteData1 then
      Ok(s.(data1 := TileData(vram, s.spriteTileN, s.spriteTileOffset + 1, tileset1, false), state := FetcherSpriteIdle))
    else if s.state == FetcherSpriteIdle then
      match LoadSpriteState(s)
      case Ok(s1) => Ok(s1.(state := FetcherTile))
      case Err(e) => Err(e)
    else Ok(s)
  }

  /** The end of the Data1 step: back to Tile after a load, Idle if the FIFO is too full. */
  function LoadOrWait(s: FetcherState): FetcherState
  {
    var r := LoadBgState(s);
    if r.1 then r.0.(state := FetcherTile) else r.0.(state := FetcherIdle)
  }

  /** The Idle step: back to Tile once a load succeeds. */
  function LoadOrStay(s: FetcherState): FetcherState
  {
    var r := LoadBgState(s);
    if r.1 then r.0.(state := FetcherTile) else r.0
  }

  // ---------------------------------------------------------------------
  // Properties.

  /** Reset keeps the invariant for any map base inside VRAM and always restarts the background path. */
  lemma ResetValid(s: FetcherState, x: Byte, y: Byte, mapAddr: Word)
    requires mapAddr <= LastMapBase
    ensures Valid(ResetState(s, x, y, mapAddr))
    ensures ResetState(s, x, y, mapAddr).state == FetcherTile && ResetState(s, x, y, mapAddr).fifo == []
  {
  }

  /**
   * Reset aims at the tile column holding pixel x, but discards only x & 3
   * pixels of it: for x mod 8 in 4..7 the first tile starts 4 pixels too
   * far left.
   */
  lemma ResetDiscard(s: FetcherState, x: Byte, y: Byte, mapAddr: Word)
    ensures var r := ResetState(s, x, y, mapAddr);
      r.tileX * 8 + x % 8 == x && r.tileDiscard == (x % 8) % 4
  {
  }

  /** Pop keeps the invariant and the fetcher state. */
  lemma PopValid(s: FetcherState, pal: Palettes)
    requires Valid(s)
    ensures Valid(PopState(s, pal).0)
    ensures PopState(s, pal).0.state == s.state
  {
  }

  /**
   * Pop fails without change with 8 pixels or fewer queued or while a
   * sprite is being fetched, otherwise removes the front pixel, and
   * produces a shade exactly when no discard credit is left.
   */
  lemma PopOutcome(s: FetcherState, pal: Palettes)
    ensures |s.fifo| <= 8 || s.state > FetcherIdle ==> PopState(s, pal) == (s, 0, false)
    ensures |s.fifo| > 8 && s.state <= FetcherIdle ==> PopState(s, pal).0.fifo == s.fifo[1..]
    ensures PopState(s, pal).2 <==> |s.fifo| > 8 && s.state <= FetcherIdle && s.tileDiscard == 0
  {
  }

  /** PushSprite is refused while a sprite is being fetched, and otherwise starts the sprite path. */
  lemma PushStarts(s: FetcherState, sp: Sprite, ly: Byte, height: Byte)
    ensures PushState(s, sp, ly, height).1 <==> s.state <= FetcherIdle
    ensures !PushState(s, sp, ly, height).1 ==> PushState(s, sp, ly, height).0 == s
    ensures PushState(s, sp, ly, height).1 ==>
      var r := PushState(s, sp, ly, height).0;
      r.state == FetcherSpriteTile && r.sprite == sp && r.fifo == s.fifo
  {
  }

  /**
   * For an 8-row sprite on the line, row r = ly + 16 - Y of the sprite is
   * fetched from its own tile, at byte offset 2r, or at 15 - 2r when
   * flipped vertically: an odd offset, which pairs the high byte of row
   * 7 - r with the low byte of the row after it.
   */
  lemma SmallSpriteRow(sp: Sprite, ly: Byte)
    requires OnLine(sp, ly, 8)
    ensures var r := ly + 16 - sp.posY;
      SpriteRowAddr(sp, ly, 8) == (sp.tileN, if sp.flipY then 15 - 2 * r else 2 * r)
  {
    var r := ly + 16 - sp.posY;
    assert r < 8;
  }

  /** A horizontally flipped sprite row is the unflipped row mirrored. */
  lemma FlipMirrors(data0: Byte, data1: Byte, sp: Sprite, k: nat)
    requires k < 8
    ensures SpriteRow(data0, data1, sp.(flipX := true))[k] == SpriteRow(data0, data1, sp.(flipX := false))[7 - k]
  {
  }

  /** loadBg succeeds iff at most 8 pixels are queued, so the FIFO never exceeds 16. */
  lemma {:induction false} LoadBgValid(s: FetcherState)
    requires Valid(s)
    ensures Valid(LoadBgState(s).0)
    ensures LoadBgState(s).1 <==> |s.fifo| <= 8
    ensures LoadBgState(s).1 ==> LoadBgState(s).0.fifo == s.fifo + BgRow(s.data0, s.data1)
  {
    if |s.fifo| <= 8 {
      var f := s.fifo + BgRow(s.data0, s.data1);
      forall i | 0 <= i < |f|
        ensures f[i].data <= 3
      {
        if i >= |s.fifo| {
          assert f[i] == BgRow(s.data0, s.data1)[i - |s.fifo|];
        }
      }
    }
  }

  /** loadSprite keeps the FIFO's length and its pixels from 8 on, and overwrites pixels 0..7 with the sprite row. */
  lemma {:induction false} LoadSpriteValid(s: FetcherState)
    requires Valid(s)
    ensures LoadSpriteState(s).Ok? <==> |s.fifo| >= 8
    ensures LoadSpriteState(s).Ok? ==>
      var f := LoadSpriteState(s).value.fifo;
      Valid(LoadSpriteState(s).value) && |f| == |s.fifo| && f[8..] == s.fifo[8..] &&
      f[..8] == SpriteRow(s.data0, s.data1, s.sprite)
  {
    if |s.fifo| >= 8 {
      var f := SpriteRow(s.data0, s.data1, s.sprite) + s.fifo[8..];
      forall i | 0 <= i < |f|
        ensures f[i].data <= 3
      {
        if i >= 8 {
          assert f[i] == s.fifo[i];
        }
      }
      assert f[..8] == SpriteRow(s.data0, s.data1, s.sprite);
    }
  }

  /** The two loading steps keep the invariant. */
  lemma LoadStepsValid(s: FetcherState)
    requires Valid(s)
    ensures Valid(LoadOrWait(s)) && Valid(LoadOrStay(s))
  {
    LoadBgValid(s);
    SetStateValid(LoadBgState(s).0, FetcherTile);
    SetStateValid(LoadBgState(s).0, FetcherIdle);
  }

  /** The invariant does not depend on the state number. */
  lemma SetStateValid(s: FetcherState, st: Byte)
    requires Valid(s)
    ensures Valid(s.(state := st))
  {
    assert s.(state := st).fifo == s.fifo;
  }

  /** A successful step keeps the invariant; only a sprite load into a short FIFO fails. */
  lemma StepValid(s: FetcherState, vram: seq<Byte>, tileset1: bool)
    requires Valid(s) && |vram| == VramSize
    ensures StepState(s, vram, tileset1).Ok? ==> Valid(StepState(s, vram, tileset1).value)
    ensures StepState(s, vram, tileset1).Err? <==> s.state == FetcherSpriteIdle && |s.fifo| < 8
  {
    if s.state <= FetcherIdle {
      BgStepValid(s, vram, tileset1);
    } else {
      SpriteStepValid(s, vram, tileset1);
    }
  }

  /** The background states keep the invariant. */
  lemma BgStepValid(s: FetcherState, vram: seq<Byte>, tileset1: bool)
    requires Valid(s) && |vram| == VramSize && s.state <= FetcherIdle
    ensures Valid(BgStep(s, vram, tileset1))
  {
    if s.state == FetcherData1 {
      LoadStepsValid(s.(data1 := TileData(vram, s.tileN, s.tileOffset + 1, tileset1, false)));
    } else if s.state == FetcherIdle {
      LoadStepsValid(s);
    }
  }

  /** The sprite states keep the invariant, and fail only on a sprite load into a short FIFO. */
  lemma SpriteStepValid(s: FetcherState, vram: seq<Byte>, tileset1: bool)
    requires Valid(s) && |vram| == VramSize && s.state > FetcherIdle
    ensures SpriteStep(s, vram, tileset1).Ok? ==> Valid(SpriteStep(s, vram, tileset1).value)
    ensures SpriteStep(s, vram, tileset1).Err? <==> s.state == FetcherSpriteIdle && |s.fifo| < 8
  {
    if s.state == FetcherSpriteIdle {
      LoadSpriteValid(s);
    }
  }

  /**
   * The background transitions: Tile -> Data0 -> Data1 -> Tile, or Idle
   * when the FIFO is too full to load; Idle -> Tile once a load succeeds.
   */
  function BgNext(state: Byte, queued: nat): Byte
  {
    if state == FetcherTile then FetcherData0
    else if state == FetcherData0 then FetcherData1
    else if queued <= 8 then FetcherTile
    else FetcherIdle
  }

  /** A background step never fails, never enters a sprite state, and follows BgNext. */
  lemma BgTransitions(s: FetcherState, vram: seq<Byte>, tileset1: bool)
    requires Valid(s) && |vram| == VramSize && s.state <= FetcherIdle
    ensures StepState(s, vram, tileset1) == Ok(BgStep(s, vram, tileset1))
    ensures BgStep(s, vram, tileset1).state == BgNext(s.state, |s.fifo|)
  {
    if s.state != FetcherTile && s.state != FetcherData0 {
      BgLoadNext(s, vram, tileset1);
    }
  }

  /** The two loading states follow BgNext. */
  lemma BgLoadNext(s: FetcherState, vram: seq<Byte>, tileset1: bool)
    requires Valid(s) && |vram| == VramSize && (s.state == FetcherData1 || s.state == FetcherIdle)
    ensures BgStep(s, vram, tileset1).state == BgNext(s.state, |s.fifo|)
  {
    if s.state == FetcherData1 {
      var d1 := TileData(vram, s.tileN, s.tileOffset + 1, tileset1, false);
      LoadAfterData1(s, d1);
    } else {
      LoadStates(s);
    }
  }

  /** Whatever the second data byte, the Data1 step follows BgNext. */
  lemma LoadAfterData1(s: FetcherState, d1: Byte)
    requires s.state == FetcherData1
    ensures LoadOrWait(s.(data1 := d1)).state == BgNext(s.state, |s.fifo|)
  {
    LoadStates(s.(data1 := d1));
  }

  /** Where the loading steps leave the state: Tile after a load, otherwise Idle, or unchanged. */
  lemma LoadStates(s: FetcherState)
    ensures LoadOrWait(s).state == (if |s.fifo| <= 8 then FetcherTile else FetcherIdle)
    ensures LoadOrStay(s).state == (if |s.fifo| <= 8 then FetcherTile else s.state)
  {
  }

  /** The sprite path: SpriteTile -> SpriteData0 -> SpriteData1 -> SpriteIdle -> Tile. */
  lemma SpriteTransitions(s: FetcherState, vram: seq<Byte>, tileset1: bool)
    requires Valid(s) && |vram| == VramSize && s.state > FetcherIdle && |s.fifo| >= 8
    ensures StepState(s, vram, tileset1).Ok?
    ensures var r := StepState(s, vram, tileset1).value;
      && (s.state == FetcherSpriteTile ==> r.state == FetcherSpriteData0 && r.tileN == s.spriteTileN)
      && (s.state == FetcherSpriteData0 ==> r.state == FetcherSpriteData1)
      && (s.state == FetcherSpriteData1 ==> r.state == FetcherSpriteIdle)
      && (s.state == FetcherSpriteIdle ==> r.state == FetcherTile)
      && (s.state > FetcherSpriteIdle ==> r == s)
  {
  }

  // ---------------------------------------------------------------------
  // The Fetcher.

  class Fetcher {
    var fifo: seq<Pixel>
    var state: Byte
    var bgMap: Word
    var tileX: Byte
    var tileY: Byte
    var tileDiscard: Byte
    var tileOffset: Byte
    var sprite: Sprite
    var spriteTileOffset: Byte
    var spriteTileN: Byte
    var tileN: Byte
    var data0: Byte
    var data1: Byte

    /** The fields as a value. */
    function Snapshot(): FetcherState
      reads this
    {
      FetcherState(fifo, state, bgMap, tileX, tileY, tileDiscard, tileOffset,
                   sprite, spriteTileOffset, spriteTileN, tileN, data0, data1)
    }

    /** NewFetcher: every field at its zero value. */
    constructor ()
      ensures Snapshot() == FetcherState([], 0, 0, 0, 0, 0, 0, Sprite(0, 0, 0, false, false, false, false), 0, 0, 0, 0, 0)
      ensures Valid(Snapshot())
    {
      fifo := [];
      state := 0;
      bgMap := 0;
      tileX, tileY, tileDiscard, tileOffset := 0, 0, 0, 0;
      sprite := Sprite(0, 0, 0, false, false, false, false);
      spriteTileOffset, spriteTileN := 0, 0;
      tileN, data0, data1 := 0, 0, 0;
    }

    method Reset(x: Byte, y: Byte, mapAddr: Word)
      modifies this`fifo, this`tileX, this`tileY, this`tileDiscard, this`tileOffset, this`bgMap, this`state
      ensures Snapshot() == ResetState(old(Snapshot()), x, y, mapAddr)
    {
      fifo, tileX, tileY, tileDiscard, tileOffset, bgMap, state :=
        [], x >> 3, y >> 3, x & 0x03, (y & 0x07) << 1, mapAddr, FetcherTile;
    }

    /** Pop returns the shade and whether one was produced. */
    method Pop(pal: Palettes) returns (shade: Byte, ok: bool)
      modifies this`fifo, this`tileDiscard
      ensures (Snapshot(), shade, ok) == PopState(old(Snapshot()), pal)
    {
      if |fifo| <= 8 {
        return 0, false;
      }
      if state > FetcherIdle {
        return 0, false;
      }
      var pixel := fifo[0];
      fifo := fifo[1..];
      if tileDiscard > 0 {
        tileDiscard := tileDiscard - 1;
        return 0, false;
      }
      return Resolve(pal, pixel), true;
    }

    /** PushSprite: ly and the sprite height are the PPU's. */
    method PushSprite(sp: Sprite, ly: Byte, height: Byte) returns (ok: bool)
      modifies this`sprite, this`spriteTileN, this`spriteTileOffset, this`state
      ensures (Snapshot(), ok) == PushState(old(Snapshot()), sp, ly, height)
    {
      if state > FetcherIdle {
        return false;
      }
      var n, o := RowAddr(sp, ly, height);
      sprite, spriteTileN, spriteTileOffset, state := sp, n, o, FetcherSpriteTile;
      return true;
    }

    /** PushSprite's arithmetic, step by step in 8 bits. */
    static method RowAddr(sp: Sprite, ly: Byte, height: Byte) returns (n: Byte, o: Byte)
      ensures (n, o) == SpriteRowAddr(sp, ly, height)
    {
      o := RawRowOffset(sp, ly, height);
      o := FlipOf(o, height, sp.flipY);
      n, o := NextTileOf(sp.tileN, o);
    }

    /** The vertical flip of PushSprite. */
    static method FlipOf(o: Byte, height: Byte, flipY: bool) returns (r: Byte)
      ensures r == FlipRowOffset(o, height, flipY)
    {
      r := o;
      if flipY {
        r := height * 2 - 1 - r;
      }
    }

    /** The move to the next tile of PushSprite. */
    static method NextTileOf(tileN: Byte, o: Byte) returns (n: Byte, r: Byte)
      ensures (n, r) == NextTileRow(tileN, o)
    {
      n, r := tileN, o;
      if r >= 16 {
        n := n + 32;
        r := r - 16;
      }
    }

    /**
     * Step: one fetcher step. ok is false, and nothing changes, exactly
     * where Go would panic.
     */
    method Step(vram: seq<Byte>, tileset1: bool) returns (ok: bool)
      requires Valid(Snapshot()) && |vram| == VramSize
      modifies this`tileN, this`state, this`data0, this`data1, this`fifo, this`tileX
      ensures ok == StepState(old(Snapshot()), vram, tileset1).Ok?
      ensures ok ==> Snapshot() == StepState(old(Snapshot()), vram, tileset1).value
      ensures !ok ==> Snapshot() == old(Snapshot())
    {
      if state <= FetcherIdle {
        StepBg(vram, tileset1);
        ok := true;
      } else {
        ok := StepSprite(vram, tileset1);
      }
    }

    /** The background states of Step. */
    method StepBg(vram: seq<Byte>, tileset1: bool)
      requires Valid(Snapshot()) && |vram| == VramSize && state <= FetcherIdle
      modifies this`tileN, this`state, this`data0, this`data1, this`fifo, this`tileX
      ensures Snapshot() == BgStep(old(Snapshot()), vram, tileset1)
    {
      if state == FetcherTile {
        var i := MapIndex(Snapshot());
        tileN, state := vram[i as int], FetcherData0;
        assert tileN == MapEntry(old(Snapshot()), vram);
      } else if state == FetcherData0 {
        data0, state := TileData(vram, tileN, tileOffset, tileset1, false), FetcherData1;
      } else if state == FetcherData1 {
        Data1Of(TileData(vram, tileN, tileOffset + 1, tileset1, false));
      } else {
        LoadOrStayOf();
      }
    }

    /** The Data1 step: the second data byte, then a load. */
    method Data1Of(d1: Byte)
      modifies this`state, this`data1, this`fifo, this`tileX
      ensures Snapshot() == LoadOrWait(old(Snapshot()).(data1 := d1))
    {
      data1 := d1;
      assert Snapshot() == old(Snapshot()).(data1 := d1);
      LoadOrWaitOf();
    }

    /** The end of the Data1 step: Tile after a load, Idle otherwise. */
    method LoadOrWaitOf()
      modifies this`state, this`fifo, this`tileX
      ensures Snapshot() == LoadOrWait(old(Snapshot()))
    {
      var ok := LoadBg();
      if ok {
        state := FetcherTile;
      } else {
        state := FetcherIdle;
      }
    }

    /** The Idle step: Tile once a load succeeds. */
    method LoadOrStayOf()
      modifies this`state, this`fifo, this`tileX
      ensures Snapshot() == LoadOrStay(old(Snapshot()))
    {
      var ok := LoadBg();
      if ok {
        state := FetcherTile;
      }
    }

    /** The sprite states of Step. */
    method StepSprite(vram: seq<Byte>, tileset1: bool) returns (ok: bool)
      requires |vram| == VramSize && state > FetcherIdle
      modifies this`tileN, this`state, this`data0, this`data1, this`fifo
      ensures ok == SpriteStep(old(Snapshot()), vram, tileset1).Ok?
      ensures ok ==> Snapshot() == SpriteStep(old(Snapshot()), vram, tileset1).value
      ensures !ok ==> Snapshot() == old(Snapshot())
    {
      ok := true;
      if state == FetcherSpriteTile {
        tileN := spriteTileN;
        state := FetcherSpriteData0;
      } else if state == FetcherSpriteData0 {
        data0 := TileData(vram, spriteTileN, spriteTileOffset, tileset1, true);
        state := FetcherSpriteData1;
      } else if state == FetcherSpriteData1 {
        data1 := TileData(vram, spriteTileN, spriteTileOffset + 1, tileset1, false);
        state := FetcherSpriteIdle;
      } else if state == FetcherSpriteIdle {
        if |fifo| < 8 {
          return false;
        }
        LoadSprite();
        state := FetcherTile;
      }
    }

    /** loadBg: with room in the FIFO, append the row and move to the next tile column. */
    method LoadBg() returns (ok: bool)
      modifies this`fifo, this`tileX
      ensures (Snapshot(), ok) == LoadBgState(old(Snapshot()))
    {
      if |fifo| > 8 {
        return false;
      }
      AppendRow();
      tileX := (tileX + 1) % 32;
      return true;
    }

    /** The loop of loadBg: one pixel per bit of the two data bytes, from bit 7 down to bit 0. */
    method AppendRow()
      modifies this`fifo
      ensures fifo == old(fifo) + BgRow(data0, data1)
    {
      var i: int := 7;
      while i >= 0
        invariant -1 <= i <= 7
        invariant fifo == old(fifo) + BgRow(data0, data1)[..7 - i]
        decreases i
      {
        var lo := (data0 >> i) & 0x1;
        var hi := (data1 >> i) & 0x1;
        fifo := fifo + [Pixel(lo | (hi << 1), true, false, false)];
        assert BgRow(data0, data1)[..7 - (i - 1)] == BgRow(data0, data1)[..7 - i] + [BgRow(data0, data1)[7 - i]];
        i := i - 1;
      }
      assert BgRow(data0, data1)[..8] == BgRow(data0, data1);
    }

    /** loadSprite: pixel 7 - i of the FIFO takes bit i of the row, or bit 7 - i when flipped. */
    method LoadSprite()
      requires |fifo| >= 8
      modifies this`fifo
      ensures fifo == SpriteRow(data0, data1, sprite) + old(fifo)[8..]
    {
      var i: int := 7;
      while i >= 0
        invariant -1 <= i <= 7 && |fifo| == |old(fifo)|
        invariant forall k :: 0 <= k < 7 - i ==> fifo[k] == SpriteRow(data0, data1, sprite)[k]
        invariant forall k :: 7 - i <= k < |fifo| ==> fifo[k] == old(fifo)[k]
        decreases i
      {
        var x: nat := if sprite.flipX then 7 - i else i;
        var px := SpritePixel(data0, data1, x, sprite);
        assert px == SpriteRow(data0, data1, sprite)[7 - i];
        Mix(7 - i, px);
        i := i - 1;
      }
      assert fifo == SpriteRow(data0, data1, sprite) + old(fifo)[8..];
    }

    /** The pixel loadSprite builds from bit x of the two data bytes. */
    static method SpritePixel(data0: Byte, data1: Byte, x: nat, sp: Sprite) returns (px: Pixel)
      requires x < 8
      ensures px == Pixel(ColourBits(data0, data1, x), false, sp.palette, sp.priority)
    {
      var lo := (data0 >> x) & 0x1;
      var hi := (data1 >> x) & 0x1;
      px := Pixel(lo | (hi << 1), false, sp.palette, sp.priority);
    }

    /** mix: the sprite pixel replaces FIFO slot i. */
    method Mix(i: nat, px: Pixel)
      requires i < |fifo|
      modifies this`fifo
      ensures fifo == old(fifo)[i := px]
    {
      fifo := fifo[i := px];
    }
  }
}
