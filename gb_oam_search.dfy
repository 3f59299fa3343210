/**
 * OAM search of the monolithic PPU (gb/oam_search.go): during the first
 * 20 steps of a visible line the PPU looks at two of the 40 four-byte OAM
 * entries per step and keeps, in address order, at most ten sprites that
 * cover the current line.
 *
 * The package declares neither the PPU's oam array nor its oamCache field:
 * OAM is a parameter here, a byte sequence of the size of object attribute
 * memory, and the cache is the field of the OamSearch class. The scanline
 * counter sc, the line ly and the sprite height are parameters as well.
 */
module GbOamSearch {
  import opened Bits
  import opened Sprites

  /** Object attribute memory: 40 entries of 4 bytes. */
  const OamEntries: nat := 40
  const OamSize: nat := 4 * OamEntries

  /** The steps of a line that search OAM, two entries each. */
  const SearchSteps: nat := 20

  /** Entry n of OAM. */
  function Entry(oam: seq<Byte>, n: nat): Sprite
    requires |oam| == OamSize && n < OamEntries
  {
    NewSprite(oam, 4 * n)
  }

  /** One entry examined: appended when it is on the line and the cache is not full. */
  function Consider(cache: seq<Sprite>, s: Sprite, ly: Byte, height: Byte): seq<Sprite>
  {
    if |cache| == MaxSpritesPerScanline then cache
    else if OnLine(s, ly, height) then cache + [s]
    else cache
  }

  /** stepOAMSearch: entries 2 * sc and 2 * sc + 1, at addresses sc * 8 and sc * 8 + 4. */
  function SearchStep(cache: seq<Sprite>, oam: seq<Byte>, sc: nat, ly: Byte, height: Byte): seq<Sprite>
    requires |oam| == OamSize && sc < SearchSteps
  {
    Consider(Consider(cache, Entry(oam, 2 * sc), ly, height), Entry(oam, 2 * sc + 1), ly, height)
  }

  /** The cache after the first n search steps of a line, starting from an empty cache. */
  function Line(oam: seq<Byte>, ly: Byte, height: Byte, n: nat): seq<Sprite>
    requires |oam| == OamSize && n <= SearchSteps
  {
    if n == 0 then [] else SearchStep(Line(oam, ly, height, n - 1), oam, n - 1, ly, height)
  }

  // ---------------------------------------------------------------------
  // A reference definition: the visible entries in address order, capped.

  /** Every entry among the first n that is on the line, in address order. */
  function Visible(oam: seq<Byte>, ly: Byte, height: Byte, n: nat): seq<Sprite>
    requires |oam| == OamSize && n <= OamEntries
  {
    if n == 0 then []
    else if OnLine(Entry(oam, n - 1), ly, height) then Visible(oam, ly, height, n - 1) + [Entry(oam, n - 1)]
    else Visible(oam, ly, height, n - 1)
  }

  /** Examining entries 0..n-1 one at a time from an empty cache. */
  function Scan(oam: seq<Byte>, ly: Byte, height: Byte, n: nat): seq<Sprite>
    requires |oam| == OamSize && n <= OamEntries
  {
    if n == 0 then [] else Consider(Scan(oam, ly, height, n - 1), Entry(oam, n - 1), ly, height)
  }

  // ---------------------------------------------------------------------
  // Properties.

  /** A search step never lets the cache grow past ten, and adds at most two sprites. */
  lemma StepBounded(cache: seq<Sprite>, oam: seq<Byte>, sc: nat, ly: Byte, height: Byte)
    requires |oam| == OamSize && sc < SearchSteps && |cache| <= MaxSpritesPerScanline
    ensures |SearchStep(cache, oam, sc, ly, height)| <= MaxSpritesPerScanline
    ensures cache <= SearchStep(cache, oam, sc, ly, height)
    ensures |SearchStep(cache, oam, sc, ly, height)| <= |cache| + 2
  {
  }

  /** A step appends entry 2 * sc exactly when it is on the line and there is room. */
  lemma StepAppendsVisible(cache: seq<Sprite>, oam: seq<Byte>, sc: nat, ly: Byte, height: Byte)
    requires |oam| == OamSize && sc < SearchSteps && |cache| < MaxSpritesPerScanline
    ensures Consider(cache, Entry(oam, 2 * sc), ly, height) ==
      if OnLine(Entry(oam, 2 * sc), ly, height) then cache + [Entry(oam, 2 * sc)] else cache
  {
  }

  /** The steps of a line examine the entries in address order, two per step. */
  lemma {:induction false} LineScans(oam: seq<Byte>, ly: Byte, height: Byte, n: nat)
    requires |oam| == OamSize && n <= SearchSteps
    ensures Line(oam, ly, height, n) == Scan(oam, ly, height, 2 * n)
  {
    if n > 0 {
      LineScans(oam, ly, height, n - 1);
      assert Scan(oam, ly, height, 2 * n) ==
        Consider(Scan(oam, ly, height, 2 * n - 1), Entry(oam, 2 * n - 1), ly, height);
    }
  }

  /** Examining entries one at a time keeps the first ten visible ones. */
  lemma {:induction false} ScanIsCappedVisible(oam: seq<Byte>, ly: Byte, height: Byte, n: nat)
    requires |oam| == OamSize && n <= OamEntries
    ensures Scan(oam, ly, height, n) == Cap(Visible(oam, ly, height, n))
  {
    if n > 0 {
      ScanIsCappedVisible(oam, ly, height, n - 1);
      var v := Visible(oam, ly, height, n - 1);
      var e := Entry(oam, n - 1);
      if |v| >= MaxSpritesPerScanline && OnLine(e, ly, height) {
        assert (v + [e])[..MaxSpritesPerScanline] == v[..MaxSpritesPerScanline];
      }
    }
  }

  /**
   * Over the 20 search steps of a line every one of the 40 entries is
   * examined, and the cache ends up holding the first ten that are on the
   * line, in address order.
   */
  lemma WholeLine(oam: seq<Byte>, ly: Byte, height: Byte)
    requires |oam| == OamSize
    ensures Line(oam, ly, height, SearchSteps) == Cap(Visible(oam, ly, height, OamEntries))
  {
    LineScans(oam, ly, height, SearchSteps);
    ScanIsCappedVisible(oam, ly, height, OamEntries);
  }

  // ---------------------------------------------------------------------
  // The OAM cache.

  class OamSearch {
    /** The sprites found so far on this line. */
    var cache: seq<Sprite>

    constructor ()
      ensures cache == []
    {
      cache := [];
    }

    /** startOAMSearch: clear the cache. */
    method Start()
      modifies this
      ensures cache == []
    {
      cache := [];
    }

    /**
     * stepOAMSearch: two entries per step, leaving the loop once the cache
     * is full. OAM is indexed at sc * 8 + i * 4, which the source only
     * reaches during the 20 OAM-mode steps of a line.
     */
    method Step(oam: seq<Byte>, sc: nat, ly: Byte, height: Byte)
      requires |oam| == OamSize && sc < SearchSteps
      modifies this
      ensures cache == SearchStep(old(cache), oam, sc, ly, height)
    {
      var i := 0;
      while i < 2
        invariant 0 <= i <= 2
        invariant i == 0 ==> cache == old(cache)
        invariant i == 1 ==> cache == Consider(old(cache), Entry(oam, 2 * sc), ly, height)
        invariant i == 2 ==> cache == SearchStep(old(cache), oam, sc, ly, height)
      {
        if |cache| == MaxSpritesPerScanline {
          break;
        }
        var entryAddr := sc * 8 + i * 4;
        assert entryAddr == 4 * (2 * sc + i);
        var sprite := NewSprite(oam, entryAddr);
        if OnLine(sprite, ly, height) {
          cache := cache + [sprite];
        }
        i := i + 1;
      }
    }
  }
}
