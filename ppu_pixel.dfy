/**
 * Pixels as the split PPU's fetcher queues them (gb/ppu/fetcher.go:15-22,
 * 53-55) and their resolution through the palette registers
 * (gb/ppu/transfer.go:44-55). Unlike the monolithic PPU, resolve reads the
 * live BGP, OBP0 and OBP1 registers rather than a snapshot.
 *
 * resolve's switch compares the boolean palette field with 0 and 1; the
 * model reads these as false and true.
 */
module PpuPixel {
  import opened Bits

  /** A 2-bit colour number, whether it is background, and a sprite pixel's palette and priority bits. */
  datatype Pixel = Pixel(data: Byte, bg: bool, palette: bool, priority: bool)

  /** The palette registers: BGP, OBP0 and OBP1. */
  datatype Palettes = Palettes(bgp: Byte, obp0: Byte, obp1: Byte)

  /** The palette register a pixel selects. */
  function PaletteFor(pal: Palettes, px: Pixel): Byte
  {
    if px.bg then pal.bgp
    else if !px.palette then pal.obp0
    else pal.obp1
  }

  /**
   * resolve: the two palette bits the colour number selects. The shift
   * amount data * 2 is computed in 8 bits, and shifting a uint8 by 8 or
   * more gives 0 in Go.
   */
  function Resolve(pal: Palettes, px: Pixel): (shade: Byte)
    ensures shade <= 3
  {
    var shift := px.data * 2;
    if shift >= 8 then 0 else (PaletteFor(pal, px) >> shift) & 0x03
  }

  /** A palette register built from four 2-bit shades, shade 0 in the low bits. */
  function PaletteOf(s0: Byte, s1: Byte, s2: Byte, s3: Byte): Byte
  {
    (s0 & 3) | ((s1 & 3) << 2) | ((s2 & 3) << 4) | ((s3 & 3) << 6)
  }

  /** Resolving colour number d through a palette gives back the d-th shade it was built from. */
  lemma ResolvePicksShade(pal: Palettes, px: Pixel, s0: Byte, s1: Byte, s2: Byte, s3: Byte)
    requires px.data <= 3 && s0 <= 3 && s1 <= 3 && s2 <= 3 && s3 <= 3
    requires PaletteFor(pal, px) == PaletteOf(s0, s1, s2, s3)
    ensures Resolve(pal, px) == [s0, s1, s2, s3][px.data]
  {
  }

  /**
   * Background pixels use BGP whatever their palette bit; sprite pixels use
   * OBP0 or OBP1 by their palette bit.
   */
  lemma ResolveSources(pal: Palettes, data: Byte, palette: bool, priority: bool)
    requires data <= 3
    ensures Resolve(pal, Pixel(data, true, palette, priority)) == (pal.bgp >> (data * 2)) & 3
    ensures Resolve(pal, Pixel(data, false, false, priority)) == (pal.obp0 >> (data * 2)) & 3
    ensures Resolve(pal, Pixel(data, false, true, priority)) == (pal.obp1 >> (data * 2)) & 3
  {
  }
}
