/**
 * Pixels as the monolithic fetcher queues them (gb/fetcher.go:11-24) and
 * their resolution to a shade through the palette registers the pixel
 * transfer snapshots (gb/pixel_transfer.go:75-86).
 */
module GbPixel {
  import opened Bits

  /** Pixel sources: sprite priority and palette bits, or the background. */
  const PixelSrc00: nat := 0
  const PixelSrc01: nat := 1
  const PixelSrc10: nat := 2
  const PixelSrc11: nat := 3
  const PixelSrcBG: nat := 4

  /** A 2-bit colour number and where it came from. */
  datatype Pixel = Pixel(data: Byte, src: nat)

  /** The palette registers as snapshotted at the start of pixel transfer. */
  datatype Palettes = Palettes(bgp: Byte, obp0: Byte, obp1: Byte)

  /** The palette a source selects; an unknown source leaves Go's zero value. */
  function PaletteFor(pal: Palettes, src: nat): Byte
  {
    if src == PixelSrc00 || src == PixelSrc10 then pal.obp0
    else if src == PixelSrc01 || src == PixelSrc11 then pal.obp1
    else if src == PixelSrcBG then pal.bgp
    else 0
  }

  /**
   * Resolve: the two palette bits the colour number selects. The shift
   * amount data * 2 is computed in 8 bits; shifting a uint8 by 8 or more
   * gives 0 in Go.
   */
  function Resolve(pal: Palettes, px: Pixel): (shade: Byte)
    ensures shade <= 3
  {
    var palette := PaletteFor(pal, px.src);
    var shift := px.data * 2;
    if shift >= 8 then 0 else (palette >> shift) & 0x03
  }

  /** A palette register built from four 2-bit shades, shade 0 in the low bits. */
  function PaletteOf(s0: Byte, s1: Byte, s2: Byte, s3: Byte): Byte
  {
    (s0 & 3) | ((s1 & 3) << 2) | ((s2 & 3) << 4) | ((s3 & 3) << 6)
  }

  /** Resolving colour number d through a palette gives back the d-th shade it was built from. */
  lemma ResolvePicksShade(pal: Palettes, px: Pixel, s0: Byte, s1: Byte, s2: Byte, s3: Byte)
    requires px.data <= 3 && s0 <= 3 && s1 <= 3 && s2 <= 3 && s3 <= 3
    requires PaletteFor(pal, px.src) == PaletteOf(s0, s1, s2, s3)
    ensures Resolve(pal, px) == [s0, s1, s2, s3][px.data]
  {
  }

  /** Sprite pixels of palette 0 use OBP0, of palette 1 OBP1, background pixels BGP. */
  lemma ResolveSources(pal: Palettes, data: Byte)
    requires data <= 3
    ensures Resolve(pal, Pixel(data, PixelSrc00)) == Resolve(pal, Pixel(data, PixelSrc10)) == (pal.obp0 >> (data * 2)) & 3
    ensures Resolve(pal, Pixel(data, PixelSrc01)) == Resolve(pal, Pixel(data, PixelSrc11)) == (pal.obp1 >> (data * 2)) & 3
    ensures Resolve(pal, Pixel(data, PixelSrcBG)) == (pal.bgp >> (data * 2)) & 3
  {
  }
}
