/**
 * Tile-map and tile-data addressing of the split PPU package
 * (gb/ppu/tiles.go). All addresses are relative to the start of the PPU's
 * 0x4000-byte VRAM array.
 *
 * The PPU struct of gb/ppu/ppu.go declares no bgMap, winMap, tileset or
 * spriteSize field, although these helpers read them; the LCDC flags they
 * stand for are passed in as booleans.
 */
module PpuTiles {
  import opened Bits

  /** The PPU's VRAM and OAM arrays. */
  const VramSize: nat := 0x4000
  const OamSize: nat := 0x100

  /** A tile map: 32 x 32 tile numbers. */
  const MapBytes: nat := 0x400

  /** bgMapAddr and winMapAddr: tile map 1 at 0x1C00, tile map 0 at 0x1800. */
  function MapAddr(map1: bool): (a: Word)
    ensures 0x1800 <= a as int && a as int + MapBytes <= 0x2000
  {
    if map1 then 0x1C00 else 0x1800
  }

  /** int8(id): a tile number read as a signed byte. */
  function Signed(id: Byte): (v: int)
    ensures -128 <= v < 128
    ensures v == id as int || v == id as int - 256
  {
    if id < 0x80 then id as int else id as int - 256
  }

  /**
   * tileData's index. Unsigned mode: uint16(id) * 16 + uint16(offset).
   * Signed mode: 0x1000 + int8(id) * 16 in 32 bits, converted to uint16,
   * plus uint16(offset). The 32-bit base lies in 0x0800..0x17F0 and every
   * sum stays below 0x4000, so no conversion or uint16 sum wraps and the
   * index is the plain integer sum; the bound says so.
   */
  function TileIndex(id: Byte, offset: Byte, unsigned: bool): (i: nat)
    ensures i < VramSize
  {
    if unsigned then id as int * 16 + offset as int
    else 0x1000 + Signed(id) * 16 + offset as int
  }

  /** tileData: the byte of VRAM at the tile index; tileset 1 or a sprite forces unsigned mode. */
  function TileData(vram: seq<Byte>, id: Byte, offset: Byte, tileset1: bool, sprite: bool): Byte
    requires |vram| == VramSize
  {
    vram[TileIndex(id, offset, tileset1 || sprite)]
  }

  /** spriteHeight: 16 rows for large sprites, 8 otherwise. */
  function SpriteHeight(large: bool): (h: Byte)
    ensures h == 8 || h == 16
    ensures large <==> h == 16
  {
    if large then 16 else 8
  }

  // ---------------------------------------------------------------------
  // Properties.

  /**
   * With an offset inside the 16-byte tile, unsigned mode addresses row
   * bytes id * 16 .. id * 16 + 15 of the block at 0x0000, and the index
   * never leaves 0x0000..0x0FFF.
   */
  lemma UnsignedTile(id: Byte, offset: Byte)
    requires offset < 16
    ensures TileIndex(id, offset, true) == id as int * 16 + offset as int
    ensures TileIndex(id, offset, true) < 0x1000
  {
  }

  /**
   * With an offset inside the tile, signed mode addresses tile 0x1000 +
   * int8(id) * 16: tiles 0..127 at 0x1000..0x17FF, tiles 128..255 at
   * 0x0800..0x0FFF, so the index stays in 0x0800..0x17FF.
   */
  lemma SignedTile(id: Byte, offset: Byte)
    requires offset < 16
    ensures TileIndex(id, offset, false) == 0x1000 + Signed(id) * 16 + offset as int
    ensures 0x0800 <= TileIndex(id, offset, false) < 0x1800
  {
  }

  /** Tile numbers 128..255 name the same bytes in both modes: the shared block 0x0800..0x0FFF. */
  lemma SharedBlock(id: Byte, offset: Byte)
    requires offset < 16 && id >= 0x80
    ensures TileIndex(id, offset, false) == TileIndex(id, offset, true)
  {
    UnsignedTile(id, offset);
    SignedTile(id, offset);
  }

  /** Each mode gives every tile number its own 16 bytes: different tiles never share a byte. */
  lemma TilesDisjoint(a: Byte, b: Byte, oa: Byte, ob: Byte, unsigned: bool)
    requires oa < 16 && ob < 16 && a != b
    ensures TileIndex(a, oa, unsigned) != TileIndex(b, ob, unsigned)
  {
    SignedInjective(a, b);
    if unsigned {
      UnsignedTile(a, oa);
      UnsignedTile(b, ob);
      Blocks(a as int, b as int, oa as int, ob as int);
    } else {
      SignedTile(a, oa);
      SignedTile(b, ob);
      Blocks(Signed(a), Signed(b), oa as int, ob as int);
    }
  }

  /** Distinct tile numbers stay distinct read as unsigned or as signed bytes. */
  lemma SignedInjective(a: Byte, b: Byte)
    requires a != b
    ensures a as int != b as int && Signed(a) != Signed(b)
  {
  }

  /** Blocks of 16 at different bases do not overlap. */
  lemma Blocks(x: int, y: int, ox: int, oy: int)
    requires 0 <= ox < 16 && 0 <= oy < 16 && x != y
    ensures x * 16 + ox != y * 16 + oy
  {
  }
}
