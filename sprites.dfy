/**
 * Sprites as both generations decode them from object attribute memory
 * (gb/oam_search.go:12-46, gb/ppu/oam.go:14-53) and the visibility test
 * both OAM searches apply (gb/oam_search.go:69-77, gb/ppu/oam.go:77-82).
 * The two generations' code agrees here line for line.
 */
module Sprites {
  import opened Bits

  /** At most ten sprites per line. */
  const MaxSpritesPerScanline: nat := 10

  /** Flag bits of the fourth entry byte. */
  const SpritePalette: nat := 4
  const SpriteFlipX: nat := 5
  const SpriteFlipY: nat := 6
  const SpritePriority: nat := 7

  /** A decoded OAM entry. */
  datatype Sprite = Sprite(
    posY: Byte, posX: Byte, tileN: Byte,
    palette: bool, flipX: bool, flipY: bool, priority: bool)

  /** NewSprite: the entry at addr, Y, X and tile from its first three bytes and the flags from bits 4..7 of the fourth. */
  function NewSprite(oam: seq<Byte>, addr: nat): Sprite
    requires addr + 4 <= |oam|
  {
    var flags := oam[addr + 3];
    Sprite(oam[addr], oam[addr + 1], oam[addr + 2],
           GetBit(flags, SpritePalette), GetBit(flags, SpriteFlipX),
           GetBit(flags, SpriteFlipY), GetBit(flags, SpritePriority))
  }

  /** The four bytes of an entry that decodes to s, with the unused flag bits 0..3 clear. */
  function EncodeSprite(s: Sprite): (b: seq<Byte>)
    ensures |b| == 4
  {
    var flags :=
      SetBit(SetBit(SetBit(SetBit(0, SpritePalette, s.palette), SpriteFlipX, s.flipX),
                    SpriteFlipY, s.flipY), SpritePriority, s.priority);
    [s.posY, s.posX, s.tileN, flags]
  }

  /**
   * The visibility test, in 8-bit arithmetic as written: a non-zero X, and
   * line ly + 16 between Y (included) and Y + height (excluded).
   */
  predicate OnLine(s: Sprite, ly: Byte, height: Byte)
  {
    s.posX != 0 && ly + 0x10 >= s.posY && ly + 0x10 < s.posY + height
  }

  /** The first ten elements, or all of them. */
  function Cap(s: seq<Sprite>): (r: seq<Sprite>)
    ensures |r| <= MaxSpritesPerScanline
  {
    if |s| <= MaxSpritesPerScanline then s else s[..MaxSpritesPerScanline]
  }

  // ---------------------------------------------------------------------
  // Properties.

  /** An entry decodes back to the sprite it was encoded from. */
  lemma DecodeEncode(s: Sprite)
    ensures NewSprite(EncodeSprite(s), 0) == s
  {
    var b := EncodeSprite(s);
    var f0 := SetBit(0, SpritePalette, s.palette);
    var f1 := SetBit(f0, SpriteFlipX, s.flipX);
    var f2 := SetBit(f1, SpriteFlipY, s.flipY);
    SetBitKeepsOthers(f0, SpriteFlipX, s.flipX);
    SetBitKeepsOthers(f1, SpriteFlipY, s.flipY);
    SetBitKeepsOthers(f2, SpritePriority, s.priority);
  }

  /**
   * Decoding loses only flag bits 0..3: encoding the decoded entry gives
   * back its first three bytes and the upper nibble of the fourth.
   */
  lemma EncodeDecode(oam: seq<Byte>, addr: nat)
    requires addr + 4 <= |oam|
    ensures EncodeSprite(NewSprite(oam, addr))[..3] == oam[addr..addr + 3]
    ensures EncodeSprite(NewSprite(oam, addr))[3] == oam[addr + 3] & 0xF0
  {
    var s := NewSprite(oam, addr);
    var w := EncodeSprite(s)[3];
    var v := oam[addr + 3] & 0xF0;
    forall j: nat | j < 8
      ensures GetBit(w, j) == GetBit(v, j)
    {
      FlagBitsOfEncoding(s, j);
    }
    BitsDetermine(w, v);
  }

  /** Bit j of the encoded flags byte: the sprite's flag for j in 4..7, clear otherwise. */
  lemma FlagBitsOfEncoding(s: Sprite, j: nat)
    requires j < 8
    ensures GetBit(EncodeSprite(s)[3], j) ==
      (if j == SpritePalette then s.palette
       else if j == SpriteFlipX then s.flipX
       else if j == SpriteFlipY then s.flipY
       else if j == SpritePriority then s.priority
       else false)
  {
    var f0 := SetBit(0, SpritePalette, s.palette);
    var f1 := SetBit(f0, SpriteFlipX, s.flipX);
    var f2 := SetBit(f1, SpriteFlipY, s.flipY);
    SetBitKeepsOthers(0, SpritePalette, s.palette);
    SetBitKeepsOthers(f0, SpriteFlipX, s.flipX);
    SetBitKeepsOthers(f1, SpriteFlipY, s.flipY);
    SetBitKeepsOthers(f2, SpritePriority, s.priority);
  }

  /**
   * For a visible line (ly < 144) the test says that line ly + 16 lies
   * within the sprite: at or below its top row Y and fewer than height
   * rows below it. Y + height wraps only for Y >= 240, where both forms
   * fail because ly + 16 < 160.
   */
  lemma OnLineIsRowInSprite(s: Sprite, ly: Byte, height: Byte)
    requires ly < 144 && height <= 16
    ensures OnLine(s, ly, height) <==>
      s.posX != 0 && s.posY <= ly + 16 && (ly + 16) - s.posY < height
  {
    LineRow(ly);
    BelowWithin(s.posY, ly + 16, height);
  }

  /** The row a visible line is compared as. */
  lemma LineRow(ly: Byte)
    ensures ly < 144 ==> ly + 16 < 160
  {
  }

  /** With no wrap-around in sight, b < a + h says that b lies fewer than h rows below a. */
  lemma BelowWithin(a: Byte, b: Byte, h: Byte)
    ensures a <= b < 160 && h <= 16 ==> (b < a + h <==> b - a < h)
  {
  }
}
