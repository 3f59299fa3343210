/**
 * Byte packing and single-bit helpers (utils/utils.go), shared by both
 * generations of the emulator.
 */
module Bits {
  /** An unsigned 8-bit value (Go's uint8); arithmetic wraps modulo 2^8. */
  type Byte = bv8
  /** An unsigned 16-bit value (Go's uint16); arithmetic wraps modulo 2^16. */
  type Word = bv16

  /** The high byte of a 16-bit value. */
  function Hi(s: Word): Byte { (s >> 8) as Byte }

  /** The low byte of a 16-bit value (Go's truncating uint8 conversion). */
  function Lo(s: Word): Byte { (s & 0xFF) as Byte }

  /** CombineBytes: the first argument becomes the high byte. */
  function CombineBytes(a: Byte, b: Byte): (s: Word)
    ensures Hi(s) == a && Lo(s) == b
  {
    ((a as Word) << 8) | (b as Word)
  }

  /** SplitShort: returns (high byte, low byte). */
  function SplitShort(s: Word): (r: (Byte, Byte))
    ensures CombineBytes(r.0, r.1) == s
  {
    (Hi(s), Lo(s))
  }

  /** SplitShort undoes CombineBytes, high byte first. */
  lemma SplitCombine(a: Byte, b: Byte)
    ensures SplitShort(CombineBytes(a, b)) == (a, b)
  {
  }

  /** A byte sequence with the byte at i replaced: the store into a backing array. */
  function Store(s: seq<Byte>, i: nat, v: Byte): (r: seq<Byte>)
    requires i < |s|
    ensures |r| == |s|
  {
    s[i := v]
  }

  /** A store is seen at its own index only. */
  lemma StoreRead(s: seq<Byte>, i: nat, j: nat, v: Byte)
    requires i < |s| && j < |s|
    ensures Store(s, i, v)[j] == if i == j then v else s[j]
  {
  }

  /** Distinct 16-bit values stay distinct as integers. */
  lemma WordToIntInjective(x: Word, y: Word)
    requires x != y
    ensures x as int != y as int
  {
    assert (x as int) as Word == x;
    assert (y as int) as Word == y;
  }

  /** The single-bit mask 1 << i of a byte, for i in 0..7. */
  function Mask(i: nat): (m: Byte)
    requires i < 8
  {
    match i
    case 0 => 0x01 case 1 => 0x02 case 2 => 0x04 case 3 => 0x08
    case 4 => 0x10 case 5 => 0x20 case 6 => 0x40 case _ => 0x80
  }

  /** Mask(i) is the shift Go computes. */
  lemma MaskIsShift(i: nat)
    requires i < 8
    ensures Mask(i) == (1 as Byte) << i
  {
  }

  /** Distinct positions have disjoint masks. */
  lemma MaskDisjoint(i: nat, j: nat)
    requires i < 8 && j < 8 && i != j
    ensures Mask(i) & Mask(j) == 0
  {
  }

  /**
   * GetBit. Go shifts a uint8 right by i; for i >= 8 the result is 0, so the
   * bit reads as clear. (A negative i panics in Go; the index is a nat here.)
   */
  function GetBit(v: Byte, i: nat): bool
  {
    i < 8 && v & Mask(i) != 0
  }

  /**
   * SetBit. The untyped constant 1 << i takes the type uint8, so for i >= 8
   * the mask is 0 and v comes back unchanged.
   */
  function SetBit(v: Byte, i: nat, on: bool): (r: Byte)
    ensures i < 8 ==> GetBit(r, i) == on
    ensures i >= 8 ==> r == v
  {
    if i >= 8 then v
    else if on then v | Mask(i)
    else v & !Mask(i)
  }

  /** SetBit leaves every bit other than i as it was. */
  lemma SetBitKeepsOthers(v: Byte, i: nat, on: bool)
    ensures forall j: nat :: j != i ==> GetBit(SetBit(v, i, on), j) == GetBit(v, j)
  {
    forall j: nat | j != i
      ensures GetBit(SetBit(v, i, on), j) == GetBit(v, j)
    {
      if j < 8 && i < 8 {
        MaskDisjoint(i, j);
      }
    }
  }

  /** Setting a bit to the value it already has changes nothing. */
  lemma SetBitIdempotent(v: Byte, i: nat, on: bool)
    ensures SetBit(SetBit(v, i, on), i, on) == SetBit(v, i, on)
  {
  }

  /** Bits are determined by GetBit on positions 0..7. */
  lemma BitsDetermine(x: Byte, y: Byte)
    requires forall j: nat :: j < 8 ==> GetBit(x, j) == GetBit(y, j)
    ensures x == y
  {
    assert GetBit(x, 0) == GetBit(y, 0);
    assert GetBit(x, 1) == GetBit(y, 1);
    assert GetBit(x, 2) == GetBit(y, 2);
    assert GetBit(x, 3) == GetBit(y, 3);
    assert GetBit(x, 4) == GetBit(y, 4);
    assert GetBit(x, 5) == GetBit(y, 5);
    assert GetBit(x, 6) == GetBit(y, 6);
    assert GetBit(x, 7) == GetBit(y, 7);
  }

  /**
   * Stand-in for utils.GetBit16, which the timer code calls but which is not
   * part of this model: the 16-bit analogue of GetBit.
   */
  function GetBit16(v: Word, i: nat): bool
  {
    i < 16 && (v >> i) & 1 == 1
  }

  /**
   * Stand-in for utils.CopyBit(src, dst, i), which the joypad calls but which
   * is not part of this model: dst with bit i replaced by bit i of src.
   */
  function CopyBit(src: Byte, dst: Byte, i: nat): (r: Byte)
    ensures i < 8 ==> GetBit(r, i) == GetBit(src, i)
    ensures forall j: nat :: j != i ==> GetBit(r, j) == GetBit(dst, j)
  {
    SetBitKeepsOthers(dst, i, GetBit(src, i));
    SetBit(dst, i, GetBit(src, i))
  }
}
