/**
 * The arithmetic helpers of the monolithic CPU (the op* methods at the end of
 * gb/instructions.go). In the source each helper writes the flags through the
 * CPU's flag setters; here each returns its result together with the four
 * flags it leaves, and the CPU class writes them back into F.
 */
module GbAlu {
  import opened Bits

  /** The four flags of register F: Z (bit 7), N (bit 6), H (bit 5), C (bit 4). */
  datatype Flags = Flags(z: bool, n: bool, h: bool, c: bool)

  /** An 8-bit helper's result together with the flags it leaves. */
  datatype ByteResult = ByteResult(value: Byte, flags: Flags)

  /** A 16-bit helper's result together with the flags it leaves. */
  datatype WordResult = WordResult(value: Word, flags: Flags)

  /** opAdd: a + b + cy modulo 2^8 with the 8-bit ADD/ADC flag rules. */
  function OpAdd(a: Byte, b: Byte, cy: Byte): (r: ByteResult)
    ensures r.value == a + b + cy
    ensures r.flags.z <==> r.value == 0
    ensures !r.flags.n
  {
    // Go sums in uint16 and truncates; the truncated sum is the 8-bit sum
    var r16 := (a as Word) + (b as Word) + (cy as Word);
    var r := a + b + cy;
    ByteResult(r, Flags(r == 0, false, (a & 0xF) + (b & 0xF) + (cy & 0xF) > 0xF, r16 > 0xFF))
  }

  /** For the carries 0 and 1 the table passes, H is the carry out of bit 3 into bit 4. */
  lemma AddHalfCarry(a: Byte, b: Byte, cy: Byte)
    requires cy <= 1
    ensures OpAdd(a, b, cy).flags.h <==> (a ^ b ^ OpAdd(a, b, cy).value) & 0x10 != 0
  {
  }

  /** For the carries 0 and 1, C is unsigned overflow: the 8-bit sum wrapped below a. */
  lemma AddCarry(a: Byte, b: Byte, cy: Byte)
    requires cy <= 1
    ensures OpAdd(a, b, cy).flags.c <==>
      (if cy == 0 then OpAdd(a, b, cy).value < a else OpAdd(a, b, cy).value <= a)
  {
  }

  /**
   * opSub: a - b - bw modulo 2^8. The source computes H by letting the nibble
   * difference wrap in uint8 and C by letting the difference wrap in uint16.
   */
  function OpSub(a: Byte, b: Byte, bw: Byte): (r: ByteResult)
    ensures r.value == a - b - bw
    ensures r.flags.z <==> r.value == 0
    ensures r.flags.n
  {
    var r16 := (a as Word) - (b as Word) - (bw as Word);
    var r := a - b - bw;
    ByteResult(r, Flags(r == 0, true, (a & 0xF) - (b & 0xF) - (bw & 0xF) > 0xF, r16 > 0xFF))
  }

  /** H of opSub is set exactly when the low nibble needs a borrow. */
  lemma SubHalfBorrow(a: Byte, b: Byte, bw: Byte)
    ensures OpSub(a, b, bw).flags.h <==> (a & 0xF) < (b & 0xF) + (bw & 0xF)
  {
  }

  /** For the borrows 0 and 1 the table passes, C of opSub is set exactly when a < b + bw. */
  lemma SubBorrow(a: Byte, b: Byte, bw: Byte)
    requires bw <= 1
    ensures OpSub(a, b, bw).flags.c <==> a < b || (bw == 1 && a == b)
  {
  }

  /** Subtraction undoes addition: (a - b - bw) + b + bw is a again, and its carry is the borrow. */
  lemma SubUndoesAdd(a: Byte, b: Byte, bw: Byte)
    requires bw <= 1
    ensures OpAdd(OpSub(a, b, bw).value, b, bw).value == a
    ensures OpAdd(OpSub(a, b, bw).value, b, bw).flags.c == OpSub(a, b, bw).flags.c
  {
    SubBorrow(a, b, bw);
    AddCarry(a - b - bw, b, bw);
    WrapBelow(a, b, bw);
  }

  /** The difference a - b - bw wraps past a exactly when b + bw exceeds a. */
  lemma WrapBelow(a: Byte, b: Byte, bw: Byte)
    requires bw <= 1
    ensures (if bw == 0 then a < a - b else a <= a - b - 1) <==> a < b || (bw == 1 && a == b)
  {
    if bw == 0 {
      assert a < b <==> a < a - b;
    } else {
      assert a <= b <==> a <= a - b - 1;
    }
  }

  /** opInc: v + 1 with the flags of opAdd(v, 1, 0), except that C keeps its old value. */
  function OpInc(v: Byte, fl: Flags): (r: ByteResult)
    ensures r.value == v + 1
    ensures r.flags.z <==> v == 0xFF
    ensures !r.flags.n
    ensures r.flags.h <==> v & 0xF == 0xF
    ensures r.flags.c == fl.c
  {
    var s := OpAdd(v, 1, 0);
    ByteResult(s.value, s.flags.(c := fl.c))
  }

  /** opDec: v - 1 with the flags of opSub(v, 1, 0), except that C keeps its old value. */
  function OpDec(v: Byte, fl: Flags): (r: ByteResult)
    ensures r.value == v - 1
    ensures r.flags.z <==> v == 1
    ensures r.flags.n
    ensures r.flags.h <==> v & 0xF == 0
    ensures r.flags.c == fl.c
  {
    var s := OpSub(v, 1, 0);
    ByteResult(s.value, s.flags.(c := fl.c))
  }

  /** Sign extension of a byte to 16 bits (Go's int32(int8(b)) truncated to uint16). */
  function SignExtend(b: Byte): (w: Word)
    ensures Lo(w) == b
    ensures Hi(w) == (if b & 0x80 != 0 then 0xFF else 0x00)
  {
    if b & 0x80 != 0 then (b as Word) | 0xFF00 else b as Word
  }

  /**
   * opSignedAdd: a plus the signed offset b, modulo 2^16. Z and N are
   * cleared; H and C are those of the unsigned add of a's low byte and b.
   */
  function OpSignedAdd(a: Word, b: Byte): (r: WordResult)
    ensures r.value == a + SignExtend(b)
    ensures !r.flags.z && !r.flags.n
    ensures r.flags.h == OpAdd(Lo(a), b, 0).flags.h
    ensures r.flags.c == OpAdd(Lo(a), b, 0).flags.c
  {
    var lo := OpAdd(Lo(a), b, 0);
    WordResult(a + SignExtend(b), lo.flags.(z := false, n := false))
  }

  /** The low byte of opSignedAdd's sum is the 8-bit sum whose flags it reports. */
  lemma SignedAddLowByte(a: Word, b: Byte)
    ensures Lo(OpSignedAdd(a, b).value) == OpAdd(Lo(a), b, 0).value
  {
  }

  /** A negative offset moves down: b >= 0x80 stands for b - 0x100. */
  lemma SignedAddNegative(a: Word, b: Byte)
    requires b >= 0x80
    ensures OpSignedAdd(a, b).value == a - (0x100 - b as Word)
  {
  }

  /** opAnd: bitwise AND; H is set, N and C cleared. */
  function OpAnd(a: Byte, b: Byte): (r: ByteResult)
    ensures r.value == a & b
    ensures r.flags.z <==> a & b == 0
    ensures !r.flags.n && r.flags.h && !r.flags.c
  {
    var v := a & b;
    ByteResult(v, Flags(v == 0, false, true, false))
  }

  /** opXor: bitwise XOR; N, H and C cleared. Z is set exactly when a == b. */
  function OpXor(a: Byte, b: Byte): (r: ByteResult)
    ensures r.value == a ^ b
    ensures r.flags.z <==> a == b
    ensures !r.flags.n && !r.flags.h && !r.flags.c
  {
    var v := a ^ b;
    ByteResult(v, Flags(v == 0, false, false, false))
  }

  /** opOr: bitwise OR; N, H and C cleared. Z is set exactly when both operands are 0. */
  function OpOr(a: Byte, b: Byte): (r: ByteResult)
    ensures r.value == a | b
    ensures r.flags.z <==> a == 0 && b == 0
    ensures !r.flags.n && !r.flags.h && !r.flags.c
  {
    var v := a | b;
    ByteResult(v, Flags(v == 0, false, false, false))
  }

  /**
   * opCp: the comparison a - b. It returns the difference (which the CP table
   * entries store back into A) with Z meaning a == b and C meaning a < b.
   */
  function OpCp(a: Byte, b: Byte): (r: ByteResult)
    ensures r.value == a - b
    ensures r.flags.z <==> a == b
    ensures r.flags.n
    ensures r.flags.c <==> a < b
    ensures r.flags.h <==> (a & 0xF) < (b & 0xF)
  {
    var v := a - b;
    ByteResult(v, Flags(v == 0, true, a & 0xF < b & 0xF, a < b))
  }

  /** CP leaves exactly what a SUB without borrow leaves. */
  lemma CpIsSub(a: Byte, b: Byte)
    ensures OpCp(a, b) == OpSub(a, b, 0)
  {
    SubHalfBorrow(a, b, 0);
    SubBorrow(a, b, 0);
  }

  /** opAdd16: the 16-bit add of ADD HL,rr; Z keeps its old value and N is cleared. */
  function OpAdd16(a: Word, b: Word, fl: Flags): (r: WordResult)
    ensures r.value == a + b
    ensures r.flags.z == fl.z
    ensures !r.flags.n
  {
    var r32 := (a as bv32) + (b as bv32);
    var r := a + b;
    WordResult(r, Flags(fl.z, false, (a & 0x0FFF) as bv32 > r32 & 0x0FFF, r32 > 0xFFFF))
  }

  /** The source's test "low 12 bits of a exceed those of the sum" is a carry out of bit 11. */
  lemma Add16HalfCarry(a: Word, b: Word, fl: Flags)
    ensures OpAdd16(a, b, fl).flags.h <==> (a & 0xFFF) + (b & 0xFFF) > 0xFFF
  {
  }

  /**
   * C of opAdd16 is the carry out of bit 15: the carry out of bit 11 (H)
   * rippled through the top nibbles.
   */
  lemma Add16Carry(a: Word, b: Word, fl: Flags)
    ensures OpAdd16(a, b, fl).flags.c <==>
      (a >> 12) + (b >> 12) + (if OpAdd16(a, b, fl).flags.h then 1 else 0) > 0xF
  {
    Add16HalfCarry(a, b, fl);
  }

  /**
   * opDaa as written: after an addition it adds 6 when H is set or the low
   * digit exceeds 9, and only then tests A > 0x99 for the 0x60 adjustment.
   */
  function OpDaa(a: Byte, fl: Flags): (r: ByteResult)
    ensures r.flags.z <==> r.value == 0
    ensures r.flags.n == fl.n
    ensures !r.flags.h
    ensures fl.c ==> r.flags.c
    ensures fl.n ==> r.flags.c == fl.c
  {
    if !fl.n then
      var a1 := if fl.h || (a & 0xF) > 9 then a + 0x06 else a;
      var up := fl.c || a1 > 0x99;
      var a2 := if up then a1 + 0x60 else a1;
      ByteResult(a2, Flags(a2 == 0, fl.n, false, fl.c || up))
    else
      var a1 := if fl.c then a - 0x60 else a;
      var a2 := if fl.h then a1 - 0x06 else a1;
      ByteResult(a2, Flags(a2 == 0, fl.n, false, fl.c))
  }

  /** After an addition, opDaa sets C exactly when it added 0x60 (with or without the 6). */
  lemma DaaCarryMeansAdjust(a: Byte, fl: Flags)
    requires !fl.n
    ensures OpDaa(a, fl).flags.c <==> OpDaa(a, fl).value - a in {0x60, 0x66}
  {
  }

  /**
   * The order of the DAA adjustment this emulator's DAA cites, which tests
   * A > 0x99 on the unadjusted value before adding 6. The instruction table
   * runs OpDaa, the order as written; this is the corrected definition.
   */
  function OpDaaIntended(a: Byte, fl: Flags): (r: ByteResult)
    ensures r.flags.z <==> r.value == 0
    ensures r.flags.n == fl.n
    ensures !r.flags.h
    ensures fl.c ==> r.flags.c
    ensures fl.n ==> r.flags.c == fl.c && r == OpDaa(a, fl)
  {
    if !fl.n then
      var up := fl.c || a > 0x99;
      var a1 := if up then a + 0x60 else a;
      var a2 := if fl.h || (a & 0xF) > 9 then a1 + 0x06 else a1;
      ByteResult(a2, Flags(a2 == 0, fl.n, false, fl.c || up))
    else
      OpDaa(a, fl)
  }

  /** A byte holding two binary-coded decimal digits. */
  predicate IsBcd(x: Byte)
  {
    x >> 4 <= 9 && x & 0xF <= 9
  }

  /**
   * A decimal reference adder, digit by digit: the BCD digits of x + y + cy
   * modulo 100, and whether the decimal sum reached 100.
   */
  function BcdAdd(x: Byte, y: Byte, cy: Byte): (r: (Byte, bool))
    requires IsBcd(x) && IsBcd(y) && cy <= 1
    ensures IsBcd(r.0)
  {
    var lowSum := (x & 0xF) + (y & 0xF) + cy;
    var lowCarry := lowSum > 9;
    var low := if lowCarry then lowSum - 10 else lowSum;
    var highSum := (x >> 4) + (y >> 4) + (if lowCarry then 1 else 0);
    var carry := highSum > 9;
    var high := if carry then highSum - 10 else highSum;
    ((high << 4) | low, carry)
  }

  /**
   * A decimal reference subtractor, digit by digit: the BCD digits of
   * x - y - bw modulo 100, and whether the decimal difference went below 0.
   */
  function BcdSub(x: Byte, y: Byte, bw: Byte): (r: (Byte, bool))
    requires IsBcd(x) && IsBcd(y) && bw <= 1
    ensures IsBcd(r.0)
  {
    var lowBorrow := (x & 0xF) < (y & 0xF) + bw;
    var low := if lowBorrow then (x & 0xF) + 10 - (y & 0xF) - bw else (x & 0xF) - (y & 0xF) - bw;
    var hb: Byte := if lowBorrow then 1 else 0;
    var borrow := (x >> 4) < (y >> 4) + hb;
    var high := if borrow then (x >> 4) + 10 - (y >> 4) - hb else (x >> 4) - (y >> 4) - hb;
    ((high << 4) | low, borrow)
  }

  /** With the intended order, DAA after ADD or ADC of two BCD bytes yields their decimal sum. */
  lemma DaaAfterAdd(x: Byte, y: Byte, cy: Byte)
    requires IsBcd(x) && IsBcd(y) && cy <= 1
    ensures OpDaaIntended(OpAdd(x, y, cy).value, OpAdd(x, y, cy).flags)
      == ByteResult(BcdAdd(x, y, cy).0, Flags(BcdAdd(x, y, cy).0 == 0, false, false, BcdAdd(x, y, cy).1))
  {
    if (x & 0xF) + (y & 0xF) + cy > 9 {
      BcdAddLowCarry(x, y, cy);
    } else {
      BcdAddNoLowCarry(x, y, cy);
    }
  }

  /** DaaAfterAdd when the low digits carry into the high digit. */
  lemma BcdAddLowCarry(x: Byte, y: Byte, cy: Byte)
    requires IsBcd(x) && IsBcd(y) && cy <= 1
    requires (x & 0xF) + (y & 0xF) + cy > 9
    ensures OpDaaIntended(OpAdd(x, y, cy).value, OpAdd(x, y, cy).flags)
      == ByteResult(BcdAdd(x, y, cy).0, Flags(BcdAdd(x, y, cy).0 == 0, false, false, BcdAdd(x, y, cy).1))
  {
  }

  /** DaaAfterAdd when the low digits do not carry. */
  lemma BcdAddNoLowCarry(x: Byte, y: Byte, cy: Byte)
    requires IsBcd(x) && IsBcd(y) && cy <= 1
    requires (x & 0xF) + (y & 0xF) + cy <= 9
    ensures OpDaaIntended(OpAdd(x, y, cy).value, OpAdd(x, y, cy).flags)
      == ByteResult(BcdAdd(x, y, cy).0, Flags(BcdAdd(x, y, cy).0 == 0, false, false, BcdAdd(x, y, cy).1))
  {
  }

  /** For BCD operands the binary borrow of SUB/SBC is the decimal borrow. */
  lemma BcdBorrow(x: Byte, y: Byte, bw: Byte)
    requires IsBcd(x) && IsBcd(y) && bw <= 1
    ensures OpSub(x, y, bw).flags.c == BcdSub(x, y, bw).1
  {
    SubBorrow(x, y, bw);
  }

  /** For BCD operands DAA's two subtractions turn the binary difference into the decimal digits. */
  lemma BcdSubDigits(x: Byte, y: Byte, bw: Byte)
    requires IsBcd(x) && IsBcd(y) && bw <= 1
    ensures OpDaa(OpSub(x, y, bw).value, OpSub(x, y, bw).flags).value == BcdSub(x, y, bw).0
  {
    SubHalfBorrow(x, y, bw);
    BcdBorrow(x, y, bw);
    if (x & 0xF) < (y & 0xF) + bw {
      BcdSubLowBorrow(x, y, bw);
    } else {
      BcdSubNoLowBorrow(x, y, bw);
    }
  }

  lemma BcdSubLowBorrow(x: Byte, y: Byte, bw: Byte)
    requires IsBcd(x) && IsBcd(y) && bw <= 1
    requires (x & 0xF) < (y & 0xF) + bw
    ensures OpSub(x, y, bw).flags.h
    ensures OpDaa(OpSub(x, y, bw).value, OpSub(x, y, bw).flags).value == BcdSub(x, y, bw).0
  {
    SubHalfBorrow(x, y, bw);
    BcdBorrow(x, y, bw);
  }

  lemma BcdSubNoLowBorrow(x: Byte, y: Byte, bw: Byte)
    requires IsBcd(x) && IsBcd(y) && bw <= 1
    requires (y & 0xF) + bw <= (x & 0xF)
    ensures !OpSub(x, y, bw).flags.h
    ensures OpDaa(OpSub(x, y, bw).value, OpSub(x, y, bw).flags).value == BcdSub(x, y, bw).0
  {
    SubHalfBorrow(x, y, bw);
    BcdBorrow(x, y, bw);
  }

  /** DAA after SUB or SBC of two BCD bytes yields their decimal difference (both orders agree here). */
  lemma DaaAfterSub(x: Byte, y: Byte, bw: Byte)
    requires IsBcd(x) && IsBcd(y) && bw <= 1
    ensures OpDaa(OpSub(x, y, bw).value, OpSub(x, y, bw).flags)
      == ByteResult(BcdSub(x, y, bw).0, Flags(BcdSub(x, y, bw).0 == 0, true, false, BcdSub(x, y, bw).1))
  {
    BcdBorrow(x, y, bw);
    BcdSubDigits(x, y, bw);
  }

  /**
   * The order as written loses the decimal carry: 61 + 99 adds to 0xFA, the
   * early +6 wraps A to 0x00, and the A > 0x99 test then fails, so DAA leaves
   * 0x00 with C clear where the decimal sum 160 needs 0x60 with C set.
   */
  lemma DaaAsWrittenLosesCarry()
    ensures OpAdd(0x61, 0x99, 0).value == 0xFA
    ensures OpDaa(0xFA, OpAdd(0x61, 0x99, 0).flags) == ByteResult(0x00, Flags(true, false, false, false))
    ensures BcdAdd(0x61, 0x99, 0) == (0x60, true)
    ensures OpDaaIntended(0xFA, OpAdd(0x61, 0x99, 0).flags) == ByteResult(0x60, Flags(false, false, false, true))
  {
  }
}
