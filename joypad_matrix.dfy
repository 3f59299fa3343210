/**
 * The joypad matrix as both generations compute it (gb/joypad.go:79-100,
 * gb/joypad/joypad.go:48-69): the JOYP register after the select lines have
 * been AND-ed with the input lines, and the falling-edge test that raises
 * the joypad interrupt. Matrix is the register as the code computes it:
 * the button step tests bit 5 after the D-pad step has cleared it, so the
 * button lines leak into a D-pad reading; the two generations' Joypad
 * classes compute it in place and are proved to leave exactly its value.
 * MatrixIntended, the corrected matrix, tests the select bits as the
 * program wrote them.
 */
module JoypadMatrix {
  import opened Bits

  /** Bits 4 and 5 of JOYP: a low bit selects the D-pad or the button lines. */
  const SelectDPad: nat := 4
  const SelectButton: nat := 5

  /** Button numbers: the input bit each button drives (A, B, Select, Start, Right, Left, Up, Down). */
  const ButtonA: nat := 0
  const ButtonB: nat := 1
  const ButtonSelect: nat := 2
  const ButtonStart: nat := 3
  const ButtonRight: nat := 4
  const ButtonLeft: nat := 5
  const ButtonUp: nat := 6
  const ButtonDown: nat := 7

  /** The interrupt a falling input line requests. */
  const InterruptJoypad: nat := 4

  /** JOYP once the low nibble has been pulled high again. */
  function Released(joyp: Byte): Byte { joyp | 0x0F }

  /** The D-pad step: AND in the D-pad lines (input bits 4..7 moved down) if bit 4 is low. */
  function DPadStep(input: Byte, j: Byte): Byte
  {
    if !GetBit(j, SelectDPad) then j & (input >> 4) else j
  }

  /** The button step: AND in the button lines (input bits 0..3) if bit 5 is low. */
  function ButtonStep(input: Byte, j: Byte): Byte
  {
    if !GetBit(j, SelectButton) then j & (input & 0x0F) else j
  }

  /**
   * The JOYP register update() leaves. The button step tests bit 5 of the
   * register as the D-pad step left it, not as the program wrote it.
   */
  function Matrix(input: Byte, joyp: Byte): Byte
  {
    ButtonStep(input, DPadStep(input, Released(joyp)))
  }

  /**
   * The edge test newBits ^ (oldBits | newBits) != 0: some low-nibble line
   * that read 1 before the update reads 0 after it.
   */
  predicate FallingEdge(before: Byte, after: Byte)
  {
    (after & 0x0F) ^ ((before & 0x0F) | (after & 0x0F)) != 0
  }

  /** The joypad interrupt is requested iff one of lines 0..3 went from 1 to 0. */
  lemma FallingEdgeIsLineDrop(before: Byte, after: Byte)
    ensures FallingEdge(before, after) <==>
      exists k: nat :: k < 4 && GetBit(before, k) && !GetBit(after, k)
  {
    var d := (before & 0x0F) & !(after & 0x0F);
    assert (after & 0x0F) ^ ((before & 0x0F) | (after & 0x0F)) == d;
    if d != 0 {
      if d & 1 != 0 { assert GetBit(before, 0) && !GetBit(after, 0); }
      else if d & 2 != 0 { assert GetBit(before, 1) && !GetBit(after, 1); }
      else if d & 4 != 0 { assert GetBit(before, 2) && !GetBit(after, 2); }
      else { assert GetBit(before, 3) && !GetBit(after, 3); }
    }
  }

  /**
   * SetJOYP's two CopyBit calls: bit 5, then bit 4, of the written value
   * replace the select bits; every other bit is kept.
   */
  function Select(v: Byte, joyp: Byte): Byte
  {
    CopyBit(v, CopyBit(v, joyp, SelectButton), SelectDPad)
  }

  /** Select takes bits 4 and 5 from v and the rest from the register. */
  lemma {:induction false} SelectCopiesSelectBits(v: Byte, joyp: Byte)
    ensures Select(v, joyp) == (joyp & 0xCF) | (v & 0x30)
  {
    var r := Select(v, joyp);
    var w := (joyp & 0xCF) | (v & 0x30);
    forall j: nat | j < 8
      ensures GetBit(r, j) == GetBit(w, j)
    {
      if j == 4 || j == 5 {
        assert GetBit(w, j) == GetBit(v, j);
      } else {
        assert GetBit(w, j) == GetBit(joyp, j);
      }
    }
    BitsDetermine(r, w);
  }

  /** Nothing selected: the low nibble reads 0xF and the select bits stay as written. */
  lemma NothingSelected(input: Byte, joyp: Byte)
    requires GetBit(joyp, SelectDPad) && GetBit(joyp, SelectButton)
    ensures Matrix(input, joyp) == joyp | 0x0F
  {
  }

  /**
   * Selecting either group clears JOYP's upper nibble, select bits
   * included, because both masks have a zero upper nibble.
   */
  lemma SelectionClearsUpperNibble(input: Byte, joyp: Byte)
    requires !GetBit(joyp, SelectDPad) || !GetBit(joyp, SelectButton)
    ensures Matrix(input, joyp) & 0xF0 == 0
  {
  }

  /**
   * The low nibble: the D-pad lines when bit 4 was written low, the button
   * lines when bit 4 or bit 5 was written low (the D-pad step has cleared
   * bit 5 by the time the button step looks at it).
   */
  lemma MatrixLines(input: Byte, joyp: Byte)
    ensures Matrix(input, joyp) & 0x0F ==
      0x0F
      & (if !GetBit(joyp, SelectDPad) then input >> 4 else 0x0F)
      & (if !GetBit(joyp, SelectDPad) || !GetBit(joyp, SelectButton) then input & 0x0F else 0x0F)
  {
  }

  /** Selecting only the button group leaves exactly the button lines, upper nibble clear. */
  lemma ButtonsSelected(input: Byte, joyp: Byte)
    requires GetBit(joyp, SelectDPad) && !GetBit(joyp, SelectButton)
    ensures Matrix(input, joyp) == input & 0x0F
  {
  }

  /**
   * Once a selection has cleared the upper nibble, pressing any button
   * whose line still reads high requests the joypad interrupt.
   */
  lemma PressRequestsInterrupt(input: Byte, joyp: Byte, b: nat)
    requires b < 8 && joyp & 0xF0 == 0 && GetBit(joyp, b % 4)
    ensures FallingEdge(joyp, Matrix(SetBit(input, b, false), joyp))
  {
  }

  /** Releasing a button never requests the interrupt while JOYP is up to date. */
  lemma ReleaseRequestsNothing(input: Byte, joyp: Byte, b: nat)
    requires joyp & 0x0F == Matrix(input, joyp) & 0x0F
    ensures !FallingEdge(joyp, Matrix(SetBit(input, b, true), joyp))
  {
  }

  // ---------------------------------------------------------------------
  // The select-line quirk.

  /**
   * With only the D-pad selected (JOYP written 0x20) and only A pressed,
   * the register reads 0x0E, the pattern of Right held: the button lines
   * leak into the D-pad reading, and both select bits read low.
   */
  lemma DPadReadsButtonLines()
    ensures Matrix(0xFE, 0x20) == 0x0E
    ensures MatrixIntended(0xFE, 0x20) == 0x2F
  {
  }

  /**
   * The matrix as evidently intended: the select bits are tested as the
   * program wrote them and kept, and each selected group pulls its lines
   * into the low nibble.
   */
  function MatrixIntended(input: Byte, joyp: Byte): (r: Byte)
    ensures r & 0xF0 == joyp & 0xF0
  {
    var dpad: Byte := if !GetBit(joyp, SelectDPad) then input >> 4 else 0x0F;
    var buttons: Byte := if !GetBit(joyp, SelectButton) then input & 0x0F else 0x0F;
    (joyp | 0x0F) & (0xF0 | (dpad & buttons))
  }

  /**
   * In the intended matrix line k reads 0 exactly when a selected group
   * holds its button k pressed (input bit k for buttons, k + 4 for the D-pad).
   */
  lemma MatrixIntendedLines(input: Byte, joyp: Byte, k: nat)
    requires k < 4
    ensures !GetBit(MatrixIntended(input, joyp), k) <==>
      (!GetBit(joyp, SelectDPad) && !GetBit(input, k + 4)) ||
      (!GetBit(joyp, SelectButton) && !GetBit(input, k))
  {
  }

  /** Recomputing the intended matrix with unchanged inputs changes nothing. */
  lemma MatrixIntendedStable(input: Byte, joyp: Byte)
    ensures MatrixIntended(input, MatrixIntended(input, joyp)) == MatrixIntended(input, joyp)
  {
  }

  /**
   * In the intended matrix, pressing a button of a selected group whose
   * line reads high requests the joypad interrupt.
   */
  lemma IntendedPressRequestsInterrupt(input: Byte, joyp: Byte, b: nat)
    requires b < 8 && GetBit(joyp, b % 4)
    requires if b < 4 then !GetBit(joyp, SelectButton) else !GetBit(joyp, SelectDPad)
    ensures FallingEdge(joyp, MatrixIntended(SetBit(input, b, false), joyp))
  {
    var after := MatrixIntended(SetBit(input, b, false), joyp);
    MatrixIntendedLines(SetBit(input, b, false), joyp, b % 4);
    if b < 4 {
      assert !GetBit(SetBit(input, b, false), b % 4);
    } else {
      assert !GetBit(SetBit(input, b, false), b % 4 + 4);
    }
    FallingEdgeIsLineDrop(joyp, after);
  }

  /** In the intended matrix, releasing a button never requests the interrupt while JOYP is up to date. */
  lemma IntendedReleaseRequestsNothing(input: Byte, joyp: Byte, b: nat)
    requires joyp & 0x0F == MatrixIntended(input, joyp) & 0x0F
    ensures !FallingEdge(joyp, MatrixIntended(SetBit(input, b, true), joyp))
  {
  }

  /** Unless the D-pad is selected, the intended matrix reads the same lines as the code. */
  lemma IntendedAgreesWithoutDPad(input: Byte, joyp: Byte)
    requires GetBit(joyp, SelectDPad)
    ensures MatrixIntended(input, joyp) & 0x0F == Matrix(input, joyp) & 0x0F
  {
  }
}
