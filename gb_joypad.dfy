/**
 * The joypad of the monolithic emulator (gb/joypad.go): eight input lines,
 * the JOYP register, and the joypad interrupt on a falling line. The
 * interrupt request (gb.cpu.RequestInterrupt) is returned to the caller as a
 * flag instead of being written into IF.
 */
module GbJoypad {
  import opened Bits
  import opened JoypadMatrix

  class Joypad {
    /** Input lines: bits 0..3 the buttons, bits 4..7 the D-pad; 0 means pressed. */
    var input: Byte
    /** The JOYP register. */
    var joyp: Byte

    /** NewJoypad: every input line is pulled high and JOYP starts at 0. */
    constructor ()
      ensures input == 0xFF && joyp == 0
    {
      input := 0xFF;
      joyp := 0;
    }

    /** JOYP reads the register as update left it. */
    function JOYP(): Byte
      reads this
    {
      joyp
    }

    /**
     * Handle an input event: a press (state true) drives the button's line to
     * 0, a release to 1; then JOYP is recomputed. irq reports whether the
     * joypad interrupt was requested.
     */
    method Handle(button: nat, state: bool) returns (irq: bool)
      modifies this
      ensures input == SetBit(old(input), button, !state)
      ensures joyp == Matrix(input, old(joyp))
      ensures irq <==> FallingEdge(old(joyp), joyp)
    {
      input := SetBit(input, button, !state);
      irq := Update();
    }

    /** SetJOYP keeps only the two select bits of the written value, then recomputes. */
    method SetJOYP(v: Byte) returns (irq: bool)
      modifies this
      ensures input == old(input)
      ensures joyp == Matrix(input, Select(v, old(joyp)))
      ensures irq <==> FallingEdge(Select(v, old(joyp)), joyp)
    {
      joyp := CopyBit(v, joyp, SelectButton);
      joyp := CopyBit(v, joyp, SelectDPad);
      irq := Update();
    }

    /**
     * update: pull the low nibble high, AND in the D-pad lines if bit 4 is
     * low, then the button lines if bit 5 is low, and report a falling edge
     * among lines 0..3. Bit 5 is tested after the D-pad step, as written.
     */
    method Update() returns (irq: bool)
      modifies this`joyp
      ensures joyp == Matrix(input, old(joyp))
      ensures irq <==> FallingEdge(old(joyp), joyp)
    {
      // The register is worked on in a local and stored once.
      var before := joyp;
      var j := before | 0x0F;
      if !GetBit(j, SelectDPad) {
        j := j & (input >> 4);
      }
      assert j == DPadStep(input, Released(before));
      if !GetBit(j, SelectButton) {
        j := j & (input & 0x0F);
      }
      assert j == Matrix(input, before);
      joyp := j;
      irq := FallingEdge(before, j);
    }
  }
}
