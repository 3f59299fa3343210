/**
 * The joypad package of the split emulator (gb/joypad/joypad.go,
 * gb/joypad/input.go, gb/joypad/memory.go). The Joypad struct as written
 * declares no input field although Handle and updateJOYP use one; the model
 * gives it one, starting at Go's zero value. The interrupt goes to the MMU
 * only when one is attached; the package has no way to attach one (NewJoypad
 * leaves the field nil and nothing assigns it), so mmuAttached stays false
 * and no interrupt is ever delivered.
 */
module Joypad {
  import opened Bits
  import opened JoypadMatrix

  class Joypad {
    /** Input lines: bits 0..3 the buttons, bits 4..7 the D-pad; 0 means pressed. */
    var input: Byte
    /** The JOYP register. */
    var joyp: Byte
    /** Whether an MMU is attached to receive the interrupt request. */
    var mmuAttached: bool

    /** NewJoypad: every field at its zero value, no MMU attached. */
    constructor ()
      ensures input == 0 && joyp == 0 && !mmuAttached
    {
      input := 0;
      joyp := 0;
      mmuAttached := false;
    }

    /** JOYP reads the register. */
    function JOYP(): Byte
      reads this
    {
      joyp
    }

    /**
     * Handle: input bit Button() becomes !State(), then JOYP is recomputed.
     * irq reports whether RequestInterrupt(4) reached an MMU.
     */
    method Handle(button: nat, state: bool) returns (irq: bool)
      modifies this`input, this`joyp
      ensures input == SetBit(old(input), button, !state)
      ensures joyp == Matrix(input, old(joyp))
      ensures irq <==> mmuAttached && FallingEdge(old(joyp), joyp)
    {
      input := SetBit(input, button, !state);
      irq := UpdateJOYP();
    }

    /** SetJOYP keeps only the two select bits of the written value, then recomputes. */
    method SetJOYP(v: Byte) returns (irq: bool)
      modifies this`joyp
      ensures joyp == Matrix(input, Select(v, old(joyp)))
      ensures irq <==> mmuAttached && FallingEdge(Select(v, old(joyp)), joyp)
    {
      joyp := CopyBit(v, joyp, SelectButton);
      joyp := CopyBit(v, joyp, SelectDPad);
      irq := UpdateJOYP();
    }

    /**
     * updateJOYP: pull the low nibble high, AND in the D-pad lines if bit 4
     * is low, then the button lines if bit 5 is low, and look for a falling
     * line. Bit 5 is tested after the D-pad step, as written.
     */
    method UpdateJOYP() returns (irq: bool)
      modifies this`joyp
      ensures joyp == Matrix(input, old(joyp))
      ensures irq <==> mmuAttached && FallingEdge(old(joyp), joyp)
    {
      // The register is worked on in a local and stored once.
      var before := joyp;
      var j := before | 0x0F;
      if !GetBit(j, SelectDPad) {
        j := j & (input >> 4);
      }
      assert j == DPadStep(input, Released(before));
      if !GetBit(j, SelectButton) {
        j := j & (input & 0x0F);
      }
      assert j == Matrix(input, before);
      joyp := j;
      irq := false;
      if FallingEdge(before, j) {
        irq := InterruptJOYP();
      }
    }

    /** interruptJOYP: the request is delivered only to an attached MMU. */
    method InterruptJOYP() returns (delivered: bool)
      ensures delivered == mmuAttached
    {
      delivered := mmuAttached;
    }
  }
}
