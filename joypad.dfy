/**
 * The joypad: eight buttons and the P1 register value (0xFF00) that the
 * memory unit returns for reads of that address. The value is computed
 * from the select bits the program last wrote into memory[0xFF00] and is
 * cached until the next update.
 */
module JoypadInput {
  import opened Bits

  datatype Buttons = Buttons(
    a: bool, b: bool, select: bool, start: bool,
    up: bool, down: bool, left: bool, right: bool)

  const Released := Buttons(false, false, false, false, false, false, false, false)

  /** Bit `i` of the low nibble reads 0 exactly when its key is pressed. */
  function KeyBits(k0: bool, k1: bool, k2: bool, k3: bool): byte
  {
    (if k0 then 0 else 1) | (if k1 then 0 else 2) | (if k2 then 0 else 4) | (if k3 then 0 else 8)
  }

  /**
   * The P1 byte for select bits `p1`: bit 5 clear selects the action
   * keys, otherwise bit 4 clear selects the direction keys, otherwise
   * nothing is selected.
   */
  function P1Value(p1: byte, keys: Buttons): (r: byte)
    ensures p1 & 0x20 == 0 ==>
      r & 0xF0 == 0xC0
      && (TestBit(r, 0) <==> !keys.a) && (TestBit(r, 1) <==> !keys.b)
      && (TestBit(r, 2) <==> !keys.select) && (TestBit(r, 3) <==> !keys.start)
    ensures p1 & 0x20 != 0 && p1 & 0x10 == 0 ==>
      r & 0xF0 == 0xC0
      && (TestBit(r, 0) <==> !keys.right) && (TestBit(r, 1) <==> !keys.left)
      && (TestBit(r, 2) <==> !keys.up) && (TestBit(r, 3) <==> !keys.down)
    ensures p1 & 0x30 == 0x30 ==> r == 0xFF
  {
    if p1 & 0x20 == 0 then 0xC0 | KeyBits(keys.a, keys.b, keys.select, keys.start)
    else if p1 & 0x10 == 0 then 0xC0 | KeyBits(keys.right, keys.left, keys.up, keys.down)
    else 0xFF
  }

  /** With both groups selected, the action keys are the ones reported. */
  lemma ActionGroupWins(p1: byte, keys: Buttons)
    requires p1 & 0x30 == 0
    ensures P1Value(p1, keys) == P1Value(0x10, keys)
    ensures keys.a != keys.right ==> P1Value(p1, keys) != P1Value(0x20, keys)
  {
  }

  class Joypad {
    /** The memory array of the memory unit, which holds the select bits at 0xFF00. */
    const memory: array<byte>
    var buttons: Buttons
    var memoryValue: byte

    constructor (memory: array<byte>)
      ensures this.memory == memory
      ensures buttons == Released && memoryValue == 0xFF
    {
      this.memory := memory;
      buttons := Released;
      memoryValue := 0xFF;
    }

    /** Recomputes the P1 value from the select bits and the buttons. */
    method Update()
      requires memory.Length == 0x10000
      modifies this
      ensures buttons == old(buttons)
      ensures memoryValue == P1Value(memory[0xFF00], buttons)
    {
      var value := memory[0xFF00];
      if value & 0x20 == 0 {
        var joypad: byte := 0xCF;
        if buttons.a { joypad := joypad & !0x01; }
        if buttons.b { joypad := joypad & !0x02; }
        if buttons.select { joypad := joypad & !0x04; }
        if buttons.start { joypad := joypad & !0x08; }
        memoryValue := joypad;
      } else if value & 0x10 == 0 {
        var joypad: byte := 0xCF;
        if buttons.right { joypad := joypad & !0x01; }
        if buttons.left { joypad := joypad & !0x02; }
        if buttons.up { joypad := joypad & !0x04; }
        if buttons.down { joypad := joypad & !0x08; }
        memoryValue := joypad;
      } else {
        memoryValue := 0xFF;
      }
    }

    /** The value computed by the last update; nothing is recomputed. */
    function Read(): (v: byte)
      reads this
      ensures v == memoryValue
    {
      memoryValue
    }
  }
}
