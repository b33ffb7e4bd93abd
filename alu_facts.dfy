/**
 * Properties relating the arithmetic-logic helpers to each other and to
 * decimal arithmetic: inverses, the carry-free cases of the carrying
 * helpers, rotate round trips and the decimal adjust.
 */
module AluFacts {
  import opened Bits
  import opened Alu

  /** Subtracting what was added gives the operand back. */
  lemma SubUndoesAdd(x: byte, y: byte)
    ensures Sub(Add(x, y).value, y).value == x
  {
  }

  /** ADC's H flag is the wrap-around of the low nibble, counting the incoming carry. */
  lemma AdcHalfCarry(x: byte, y: byte, carry: bool)
    ensures var r := Adc(x, y, carry);
            r.flags.h == (r.value & 0x0F < x & 0x0F || (carry && r.value & 0x0F == x & 0x0F))
  {
  }

  /** SBC's H flag is the wrap-around of the low nibble, counting the incoming carry. */
  lemma SbcHalfCarry(x: byte, y: byte, carry: bool)
    ensures var r := Sbc(x, y, carry);
            r.flags.h == (r.value & 0x0F > x & 0x0F || (carry && r.value & 0x0F == x & 0x0F))
  {
  }

  /** INC is ADD of 1 except that C is kept. */
  lemma IncIsAddOne(x: byte, carry: bool)
    ensures Inc(x, carry).value == Add(x, 1).value
    ensures Inc(x, carry).flags == Add(x, 1).flags.(c := carry)
  {
  }

  /** DEC is SUB of 1 except that C is kept. */
  lemma DecIsSubOne(x: byte, carry: bool)
    ensures Dec(x, carry).value == Sub(x, 1).value
    ensures Dec(x, carry).flags == Sub(x, 1).flags.(c := carry)
  {
  }

  /** RRC undoes RLC and RLC undoes RRC. */
  lemma RotateRoundTrip(x: byte, c: bool, d: bool)
    ensures Shift(Rrc, Shift(Rlc, x, c).value, d).value == x
    ensures Shift(Rlc, Shift(Rrc, x, c).value, d).value == x
  {
  }

  /** RR with the carry RL produced restores both the byte and the carry, and vice versa. */
  lemma RotateThroughCarryRoundTrip(x: byte, c: bool)
    ensures var r := Shift(Rl, x, c); var t := Shift(Rr, r.value, r.flags.c); t.value == x && t.flags.c == c
    ensures var r := Shift(Rr, x, c); var t := Shift(Rl, r.value, r.flags.c); t.value == x && t.flags.c == c
  {
  }

  /** SWAP is an involution. */
  lemma SwapInvolution(x: byte, c: bool, d: bool)
    ensures Shift(Swap, Shift(Swap, x, c).value, d).value == x
  {
  }

  /** A byte whose two nibbles are decimal digits. */
  predicate IsBcd(x: byte)
  {
    x & 0x0F <= 9 && x >> 4 <= 9
  }

  /** The BCD byte with tens digit `t` and units digit `u`. */
  function Digits(t: byte, u: byte): byte
  {
    (t << 4) | u
  }

  /** A digit sum of at most 19 reduced to its units digit. */
  function DecimalDigit(n: byte): byte
  {
    if n > 9 then n - 10 else n
  }

  lemma DaaNoCarries(x: byte, y: byte)
    requires IsBcd(x) && IsBcd(y) && (x & 0x0F) + (y & 0x0F) <= 9 && (x >> 4) + (y >> 4) <= 9
    ensures var d := Daa(Add(x, y).value, Add(x, y).flags);
            d.value == Digits((x >> 4) + (y >> 4), (x & 0x0F) + (y & 0x0F)) && !d.flags.c
  {
  }

  lemma DaaTensCarry(x: byte, y: byte)
    requires IsBcd(x) && IsBcd(y) && (x & 0x0F) + (y & 0x0F) <= 9 && (x >> 4) + (y >> 4) > 9
    ensures var d := Daa(Add(x, y).value, Add(x, y).flags);
            d.value == Digits((x >> 4) + (y >> 4) - 10, (x & 0x0F) + (y & 0x0F)) && d.flags.c
  {
  }

  lemma DaaUnitsCarry(x: byte, y: byte)
    requires IsBcd(x) && IsBcd(y) && (x & 0x0F) + (y & 0x0F) > 9 && (x >> 4) + (y >> 4) + 1 <= 9
    ensures var d := Daa(Add(x, y).value, Add(x, y).flags);
            d.value == Digits((x >> 4) + (y >> 4) + 1, (x & 0x0F) + (y & 0x0F) - 10) && !d.flags.c
  {
  }

  lemma DaaBothCarries(x: byte, y: byte)
    requires IsBcd(x) && IsBcd(y) && (x & 0x0F) + (y & 0x0F) > 9 && (x >> 4) + (y >> 4) + 1 > 9
    ensures var d := Daa(Add(x, y).value, Add(x, y).flags);
            d.value == Digits((x >> 4) + (y >> 4) + 1 - 10, (x & 0x0F) + (y & 0x0F) - 10) && d.flags.c
  {
  }

  /**
   * DAA after ADD of two BCD bytes leaves the decimal sum: the units
   * digit is the units sum mod 10, the tens digit the tens sum plus the
   * decimal carry, mod 10, and C is the carry out of the tens.
   */
  lemma DaaAfterAdd(x: byte, y: byte)
    requires IsBcd(x) && IsBcd(y)
    ensures var units := (x & 0x0F) + (y & 0x0F);
            var tens := (x >> 4) + (y >> 4) + (if units > 9 then 1 else 0);
            var d := Daa(Add(x, y).value, Add(x, y).flags);
            d.value == Digits(DecimalDigit(tens), DecimalDigit(units)) && d.flags.c == (tens > 9)
  {
    var units := (x & 0x0F) + (y & 0x0F);
    var tens := (x >> 4) + (y >> 4);
    if units <= 9 {
      if tens <= 9 { DaaNoCarries(x, y); } else { DaaTensCarry(x, y); }
    } else {
      if tens + 1 <= 9 { DaaUnitsCarry(x, y); } else { DaaBothCarries(x, y); }
    }
  }
}
