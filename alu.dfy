/**
 * The flag byte F and the arithmetic-logic helpers of the LR35902 core.
 * F holds Z (bit 7), N (bit 6), H (bit 5) and C (bit 4); each flag setter
 * of the source changes its own bit only. Every helper is a pure function
 * of its operands and the incoming F, returning the result and the new F.
 */
module Alu {
  import opened Bits

  const Z_MASK: byte := 0x80
  const N_MASK: byte := 0x40
  const H_MASK: byte := 0x20
  const C_MASK: byte := 0x10

  predicate ZeroFlag(f: byte) { f & Z_MASK != 0 }
  predicate SubtractFlag(f: byte) { f & N_MASK != 0 }
  predicate HalfCarryFlag(f: byte) { f & H_MASK != 0 }
  predicate CarryFlag(f: byte) { f & C_MASK != 0 }

  /** One flag setter: `F | mask` when `on`, else `F & ~mask`. */
  function SetFlag(f: byte, mask: byte, on: bool): byte
  {
    if on then f | mask else f & !mask
  }

  /** The four setters in the order the helpers call them: Z, N, H, then C. */
  function SetFlags(f: byte, z: bool, n: bool, h: bool, c: bool): (r: byte)
    ensures ZeroFlag(r) == z && SubtractFlag(r) == n && HalfCarryFlag(r) == h && CarryFlag(r) == c
    ensures r & 0x0F == f & 0x0F
  {
    SetFlag(SetFlag(SetFlag(SetFlag(f, Z_MASK, z), N_MASK, n), H_MASK, h), C_MASK, c)
  }

  /** The carry as the number the carrying helpers add or subtract. */
  function CarryIn(f: byte): (c: byte)
    ensures c <= 1 && (c == 1 <==> CarryFlag(f))
  {
    if CarryFlag(f) then 1 else 0
  }

  /** The four flags an operation produces, before they are packed into F. */
  datatype Flags = Flags(z: bool, n: bool, h: bool, c: bool)

  /** F after the setters of `flags`: bits 7-4 hold Z, N, H, C; bits 3-0 are kept. */
  function Pack(f: byte, flags: Flags): (r: byte)
    ensures ZeroFlag(r) == flags.z && SubtractFlag(r) == flags.n
    ensures HalfCarryFlag(r) == flags.h && CarryFlag(r) == flags.c
    ensures r & 0x0F == f & 0x0F
  {
    SetFlags(f, flags.z, flags.n, flags.h, flags.c)
  }

  /** The flags of F. */
  function Unpack(f: byte): Flags
  {
    Flags(ZeroFlag(f), SubtractFlag(f), HalfCarryFlag(f), CarryFlag(f))
  }

  /** A result byte and the flags the operation sets. */
  datatype AluOut = AluOut(value: byte, flags: Flags)

  /**
   * The operands widened to 16 bits, where the sums and differences of the
   * source (plain numbers of at most 9 bits) are exact.
   */
  function Wide(x: byte): word { x as word }

  /** A carry flag as the number 0 or 1. */
  function CarryBit(carry: bool): byte
  {
    if carry then 1 else 0
  }

  /**
   * `add(a, b)`: the 8-bit sum; the carry tests are the source's tests on
   * the unmasked sum, which are exactly the wrap-arounds of the 8-bit and
   * the 4-bit sums.
   */
  function Add(x: byte, y: byte): (r: AluOut)
    ensures r.flags.z == (r.value == 0) && !r.flags.n
    ensures r.flags.c == (r.value < x)
    ensures r.flags.h == (r.value & 0x0F < x & 0x0F)
  {
    var v := x + y;
    AluOut(v, Flags(v == 0, false, (x & 0x0F) + (y & 0x0F) > 0x0F, (x as bv9) + (y as bv9) > 0xFF))
  }

  /** `adc(a, b)`: the incoming carry enters the sum and both carry tests. */
  function Adc(x: byte, y: byte, carry: bool): (r: AluOut)
    ensures r.flags.z == (r.value == 0) && !r.flags.n
    ensures r.flags.c == (r.value < x || (carry && r.value == x))
  {
    var c := CarryBit(carry);
    var v := x + y + c;
    AluOut(v, Flags(v == 0, false, (x & 0x0F) + (y & 0x0F) + c > 0x0F, (x as bv9) + (y as bv9) + (c as bv9) > 0xFF))
  }

  /**
   * `sub(a, b)`: the 8-bit difference; N is set and the borrow tests are
   * exactly the wrap-arounds of the 8-bit and the 4-bit differences.
   */
  function Sub(x: byte, y: byte): (r: AluOut)
    ensures r.flags.z == (r.value == 0) && r.flags.n
    ensures r.flags.c == (r.value > x)
    ensures r.flags.h == (r.value & 0x0F > x & 0x0F)
  {
    var v := x - y;
    AluOut(v, Flags(v == 0, true, x & 0x0F < y & 0x0F, x < y))
  }

  /** `sbc(a, b)`: the incoming carry is subtracted too and enters both borrow tests. */
  function Sbc(x: byte, y: byte, carry: bool): (r: AluOut)
    ensures r.flags.z == (r.value == 0) && r.flags.n
    ensures r.flags.c == (r.value > x || (carry && r.value == x))
  {
    var c := CarryBit(carry);
    var v := x - y - c;
    AluOut(v, Flags(v == 0, true, x & 0x0F < (y & 0x0F) + c, (x as bv9) < (y as bv9) + (c as bv9)))
  }

  /** `and(a, b)`: each bit set where both operands have it; H set, N and C clear. */
  function And(x: byte, y: byte): (r: AluOut)
    ensures forall i: BitIndex :: TestBit(r.value, i) == (TestBit(x, i) && TestBit(y, i))
    ensures r.flags == Flags(r.value == 0, false, true, false)
  {
    var v := x & y;
    AluOut(v, Flags(v == 0, false, true, false))
  }

  /** `or(a, b)`: each bit set where either operand has it; N, H and C clear. */
  function Or(x: byte, y: byte): (r: AluOut)
    ensures forall i: BitIndex :: TestBit(r.value, i) == (TestBit(x, i) || TestBit(y, i))
    ensures r.flags == Flags(x == 0 && y == 0, false, false, false)
  {
    var v := x | y;
    AluOut(v, Flags(v == 0, false, false, false))
  }

  /** `xor(a, b)`: N, H and C clear. */
  function Xor(x: byte, y: byte): (r: AluOut)
    ensures r.value ^ y == x
    ensures r.flags == Flags(x == y, false, false, false)
  {
    var v := x ^ y;
    AluOut(v, Flags(v == 0, false, false, false))
  }

  /** `cp(a, b)`: the flags of `sub(a, b)`; the accumulator is not written. */
  function Cp(x: byte, y: byte): (flags: Flags)
    ensures flags == Sub(x, y).flags
    ensures flags.z == (x == y)
  {
    Flags(x == y, true, x & 0x0F < y & 0x0F, x < y)
  }

  /** `inc(value)`: wraps modulo 256; C is not touched. */
  function Inc(x: byte, carry: bool): (r: AluOut)
    ensures Wide(r.value) == (Wide(x) + 1) & 0xFF
    ensures r.flags == Flags(x == 0xFF, false, x & 0x0F == 0x0F, carry)
  {
    var v := x + 1;
    AluOut(v, Flags(v == 0, false, (x & 0x0F) + 1 > 0x0F, carry))
  }

  /** `dec(value)`: wraps modulo 256; C is not touched. */
  function Dec(x: byte, carry: bool): (r: AluOut)
    ensures Wide(r.value) == (Wide(x) - 1) & 0xFF
    ensures r.flags == Flags(x == 1, true, x & 0x0F == 0, carry)
  {
    var v := x - 1;
    AluOut(v, Flags(v == 0, true, x & 0x0F == 0, carry))
  }

  /** A 16-bit result and the flags the operation sets. */
  datatype Alu16Out = Alu16Out(value: word, flags: Flags)

  /** `add16(a, b)`: the 16-bit sum; H and C are the carries out of bits 11 and 15; Z is not touched. */
  function Add16(x: word, y: word, zero: bool): (r: Alu16Out)
    ensures r.value == x + y
    ensures r.flags.z == zero && !r.flags.n
    ensures r.flags.h == (r.value & 0x0FFF < x & 0x0FFF)
    ensures r.flags.c == (r.value < x)
  {
    Alu16Out(x + y, Flags(zero, false, (x & 0x0FFF) + (y & 0x0FFF) > 0x0FFF, (x as bv17) + (y as bv17) > 0xFFFF))
  }

  /**
   * `SP + r8` of ADD SP,r8 and LD HL,SP+r8: the signed offset is added
   * modulo 2^16, Z and N are cleared and H and C are the carries of the
   * unsigned low nibble and low byte additions.
   */
  function AddSigned(sp: word, n: byte): (r: Alu16Out)
    ensures r.value == sp + SignExtend(n)
    ensures !r.flags.z && !r.flags.n
    ensures r.flags.h == ((sp & 0x0F) + (Wide(n) & 0x0F) > 0x0F)
    ensures r.flags.c == ((sp & 0xFF) + Wide(n) > 0xFF)
  {
    var low := LowByte(sp);
    Alu16Out(sp + SignExtend(n), Flags(false, false, (low & 0x0F) + (n & 0x0F) > 0x0F, low + n < low))
  }

  /** The eight CB-prefix rotates and shifts, in the order of their opcode rows 0x00-0x3F. */
  datatype ShiftKind = Rlc | Rrc | Rl | Rr | Sla | Sra | Swap | Srl

  /** The bit a rotate or shift moves out of the byte (SWAP moves none). */
  function ShiftedOut(kind: ShiftKind, x: byte): bool
  {
    match kind
    case Rlc | Rl | Sla => x & 0x80 != 0
    case Rrc | Rr | Sra | Srl => x & 0x01 != 0
    case Swap => false
  }

  /**
   * The CB-prefix rotates and shifts: the new byte, Z from it, N and H
   * clear and C the bit moved out; RL and RR rotate through the incoming
   * carry, SRA keeps bit 7 and SWAP exchanges the nibbles. The values are
   * stated as 8-bit products and quotients, so `x * 2` drops the bit
   * shifted out.
   */
  function Shift(kind: ShiftKind, x: byte, carry: bool): (r: AluOut)
    ensures r.flags == Flags(r.value == 0, false, false, ShiftedOut(kind, x))
    ensures kind == Rlc ==> r.value == x * 2 + x / 0x80
    ensures kind == Rrc ==> r.value == x / 2 + x % 2 * 0x80
    ensures kind == Rl ==> r.value == x * 2 + CarryBit(carry)
    ensures kind == Rr ==> r.value == x / 2 + CarryBit(carry) * 0x80
    ensures kind == Sla ==> r.value == x * 2
    ensures kind == Sra ==> r.value == x / 2 + x / 0x80 * 0x80
    ensures kind == Swap ==> r.value == x * 16 + x / 16
    ensures kind == Srl ==> r.value == x / 2
  {
    var v := match kind
      case Rlc => (x << 1) | (x >> 7)
      case Rrc => (x >> 1) | (x << 7)
      case Rl => (x << 1) | CarryBit(carry)
      case Rr => (x >> 1) | (if carry then 0x80 else 0)
      case Sla => x << 1
      case Sra => (x >> 1) | (x & 0x80)
      case Swap => ((x & 0x0F) << 4) | ((x & 0xF0) >> 4)
      case Srl => x >> 1;
    AluOut(v, Flags(v == 0, false, false, ShiftedOut(kind, x)))
  }

  /** RLCA, RLA, RRCA and RRA: the rotate of A with Z forced clear. */
  function RotateA(kind: ShiftKind, x: byte, carry: bool): (r: AluOut)
    requires kind in {Rlc, Rl, Rrc, Rr}
    ensures r.value == Shift(kind, x, carry).value
    ensures r.flags == Flags(false, false, false, ShiftedOut(kind, x))
  {
    var v := Shift(kind, x, carry).value;
    AluOut(v, Flags(false, false, false, ShiftedOut(kind, x)))
  }

  /**
   * DAA: after an addition (N clear) add 6 when H is set or the low
   * nibble exceeds 9, then 0x60 when C is set or the sum exceeds 0x9F,
   * setting C when the total exceeds 0xFF; after a subtraction subtract 6
   * when H is set and 0x60 when C is set, keeping C. H is cleared.
   */
  function Daa(a: byte, flags: Flags): (r: AluOut)
    ensures !r.flags.h && r.flags.n == flags.n && r.flags.z == (r.value == 0)
    ensures flags.c ==> r.flags.c
    ensures flags.n ==> r.flags.c == flags.c
  {
    if flags.n then
      var v := a - (if flags.h then 6 else 0) - (if flags.c then 0x60 else 0);
      AluOut(v, Flags(v == 0, true, false, flags.c))
    else
      var low := Wide(a) + (if flags.h || a & 0x0F > 9 then 6 else 0);
      var total := low + (if flags.c || low > 0x9F then 0x60 else 0);
      var v := LowByte(total);
      AluOut(v, Flags(v == 0, false, false, flags.c || total > 0xFF))
  }

  /** `bit(op)`: Z is set iff the selected bit is clear, N is cleared, H is set and C is kept. */
  function BitFlags(x: byte, i: BitIndex, carry: bool): (flags: Flags)
    ensures flags.z == !TestBit(x, i) && !flags.n && flags.h && flags.c == carry
  {
    Flags(x & Mask(i) == 0, false, true, carry)
  }
}
