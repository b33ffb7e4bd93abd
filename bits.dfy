/**
 * Bytes, words and single-bit operations shared by every unit of the
 * emulator. Registers and memory cells are 8-bit vectors and addresses,
 * register pairs, SP and PC are 16-bit vectors, so wrap-around modulo
 * 2^8 and 2^16 (the `& 0xFF` and `& 0xFFFF` masks of the source) is the
 * arithmetic of the types themselves.
 */
module Bits {

  type byte = bv8
  type word = bv16

  /** Index of a bit inside a byte. */
  type BitIndex = i: int | 0 <= i < 8

  datatype Option<T> = None | Some(value: T)

  /** A register pair: `hi` is the upper byte, `lo` the lower one. */
  function Word(hi: byte, lo: byte): (w: word)
    ensures HighByte(w) == hi && LowByte(w) == lo
  {
    ((hi as word) << 8) | (lo as word)
  }

  function HighByte(w: word): byte
  {
    (w >> 8) as byte
  }

  function LowByte(w: word): byte
  {
    (w & 0xFF) as byte
  }

  /** Splitting a word into its two bytes and joining them gives it back. */
  lemma WordOfBytes(w: word)
    ensures Word(HighByte(w), LowByte(w)) == w
  {
  }

  /** The byte with only bit `i` set, `1 << i`. */
  function Mask(i: BitIndex): byte
  {
    match i
    case 0 => 0x01
    case 1 => 0x02
    case 2 => 0x04
    case 3 => 0x08
    case 4 => 0x10
    case 5 => 0x20
    case 6 => 0x40
    case 7 => 0x80
  }

  /** Bit `i` of `x` is set. */
  predicate TestBit(x: byte, i: BitIndex)
  {
    x & Mask(i) != 0
  }

  /** `x | (1 << i)`: sets bit `i` and no other. */
  function SetBit(x: byte, i: BitIndex): (r: byte)
    ensures TestBit(r, i)
    ensures forall j: BitIndex :: j != i ==> (TestBit(r, j) <==> TestBit(x, j))
  {
    x | Mask(i)
  }

  /** `x & ~(1 << i)`: clears bit `i` and no other. */
  function ClearBit(x: byte, i: BitIndex): (r: byte)
    ensures !TestBit(r, i)
    ensures forall j: BitIndex :: j != i ==> (TestBit(r, j) <==> TestBit(x, j))
  {
    x & !Mask(i)
  }

  /** Two bytes with the same eight bits are equal. */
  lemma BitsDetermineByte(x: byte, y: byte)
    requires forall j: BitIndex :: TestBit(x, j) <==> TestBit(y, j)
    ensures x == y
  {
    assert TestBit(x, 0) == TestBit(y, 0) && TestBit(x, 1) == TestBit(y, 1);
    assert TestBit(x, 2) == TestBit(y, 2) && TestBit(x, 3) == TestBit(y, 3);
    assert TestBit(x, 4) == TestBit(y, 4) && TestBit(x, 5) == TestBit(y, 5);
    assert TestBit(x, 6) == TestBit(y, 6) && TestBit(x, 7) == TestBit(y, 7);
  }

  /**
   * Two's-complement sign extension of a byte to a word: the source's
   * `(n << 24) >> 24`, added to an address and masked with 0xFFFF.
   */
  function SignExtend(b: byte): (w: word)
    ensures LowByte(w) == b
    ensures HighByte(w) == if b < 0x80 then 0x00 else 0xFF
  {
    if b < 0x80 then b as word else (b as word) | 0xFF00
  }

  /** A word read as an index and back is the same word. */
  lemma WordIndexRoundTrip(w: word)
    ensures (w as int) as word == w
  {
  }

  /** A byte read as an index and back is the same byte. */
  lemma ByteIndexRoundTrip(b: byte)
    ensures (b as int) as byte == b
  {
  }

  /** Distinct words are distinct indices. */
  lemma WordIndexInjective(a: word, b: word)
    requires a != b
    ensures a as int != b as int
  {
    WordIndexRoundTrip(a);
    WordIndexRoundTrip(b);
  }

  /** The index of byte `b` of page 0xFE (object attribute memory). */
  lemma PageIndex(b: byte)
    ensures Word(0xFE, b) as int == 0xFE00 + b as int
  {
  }

  /** Incrementing a byte adds one to its value, except from 0xFF, which wraps to 0. */
  lemma ByteSuccessor(b: byte)
    ensures (b + 1) as int == if b == 0xFF then 0 else b as int + 1
  {
    if b != 0xFF {
      assert b < 0xFF;
    }
  }
}
