/**
 * Arithmetic the sound channels share: powers of two for the right
 * shifts and left shifts the source applies to non-negative numbers, one
 * step of a volume envelope, and the two register halves of an eleven-bit
 * frequency.
 */
module Sound {
  import opened Bits

  /** `1 << n`. */
  function Pow2(n: nat): (r: nat)
    ensures r >= 1
  {
    if n == 0 then 1 else 2 * Pow2(n - 1)
  }

  /**
   * One envelope step: direction 1 raises the volume below 15 by one,
   * direction 0 lowers a volume above 0 by one, anything else keeps it.
   */
  function EnvelopeStep(volume: int, direction: int): (v: int)
    requires 0 <= volume <= 15
    ensures 0 <= v <= 15
    ensures direction == 1 ==> volume <= v <= volume + 1
    ensures direction == 0 ==> volume - 1 <= v <= volume
    ensures v != volume <==> (direction == 1 && volume < 15) || (direction == 0 && volume > 0)
  {
    if direction == 1 && volume < 15 then volume + 1
    else if direction == 0 && volume > 0 then volume - 1
    else volume
  }

  /** `(frequency & 0xFF00) | value`: the low eight bits of the frequency replaced. */
  function FrequencyLow(frequency: int, value: byte): (f: int)
    requires 0 <= frequency <= 2047
    ensures 0 <= f <= 2047 && f % 256 == value as int && f / 256 == frequency / 256
  {
    frequency / 256 * 256 + value as int
  }

  /** `(frequency & 0x00FF) | ((value & 0x07) << 8)`: bits 8-10 of the frequency replaced. */
  function FrequencyHigh(frequency: int, value: byte): (f: int)
    requires 0 <= frequency <= 2047
    ensures 0 <= f <= 2047 && f % 256 == frequency % 256 && f / 256 == (value & 0x07) as int
  {
    frequency % 256 + 256 * (value & 0x07) as int
  }
}
