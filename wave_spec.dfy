/**
 * The wave channel of `WaveChannel.js` as functions on a value: the DAC
 * switch, the length counter, the timer that walks the 32 nibbles of the
 * wave table, the sample and its volume shift, and the NR30-NR34
 * registers.
 */
module WaveSpec {
  import opened Bits
  import opened Sound

  datatype Wave = Wave(
    enabled: bool, dacEnabled: bool, lengthLoad: int, lengthCounter: int, volumeCode: int,
    frequency: int, timer: int, lengthEnabled: bool, position: int, table: seq<byte>)
  {
    /** The ranges every operation keeps. */
    predicate Valid()
    {
      && 0 <= lengthLoad <= 255 && 0 <= lengthCounter <= 256 && 0 <= volumeCode <= 3
      && 0 <= frequency <= 2047 && 0 <= position < 32 && |table| == 16
    }
  }

  /** `new WaveChannel()`: everything zero or false, a table of sixteen zero bytes. */
  function Fresh(): (w: Wave)
    ensures w.Valid() && !w.enabled && !w.dacEnabled && forall i :: 0 <= i < 16 ==> w.table[i] == 0
  {
    Wave(false, false, 0, 0, 0, 0, 0, false, 0, seq(16, _ => 0))
  }

  /** The timer period of a frequency: `(2048 - frequency) * 2` cycles per nibble. */
  function Period(frequency: int): (n: int)
    requires 0 <= frequency <= 2047
    ensures 2 <= n <= 4096
  {
    (2048 - frequency) * 2
  }

  /** `trigger`: nothing with the DAC off; otherwise enabled, length 256 when it ran out, timer reloaded, back to the first nibble. */
  function Trigger(w: Wave): (t: Wave)
    requires w.Valid()
    ensures t.Valid()
  {
    if !w.dacEnabled then w
    else w.(enabled := true, lengthCounter := if w.lengthCounter == 0 then 256 else w.lengthCounter,
            timer := Period(w.frequency), position := 0)
  }

  /** `clockLength`: with length enabled a non-zero counter counts down, and the channel stops when it reaches 0. */
  function ClockLength(w: Wave): (t: Wave)
    requires w.Valid()
    ensures t.Valid()
  {
    if w.lengthEnabled && w.lengthCounter > 0 then
      w.(lengthCounter := w.lengthCounter - 1, enabled := w.enabled && w.lengthCounter != 1)
    else w
  }

  /** `clockTimer(cycles)`: a running timer counts down; on expiry the position moves to the next of 32 nibbles and a period is added. */
  function ClockTimer(w: Wave, cycles: nat): (t: Wave)
    requires w.Valid()
    ensures t.Valid()
  {
    if w.timer > 0 then
      var remaining := w.timer - cycles;
      if remaining <= 0 then w.(position := (w.position + 1) % 32, timer := remaining + Period(w.frequency))
      else w.(timer := remaining)
    else w
  }

  /** The nibble at the current position: the high half of byte `position / 2` on even positions, the low half on odd ones. */
  function Nibble(w: Wave): (b: byte)
    requires w.Valid()
    ensures b <= 15
  {
    var packed := w.table[w.position / 2];
    if w.position % 2 == 0 then packed >> 4 else packed & 0x0F
  }

  /** `getSample`: 0 when disabled, with the DAC off or with volume code 0; otherwise the nibble shifted right by the code minus one. */
  function Sample(w: Wave): (s: int)
    requires w.Valid()
    ensures 0 <= s <= 15
    ensures s <= Nibble(w) as int
    ensures !w.enabled || !w.dacEnabled || w.volumeCode == 0 ==> s == 0
  {
    if !w.enabled || !w.dacEnabled then 0
    else if w.volumeCode > 0 then (Nibble(w) >> (w.volumeCode - 1)) as int
    else 0
  }

  /** NR30: bit 7 switches the DAC, and switching it off stops the channel. */
  function WriteDac(w: Wave, value: byte): (t: Wave)
    requires w.Valid()
    ensures t.Valid()
  {
    w.(dacEnabled := value & 0x80 != 0, enabled := w.enabled && value & 0x80 != 0)
  }

  /** NR34: frequency bits 8-10 and length enable, then a trigger when bit 7 is set. */
  function WriteControl(w: Wave, value: byte): (t: Wave)
    requires w.Valid()
    ensures t.Valid()
  {
    var updated := w.(frequency := FrequencyHigh(w.frequency, value), lengthEnabled := value & 0x40 != 0);
    if value & 0x80 != 0 then Trigger(updated) else updated
  }

  /** `writeRegister(address, value)` for NR30-NR34; other addresses change nothing. */
  function WriteRegister(w: Wave, address: int, value: byte): (t: Wave)
    requires w.Valid()
    ensures t.Valid() && t.table == w.table
  {
    if address == 0xFF1A then WriteDac(w, value)
    else if address == 0xFF1B then w.(lengthLoad := value as int, lengthCounter := 256 - value as int)
    else if address == 0xFF1C then w.(volumeCode := ((value >> 5) & 0x03) as int)
    else if address == 0xFF1D then w.(frequency := FrequencyLow(w.frequency, value))
    else if address == 0xFF1E then WriteControl(w, value)
    else w
  }

  /** `writeWaveTable(offset, value)`: byte `offset` of the table replaced. */
  function WriteWaveTable(w: Wave, offset: int, value: byte): (t: Wave)
    requires w.Valid() && 0 <= offset < 16
    ensures t.Valid()
  {
    w.(table := w.table[offset := value])
  }
}
