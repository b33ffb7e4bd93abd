/**
 * What the wave channel promises: the trigger that depends on the DAC,
 * the length counter that silences the channel after exactly its count
 * of clocks, the nibble walk, the volume shift, and the wave table
 * writes that touch one byte.
 */
module WaveFacts {
  import opened Bits
  import opened Sound
  import opened WaveSpec

  /** With the DAC off a trigger does nothing; with it on the channel starts from the first nibble. */
  lemma TriggerNeedsDac(w: Wave)
    requires w.Valid()
    ensures !w.dacEnabled ==> Trigger(w) == w
    ensures w.dacEnabled ==> var t := Trigger(w);
              && t.enabled && t.position == 0 && t.timer == Period(w.frequency)
              && t.lengthCounter == (if w.lengthCounter == 0 then 256 else w.lengthCounter)
              && t.table == w.table
  {
  }

  /** Writing NR30 with bit 7 clear turns off the DAC and the channel, and the sample is 0. */
  lemma DacWriteTurnsOff(w: Wave, value: byte)
    requires w.Valid() && value & 0x80 == 0
    ensures var t := WriteRegister(w, 0xFF1A, value);
            !t.dacEnabled && !t.enabled && Sample(t) == 0
  {
  }

  /** Writing `v` to NR31 loads the length counter with 256 - v. */
  lemma LengthWrite(w: Wave, v: byte)
    requires w.Valid()
    ensures WriteRegister(w, 0xFF1B, v).lengthCounter == 256 - v as int
    ensures WriteRegister(w, 0xFF1B, v).lengthCounter > 0
  {
  }

  /** `n` length clocks in a row. */
  function LengthRepeated(w: Wave, n: nat): (t: Wave)
    requires w.Valid()
    ensures t.Valid() && t.lengthEnabled == w.lengthEnabled
  {
    if n == 0 then w else ClockLength(LengthRepeated(w, n - 1))
  }

  /**
   * With length enabled, `n` clocks no more than the counter take it down
   * by `n`, and after at least one clock the channel is still on exactly
   * when it was on and the counter has not reached 0.
   */
  lemma {:induction false} LengthCountsDownBy(w: Wave, n: nat)
    requires w.Valid() && w.lengthEnabled && n <= w.lengthCounter
    ensures var t := LengthRepeated(w, n);
            && t.lengthCounter == w.lengthCounter - n
            && (t.enabled <==> w.enabled && (n == 0 || t.lengthCounter > 0))
  {
    if n > 0 {
      LengthCountsDownBy(w, n - 1);
      var before := LengthRepeated(w, n - 1);
      assert before.lengthEnabled && before.lengthCounter > 0;
      assert LengthRepeated(w, n) == ClockLength(before);
    }
  }

  /** After an NR31 write of `v` with length enabled, the channel is silent after exactly 256 - v length clocks. */
  lemma LengthSilencesAfterCount(w: Wave, v: byte)
    requires w.Valid() && w.lengthEnabled
    ensures var loaded := WriteRegister(w, 0xFF1B, v);
            && !LengthRepeated(loaded, 256 - v as int).enabled
            && (forall n :: 0 <= n < 256 - v as int ==> LengthRepeated(loaded, n).enabled == loaded.enabled)
  {
    var loaded := WriteRegister(w, 0xFF1B, v);
    LengthCountsDownBy(loaded, 256 - v as int);
    forall n | 0 <= n < 256 - v as int
      ensures LengthRepeated(loaded, n).enabled == loaded.enabled
    {
      LengthCountsDownBy(loaded, n);
    }
  }

  /** `clockTimer` keeps the position in [0, 32) and moves it by at most one nibble. */
  lemma PositionAdvancesAtMostOne(w: Wave, cycles: nat)
    requires w.Valid()
    ensures var t := ClockTimer(w, cycles);
            && 0 <= t.position < 32
            && (t.position == w.position || t.position == (w.position + 1) % 32)
            && t.table == w.table
  {
  }

  /** Even positions play the high nibble of byte `position / 2`, odd positions its low nibble. */
  lemma NibbleOrder(w: Wave, i: int)
    requires w.Valid() && 0 <= i < 16
    ensures Nibble(w.(position := 2 * i)) == w.table[i] >> 4
    ensures Nibble(w.(position := 2 * i + 1)) == w.table[i] & 0x0F
  {
  }

  /** Volume codes 1, 2 and 3 play the nibble at full, half and quarter level, rounded down; code 0 is silent. */
  lemma VolumeShift(w: Wave)
    requires w.Valid() && w.enabled && w.dacEnabled
    ensures w.volumeCode == 0 ==> Sample(w) == 0
    ensures w.volumeCode == 1 ==> Sample(w) == Nibble(w) as int
    ensures w.volumeCode == 2 ==> Sample(w) == Nibble(w) as int / 2
    ensures w.volumeCode == 3 ==> Sample(w) == Nibble(w) as int / 4
  {
  }

  /** Writing NR33 and then NR34 without a trigger sets the frequency to the eleven bits the two bytes give. */
  lemma FrequencyRoundTrip(w: Wave, low: byte, high: byte)
    requires w.Valid() && high & 0x80 == 0
    ensures WriteRegister(WriteRegister(w, 0xFF1D, low), 0xFF1E, high).frequency == 256 * (high & 0x07) as int + low as int
  {
  }

  /** `writeWaveTable` changes the byte at the offset and nothing else. */
  lemma WaveTableWriteIsLocal(w: Wave, offset: int, value: byte)
    requires w.Valid() && 0 <= offset < 16
    ensures var t := WriteWaveTable(w, offset, value);
            && t.table[offset] == value
            && (forall i :: 0 <= i < 16 && i != offset ==> t.table[i] == w.table[i])
            && t == w.(table := t.table)
  {
  }
}
