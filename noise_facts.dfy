/**
 * What the noise channel promises: the effects of a trigger, the shift
 * register staying within fifteen bits and never emptying while its
 * width is unchanged, the sample, the registers that read back what was
 * written, and the envelope that reloads only at exactly zero.
 */
module NoiseFacts {
  import opened Bits
  import opened Sound
  import opened NoiseSpec

  /** `trigger` enables the channel, reloads a length counter that ran out, refills the register and reloads volume, envelope and timer. */
  lemma TriggerRestarts(n: Noise)
    requires n.Valid()
    ensures var t := Trigger(n);
            && t.enabled && t.lfsr == 0x7FFF
            && t.lengthCounter == (if n.lengthCounter == 0 then 64 - n.lengthLoad else n.lengthCounter)
            && t.lengthCounter > 0
            && t.volume == n.initialVolume && t.envelopeTimer == n.envelopePeriod
            && t.timer == Period(n.dividingRatio, n.shiftClockFrequency)
            && t.lengthEnabled == n.lengthEnabled
  {
  }

  /**
   * `clockLength` counts down only with length enabled and a non-zero
   * counter, and turns the channel off exactly when the counter reaches 0.
   */
  lemma LengthCountsDown(n: Noise)
    requires n.Valid()
    ensures var t := ClockLength(n);
            && t.lengthCounter == (if n.lengthEnabled && n.lengthCounter > 0 then n.lengthCounter - 1 else n.lengthCounter)
            && (t.enabled <==> n.enabled && !(n.lengthEnabled && n.lengthCounter == 1))
            && 0 <= t.lengthCounter
            && t == n.(lengthCounter := t.lengthCounter, enabled := t.enabled)
  {
  }

  /** The channel after `k` length clocks. */
  function LengthRepeated(n: Noise, k: nat): (t: Noise)
    requires n.Valid()
    ensures t.Valid() && t.lengthEnabled == n.lengthEnabled
  {
    if k == 0 then n else ClockLength(LengthRepeated(n, k - 1))
  }

  /**
   * With length enabled, `k` clocks no more than the counter take it down
   * by `k`, and after at least one clock the channel is still on exactly
   * when it was on and the counter has not reached 0; once at 0 the
   * counter stays there.
   */
  lemma {:induction false} LengthCountsDownBy(n: Noise, k: nat)
    requires n.Valid() && n.lengthEnabled && k <= n.lengthCounter
    ensures var t := LengthRepeated(n, k);
            && t.lengthCounter == n.lengthCounter - k
            && (t.enabled <==> n.enabled && (k == 0 || t.lengthCounter > 0))
            && ClockLength(t).lengthCounter == (if t.lengthCounter == 0 then 0 else t.lengthCounter - 1)
  {
    if k > 0 {
      LengthCountsDownBy(n, k - 1);
      var before := LengthRepeated(n, k - 1);
      assert before.lengthEnabled && before.lengthCounter > 0;
      assert LengthRepeated(n, k) == ClockLength(before);
    }
  }

  /** After an NR41 write of `v` with length enabled, the channel is silent after exactly 64 - (v & 0x3F) length clocks. */
  lemma LengthSilencesAfterCount(n: Noise, v: byte)
    requires n.Valid() && n.lengthEnabled
    ensures var loaded := WriteRegister(n, 0xFF20, v);
            && !LengthRepeated(loaded, 64 - (v & 0x3F) as int).enabled
            && (forall k :: 0 <= k < 64 - (v & 0x3F) as int ==> LengthRepeated(loaded, k).enabled == loaded.enabled)
  {
    var loaded := WriteRegister(n, 0xFF20, v);
    LengthCountsDownBy(loaded, 64 - (v & 0x3F) as int);
    forall k | 0 <= k < 64 - (v & 0x3F) as int
      ensures LengthRepeated(loaded, k).enabled == loaded.enabled
    {
      LengthCountsDownBy(loaded, k);
    }
  }

  /** The timer period is the divisor (8, or 16 times a non-zero ratio) doubled once per step of the clock shift. */
  lemma PeriodDoublesPerShift(ratio: int, shift: int)
    requires 0 <= ratio <= 7 && 0 <= shift < 15
    ensures Period(ratio, shift + 1) == 2 * Period(ratio, shift)
    ensures Period(ratio, 0) == (if ratio == 0 then 8 else 16 * ratio)
  {
  }

  /** While disabled the timer and the register stand still. */
  lemma DisabledTimerIdle(n: Noise, cycles: nat)
    requires n.Valid() && !n.enabled
    ensures ClockTimer(n, cycles) == n
  {
  }

  /** An expiring timer shifts the register exactly once and gains one period; otherwise only the timer counts down. */
  lemma TimerShiftsOnExpiry(n: Noise, cycles: nat)
    requires n.Valid() && n.enabled
    ensures var t := ClockTimer(n, cycles);
            && (n.timer - cycles <= 0 ==> t.lfsr == LfsrStep(n.lfsr, n.counterStep == 1)
                                          && t.timer == n.timer - cycles + Period(n.dividingRatio, n.shiftClockFrequency))
            && (n.timer - cycles > 0 ==> t.lfsr == n.lfsr && t.timer == n.timer - cycles)
  {
  }

  /** The feedback bit enters at bit 14; in 15-bit mode bits 0-13 are the old bits 1-14, in 7-bit mode bit 6 is the feedback bit too. */
  lemma LfsrShape(lfsr: bv16, narrow: bool)
    requires lfsr < 0x8000
    ensures var r := LfsrStep(lfsr, narrow);
            && (r >> 14) & 1 == Feedback(lfsr)
            && (!narrow ==> r & 0x3FFF == lfsr >> 1)
            && (narrow ==> (r >> 6) & 1 == Feedback(lfsr) && r & 0x3FBF == (lfsr >> 1) & 0x3FBF)
  {
  }

  /** In 15-bit mode a non-zero register stays non-zero. */
  lemma WideLfsrNeverEmpties(lfsr: bv16)
    requires 0 < lfsr < 0x8000
    ensures LfsrStep(lfsr, false) != 0
  {
  }

  /** In 7-bit mode a register whose low seven bits are not all zero keeps them so. */
  lemma NarrowLfsrNeverEmpties(lfsr: bv16)
    requires lfsr < 0x8000 && lfsr & 0x7F != 0
    ensures LfsrStep(lfsr, true) & 0x7F != 0
  {
  }

  /**
   * Switching to 7-bit mode can lock the register: 0x80, a state the
   * 15-bit mode passes through, shifts to 0, and 0 stays 0 in either mode.
   */
  lemma NarrowLfsrCanLockUp()
    ensures LfsrStep(0x80, true) == 0
    ensures LfsrStep(0, true) == 0 && LfsrStep(0, false) == 0
  {
  }

  /** An enabled channel whose register ends in a 0 plays its volume; otherwise it is silent. */
  lemma SampleFollowsRegister(n: Noise)
    requires n.Valid()
    ensures n.enabled && n.lfsr & 1 == 0 ==> Sample(n) == n.volume
    ensures !n.enabled || n.lfsr & 1 == 1 ==> Sample(n) == 0
  {
  }

  /** A byte as its high nibble, bit 3 and its low three bits. */
  lemma PackedByte(v: byte)
    ensures 16 * (v >> 4) as int + (if v & 0x08 != 0 then 8 else 0) + (v & 0x07) as int == v as int
  {
  }

  /** NR42 reads back the byte written to it. */
  lemma EnvelopeRegisterRoundTrip(n: Noise, v: byte)
    requires n.Valid()
    ensures ReadRegister(WriteRegister(n, 0xFF21, v), 0xFF21) == v as int
  {
    PackedByte(v);
  }

  /** NR43 reads back the byte written to it. */
  lemma PolynomialRegisterRoundTrip(n: Noise, v: byte)
    requires n.Valid()
    ensures ReadRegister(WriteRegister(n, 0xFF22, v), 0xFF22) == v as int
  {
    PackedByte(v);
  }

  /** NR41 reads back its low six bits under two set bits, and NR44 only bit 6 under all other bits set. */
  lemma LengthAndControlReads(n: Noise, v: byte)
    requires n.Valid()
    ensures ReadRegister(WriteRegister(n, 0xFF20, v), 0xFF20) == 0xC0 + (v & 0x3F) as int
    ensures ReadRegister(WriteRegister(n, 0xFF23, v), 0xFF23) == (if v & 0x40 != 0 then 0xFF else 0xBF)
  {
  }

  /** Writing NR42 with the top five bits clear turns the channel off. */
  lemma EnvelopeWriteTurnsOff(n: Noise, v: byte)
    requires n.Valid() && v & 0xF8 == 0
    ensures !WriteRegister(n, 0xFF21, v).enabled && Sample(WriteRegister(n, 0xFF21, v)) == 0
  {
  }

  /** An NR44 write with bit 7 set triggers first and then takes the length enable from bit 6. */
  lemma ControlWriteTriggersFirst(n: Noise, v: byte)
    requires n.Valid() && v & 0x80 != 0
    ensures WriteRegister(n, 0xFF23, v) == Trigger(n).(lengthEnabled := v & 0x40 != 0)
  {
  }

  /**
   * The envelope reloads only when its timer reaches exactly 0: a timer
   * already at 0 or below (left there by a trigger with period 0 before
   * a non-zero period is written) only counts further down, and the
   * volume no longer steps.
   */
  lemma EnvelopeStallsBelowOne(n: Noise)
    requires n.Valid() && n.envelopePeriod > 0 && n.envelopeTimer <= 0
    ensures var t := ClockEnvelope(n);
            t.volume == n.volume && t.envelopeTimer == n.envelopeTimer - 1
  {
  }

  /** From a timer in [1, period] the envelope steps the volume after exactly `envelopeTimer` clocks, within [0, 15]. */
  lemma EnvelopeStepsOnTime(n: Noise)
    requires n.Valid() && 1 <= n.envelopeTimer <= n.envelopePeriod
    ensures var t := ClockEnvelope(n);
            && (n.envelopeTimer == 1 ==> t.envelopeTimer == n.envelopePeriod && t.volume == EnvelopeStep(n.volume, n.envelopeDirection))
            && (n.envelopeTimer > 1 ==> t.envelopeTimer == n.envelopeTimer - 1 && t.volume == n.volume)
            && 1 <= t.envelopeTimer <= t.envelopePeriod
  {
  }
}
