/**
 * What the square-wave channel promises: the effects of a trigger, the
 * silence of a channel whose DAC is off, the counters and the volume
 * staying in range, the sweep committing only a frequency that fits in
 * eleven bits, and the frequency registers reading back what was written.
 */
module PulseFacts {
  import opened Bits
  import opened Sound
  import opened PulseSpec

  /** `trigger` reloads the length counter only when it ran out, and the timer, volume and envelope timer always. */
  lemma TriggerReloads(p: Pulse)
    requires p.Valid()
    ensures var q := Trigger(p);
            && q.lengthCounter == (if p.lengthCounter == 0 then 64 - p.lengthLoad else p.lengthCounter)
            && q.timer == Period(p.frequency) && q.volume == p.initialVolume && q.envelopeTimer == p.envelopePeriod
            && q.frequency == p.frequency && q.duty == p.duty && q.lengthEnabled == p.lengthEnabled
            && q.lengthCounter > 0
  {
  }

  /** On channel 2 a trigger enables the channel exactly when its DAC is on. */
  lemma TriggerEnablesWithoutSweep(p: Pulse)
    requires p.Valid() && !p.hasSweep
    ensures Trigger(p).enabled <==> !DacOff(p)
  {
  }

  /**
   * On channel 1 a trigger copies the frequency into the shadow register,
   * reloads the sweep timer (8 for a zero period), arms the sweep when the
   * period or the shift is non-zero, and leaves the channel enabled
   * exactly when the DAC is on and, with a non-zero shift, the first
   * swept frequency fits in eleven bits.
   */
  lemma TriggerArmsSweep(p: Pulse)
    requires p.Valid() && p.hasSweep
    ensures var q := Trigger(p);
            && q.shadowFrequency == p.frequency
            && q.sweepTimer == (if p.sweepPeriod != 0 then p.sweepPeriod else 8)
            && (q.sweepEnabled <==> p.sweepPeriod > 0 || p.sweepShift > 0)
            && (q.enabled <==> !DacOff(p) && (p.sweepShift == 0 || SweepTarget(p.(shadowFrequency := p.frequency)) <= 2047))
  {
    var started := Start(p);
    var armed := started.(shadowFrequency := p.frequency,
                          sweepTimer := if p.sweepPeriod != 0 then p.sweepPeriod else 8,
                          sweepEnabled := p.sweepPeriod > 0 || p.sweepShift > 0);
    assert SweepTarget(armed) == SweepTarget(p.(shadowFrequency := p.frequency));
  }

  /** A channel whose DAC is off stays silent after a trigger. */
  lemma TriggerWithDacOffSilent(p: Pulse)
    requires p.Valid() && DacOff(p)
    ensures !Trigger(p).enabled && Sample(Trigger(p)) == 0
  {
  }

  /** Writing NRx2 with the top five bits clear turns the channel off and silences it. */
  lemma EnvelopeWriteTurnsOff(p: Pulse, address: int, value: byte)
    requires p.Valid() && (address == 0xFF12 || address == 0xFF17) && value & 0xF8 == 0
    ensures var q := WriteRegister(p, address, value);
            !q.enabled && DacOff(q) && Sample(q) == 0
  {
  }

  /**
   * `clockLength` counts down only with length enabled and a non-zero
   * counter, and turns the channel off exactly when the counter reaches 0.
   */
  lemma LengthCountsDown(p: Pulse)
    requires p.Valid()
    ensures var q := ClockLength(p);
            && q.lengthCounter == (if p.lengthEnabled && p.lengthCounter > 0 then p.lengthCounter - 1 else p.lengthCounter)
            && (q.enabled <==> p.enabled && !(p.lengthEnabled && p.lengthCounter == 1))
            && 0 <= q.lengthCounter
            && q == p.(lengthCounter := q.lengthCounter, enabled := q.enabled)
  {
  }

  /** `clockEnvelope` does nothing with a zero period, and otherwise moves the volume by at most one step within [0, 15]. */
  lemma EnvelopeBounded(p: Pulse)
    requires p.Valid()
    ensures var q := ClockEnvelope(p);
            && (p.envelopePeriod == 0 ==> q == p)
            && 0 <= q.volume <= 15
            && (p.envelopeDirection == 1 ==> p.volume <= q.volume <= p.volume + 1)
            && (p.envelopeDirection == 0 ==> p.volume - 1 <= q.volume <= p.volume)
  {
  }

  /** A volume that steps moves toward 15 when increasing and toward 0 when decreasing, and stops there. */
  lemma {:induction false} EnvelopeSettles(p: Pulse, n: nat)
    requires p.Valid()
    ensures var q := EnvelopeRepeated(p, n);
            && q.Valid()
            && (p.envelopeDirection == 1 ==> p.volume <= q.volume)
            && (p.envelopeDirection == 0 ==> q.volume <= p.volume)
  {
    if n > 0 {
      EnvelopeSettles(p, n - 1);
      EnvelopeBounded(EnvelopeRepeated(p, n - 1));
    }
  }

  /** `n` envelope clocks in a row. */
  function EnvelopeRepeated(p: Pulse, n: nat): (q: Pulse)
    requires p.Valid()
    ensures q.Valid() && q.envelopeDirection == p.envelopeDirection
  {
    if n == 0 then p else ClockEnvelope(EnvelopeRepeated(p, n - 1))
  }

  /**
   * `clockSweep` changes the frequency only with a non-zero period and a
   * non-zero shift, and then to the swept value, which fits in eleven bits
   * and becomes the shadow frequency too.
   */
  lemma SweepCommitsOnlyFittingFrequency(p: Pulse)
    requires p.Valid()
    ensures var q := ClockSweep(p);
            q.frequency != p.frequency ==>
              && p.hasSweep && p.sweepEnabled && p.sweepPeriod > 0 && p.sweepShift > 0
              && q.frequency == SweepTarget(p) <= 2047 && q.shadowFrequency == q.frequency
  {
    if p.hasSweep && p.sweepEnabled && p.sweepTimer - 1 <= 0 && p.sweepPeriod > 0 {
      var reloaded := p.(sweepTimer := p.sweepPeriod);
      assert SweepTarget(reloaded) == SweepTarget(p);
    }
  }

  /** A sweep that subtracts never overflows: it cannot disable the channel. */
  lemma SubtractiveSweepKeepsEnabled(p: Pulse)
    requires p.Valid() && p.sweepDirection == 1
    ensures CheckOverflow(p) == p
  {
  }

  /** A sweep that adds, with the shift at 0, doubles the shadow frequency. */
  lemma ZeroShiftDoubles(p: Pulse)
    requires p.Valid() && p.sweepDirection == 0 && p.sweepShift == 0
    ensures SweepTarget(p) == 2 * p.shadowFrequency
  {
  }

  /** `clockTimer` keeps the duty step in [0, 8) and moves it by at most one. */
  lemma DutyStepAdvancesAtMostOne(p: Pulse, cycles: nat)
    requires p.Valid()
    ensures var q := ClockTimer(p, cycles);
            && 0 <= q.waveStep < 8
            && (q.waveStep == p.waveStep || q.waveStep == (p.waveStep + 1) % 8)
            && (q.waveStep != p.waveStep <==> p.timer > 0 && p.timer <= cycles)
  {
  }

  /** An enabled channel with its DAC on plays the duty bit at the current volume. */
  lemma SampleOfEnabledChannel(p: Pulse)
    requires p.Valid() && p.enabled && !DacOff(p)
    ensures Sample(p) == DutyBit(p.duty, p.waveStep) * p.volume
    ensures p.volume > 0 ==> (Sample(p) > 0 <==> DutyBit(p.duty, p.waveStep) == 1)
  {
  }

  /** Each duty pattern is high for 1, 2, 4 and 6 of its eight steps. */
  lemma DutyCycles()
    ensures forall d :: 0 <= d <= 3 ==> HighSteps(d, 8) == [1, 2, 4, 6][d]
  {
    assert HighSteps(0, 8) == 1;
    assert HighSteps(1, 8) == 2;
    assert HighSteps(2, 8) == 4;
    assert HighSteps(3, 8) == 6;
  }

  /** The number of high steps among the first `n` steps of duty pattern `d`. */
  function HighSteps(d: int, n: int): (k: int)
    requires 0 <= d <= 3 && 0 <= n <= 8
    ensures 0 <= k <= n
  {
    if n == 0 then 0 else HighSteps(d, n - 1) + DutyBit(d, n - 1)
  }

  /** Writing NRx3 and then NRx4 without a trigger sets the frequency to the eleven bits the two bytes give. */
  lemma FrequencyRoundTrip(p: Pulse, low: byte, high: byte)
    requires p.Valid() && high & 0x80 == 0
    ensures WriteRegister(WriteRegister(p, 0xFF13, low), 0xFF14, high).frequency == 256 * (high & 0x07) as int + low as int
    ensures WriteRegister(WriteRegister(p, 0xFF18, low), 0xFF19, high).frequency == 256 * (high & 0x07) as int + low as int
  {
  }

  /** The sweep register exists only on channel 1: elsewhere a write to 0xFF10 changes nothing. */
  lemma SweepRegisterOnlyOnChannelOne(p: Pulse, value: byte)
    requires p.Valid() && !p.hasSweep
    ensures WriteRegister(p, 0xFF10, value) == p
  {
  }
}
