/**
 * Properties of the audio unit: the frame sequencer's schedule and rate,
 * what `step` does to the clocks, what the power switch does, and the
 * registers that read back what was written.
 */
module AudioFacts {
  import opened Bits
  import opened AudioSpec
  import PulseSpec
  import WaveSpec
  import NoiseSpec
  import WaveFacts
  import NoiseFacts

  /** Channel 1: its length on even steps, then its sweep on steps 2 and 6; its envelope on step 7. */
  lemma SequencerChannel1(a: Audio)
    requires a.Valid()
    ensures var s := a.sequencerStep;
            ClockFrameSequencer(a).channel1
            == if s == 2 || s == 6 then PulseSpec.ClockSweep(PulseSpec.ClockLength(a.channel1))
               else if s % 2 == 0 then PulseSpec.ClockLength(a.channel1)
               else if s == 7 then PulseSpec.ClockEnvelope(a.channel1)
               else a.channel1
  {
  }

  /** Channel 2: its length on even steps, its envelope on step 7. */
  lemma SequencerChannel2(a: Audio)
    requires a.Valid()
    ensures var s := a.sequencerStep;
            ClockFrameSequencer(a).channel2
            == if s % 2 == 0 then PulseSpec.ClockLength(a.channel2)
               else if s == 7 then PulseSpec.ClockEnvelope(a.channel2)
               else a.channel2
  {
  }

  /** Channel 3: its length on even steps and nothing else. */
  lemma SequencerChannel3(a: Audio)
    requires a.Valid()
    ensures ClockFrameSequencer(a).channel3
            == if a.sequencerStep % 2 == 0 then WaveSpec.ClockLength(a.channel3) else a.channel3
  {
  }

  /** Channel 4: its length on even steps, its envelope on step 7. */
  lemma SequencerChannel4(a: Audio)
    requires a.Valid()
    ensures var s := a.sequencerStep;
            ClockFrameSequencer(a).channel4
            == if s % 2 == 0 then NoiseSpec.ClockLength(a.channel4)
               else if s == 7 then NoiseSpec.ClockEnvelope(a.channel4)
               else a.channel4
  {
  }

  /** Of two consecutive steps exactly one is even: together they clock the wave length exactly once. */
  lemma TwoStepsClockWaveLengthOnce(a: Audio)
    requires a.Valid()
    ensures ClockFrameSequencer(ClockFrameSequencer(a)).channel3 == WaveSpec.ClockLength(a.channel3)
  {
    SequencerChannel3(a);
    SequencerChannel3(ClockFrameSequencer(a));
  }

  /** Two steps move the sequencer two places round its cycle of eight. */
  lemma TwoStepsAdvanceTwo(a: Audio)
    requires a.Valid()
    ensures ClockFrameSequencer(ClockFrameSequencer(a)).sequencerStep
            == if a.sequencerStep < 6 then a.sequencerStep + 2 else a.sequencerStep - 6
  {
  }

  /** `step` does nothing while the unit is powered off or has no output. */
  lemma StepNeedsPowerAndOutput(a: Audio, cycles: nat)
    requires a.Valid() && (!a.soundEnabled || !a.outputAttached)
    ensures Step(a, cycles) == a
  {
  }

  /**
   * A `step` of a running unit: both clocks advance, and the sequencer
   * takes exactly one step, with its clock dropping by 8192, when its clock
   * reaches 8192; the switch and NR50/NR51 are left alone.
   */
  lemma StepClocks(a: Audio, cycles: nat)
    requires a.Valid() && a.soundEnabled && a.outputAttached
    ensures var t := Step(a, cycles);
            var c := a.sequencerClock + cycles;
            && t.apuClock == a.apuClock + cycles
            && t.sequencerClock == (if c >= SEQUENCER_PERIOD then c - SEQUENCER_PERIOD else c)
            && t.sequencerStep == (if c >= SEQUENCER_PERIOD then (a.sequencerStep + 1) % 8 else a.sequencerStep)
            && t.soundEnabled && t.outputAttached && MasterVolume(t) == MasterVolume(a) && t.nr51 == a.nr51
  {
  }

  /** With steps of at most 8192 cycles the sequencer clock stays below 8192: no sequencer step is ever lost. */
  lemma SequencerKeepsUp(a: Audio, cycles: nat)
    requires a.Valid() && a.sequencerClock < SEQUENCER_PERIOD && cycles <= SEQUENCER_PERIOD
    ensures Step(a, cycles).sequencerClock < SEQUENCER_PERIOD
  {
    if a.soundEnabled && a.outputAttached {
      StepClocks(a, cycles);
    }
  }

  /** While powered off, every write except to NR52 is ignored. */
  lemma PoweredOffIgnoresWrites(a: Audio, address: int, value: byte)
    requires a.Valid() && !a.soundEnabled && address != 0xFF26
    ensures WriteRegister(a, address, value) == a
  {
  }

  /** The writes of the power-off loop change nothing once the unit is powered off. */
  lemma {:induction false} PoweredOffClearIsIdle(a: Audio, address: int)
    requires a.Valid() && !a.soundEnabled && 0xFF10 <= address <= 0xFF26
    ensures ClearRegisters(a, address) == a
    decreases 0xFF26 - address
  {
    if address < 0xFF26 {
      PoweredOffIgnoresWrites(a, address, 0);
      PoweredOffClearIsIdle(a, address + 1);
    }
  }

  /**
   * As written, switching the power off clears nothing: the unit is
   * already off when its loop writes the zeros, so every channel, NR50 and
   * NR51 keep their values (NR50 = 0x77 still reads 0x77).
   */
  lemma AsWrittenPowerOffClearsNothing(a: Audio, v: byte)
    requires a.Valid() && a.soundEnabled && v & 0x80 == 0
    ensures WritePowerAsWritten(a, v) == a.(soundEnabled := false)
    ensures ReadRegister(WritePowerAsWritten(a, v), 0xFF24) == ReadRegister(a, 0xFF24)
  {
    PoweredOffClearIsIdle(a.(soundEnabled := false), 0xFF10);
  }

  /** The registers the zero writes from 0xFF10 up to `address` have already cleared. */
  predicate ClearedBefore(a: Audio, address: int)
  {
    && (address > 0xFF12 ==> !a.channel1.enabled)
    && (address > 0xFF17 ==> !a.channel2.enabled)
    && (address > 0xFF1A ==> !a.channel3.enabled)
    && (address > 0xFF21 ==> !a.channel4.enabled)
    && (address > 0xFF24 ==> !a.vinLeft && !a.vinRight && a.leftVolume == 0 && a.rightVolume == 0)
    && (address > 0xFF25 ==> a.nr51 == 0)
  }

  /** A zero write at `address` keeps what earlier ones cleared and clears what belongs to `address`. */
  lemma ClearStep(a: Audio, address: int)
    requires a.Valid() && a.soundEnabled && 0xFF10 <= address < 0xFF26 && ClearedBefore(a, address)
    ensures WriteRegister(a, address, 0).soundEnabled && ClearedBefore(WriteRegister(a, address, 0), address + 1)
  {
    if address <= 0xFF14 {
      ClearChannel1(a, address);
    } else if address <= 0xFF19 {
      ClearChannel2(a, address);
    } else if address <= 0xFF1F {
      ClearChannel3(a, address);
    } else if address <= 0xFF23 {
      ClearChannel4(a, address);
    } else {
      ClearControl(a, address);
    }
  }

  lemma ClearChannel1(a: Audio, address: int)
    requires a.Valid() && a.soundEnabled && 0xFF10 <= address <= 0xFF14 && ClearedBefore(a, address)
    ensures WriteRegister(a, address, 0).soundEnabled && ClearedBefore(WriteRegister(a, address, 0), address + 1)
  {
    assert WriteRegister(a, address, 0) == a.(channel1 := PulseSpec.WriteRegister(a.channel1, address, 0));
  }

  lemma ClearChannel2(a: Audio, address: int)
    requires a.Valid() && a.soundEnabled && 0xFF15 <= address <= 0xFF19 && ClearedBefore(a, address)
    ensures WriteRegister(a, address, 0).soundEnabled && ClearedBefore(WriteRegister(a, address, 0), address + 1)
  {
    if address != 0xFF15 {
      assert WriteRegister(a, address, 0) == a.(channel2 := PulseSpec.WriteRegister(a.channel2, address, 0));
    }
  }

  lemma ClearChannel3(a: Audio, address: int)
    requires a.Valid() && a.soundEnabled && 0xFF1A <= address <= 0xFF1F && ClearedBefore(a, address)
    ensures WriteRegister(a, address, 0).soundEnabled && ClearedBefore(WriteRegister(a, address, 0), address + 1)
  {
    if address != 0xFF1F {
      assert WriteRegister(a, address, 0) == a.(channel3 := WaveSpec.WriteRegister(a.channel3, address, 0));
    }
  }

  lemma ClearChannel4(a: Audio, address: int)
    requires a.Valid() && a.soundEnabled && 0xFF20 <= address <= 0xFF23 && ClearedBefore(a, address)
    ensures WriteRegister(a, address, 0).soundEnabled && ClearedBefore(WriteRegister(a, address, 0), address + 1)
  {
    assert WriteRegister(a, address, 0) == a.(channel4 := NoiseSpec.WriteRegister(a.channel4, address, 0));
  }

  lemma ClearControl(a: Audio, address: int)
    requires a.Valid() && a.soundEnabled && 0xFF24 <= address <= 0xFF25 && ClearedBefore(a, address)
    ensures WriteRegister(a, address, 0).soundEnabled && ClearedBefore(WriteRegister(a, address, 0), address + 1)
  {
  }

  /** The zero writes from `address` on, made while the unit accepts writes. */
  lemma {:induction false} ClearingClears(a: Audio, address: int)
    requires a.Valid() && a.soundEnabled && 0xFF10 <= address <= 0xFF26 && ClearedBefore(a, address)
    ensures ClearRegisters(a, address).soundEnabled && ClearedBefore(ClearRegisters(a, address), 0xFF26)
    decreases 0xFF26 - address
  {
    if address < 0xFF26 {
      ClearStep(a, address);
      ClearingClears(WriteRegister(a, address, 0), address + 1);
    }
  }

  /** Switching the power off silences every channel and zeroes NR50 and NR51: NR52 then reads 0x70. */
  lemma PowerOffSilences(a: Audio, v: byte)
    requires a.Valid() && a.soundEnabled && v & 0x80 == 0
    ensures var t := WriteRegister(a, 0xFF26, v);
            && !t.soundEnabled
            && ReadRegister(t, 0xFF26) == 0x70 && ReadRegister(t, 0xFF24) == 0 && ReadRegister(t, 0xFF25) == 0
  {
    ClearingClears(a, 0xFF10);
  }

  /**
   * Switching the power on resets the clocks and the sequencer and
   * installs fresh, silent channels; NR50 and NR51 keep their values.
   */
  lemma PowerOnResets(a: Audio, v: byte)
    requires a.Valid() && !a.soundEnabled && v & 0x80 != 0
    ensures var t := WriteRegister(a, 0xFF26, v);
            && t.soundEnabled && t.apuClock == 0 && t.sequencerClock == 0 && t.sequencerStep == 0
            && t.channel1 == PulseSpec.Fresh(true) && t.channel2 == PulseSpec.Fresh(false)
            && t.channel3 == WaveSpec.Fresh() && t.channel4 == NoiseSpec.Fresh()
            && ReadRegister(t, 0xFF26) == 0xF0
            && MasterVolume(t) == MasterVolume(a) && t.nr51 == a.nr51
  {
  }

  /** An NR52 write that does not change the power bit changes nothing. */
  lemma PowerWriteWithoutChange(a: Audio, v: byte)
    requires a.Valid() && (v & 0x80 != 0) == a.soundEnabled
    ensures WriteRegister(a, 0xFF26, v) == a
  {
  }

  /** NR52 reads the power in bit 7, bits 6-4 set, and channel `k`'s status in bit `k - 1`. */
  lemma PowerStatusBits(a: Audio)
    requires a.Valid()
    ensures var r := ReadRegister(a, 0xFF26);
            && (r >= 0x80 <==> a.soundEnabled)
            && (r / 16) % 8 == 7
            && (r % 2 == 1 <==> a.channel1.enabled)
            && ((r / 2) % 2 == 1 <==> a.channel2.enabled)
            && ((r / 4) % 2 == 1 <==> a.channel3.enabled)
            && ((r / 8) % 2 == 1 <==> a.channel4.enabled)
  {
  }

  /** A byte as bit 7, bits 6-4, bit 3 and bits 2-0. */
  lemma MasterVolumePacking(v: byte)
    ensures (if v & 0x80 != 0 then 0x80 else 0) + 16 * ((v >> 4) & 0x07) as int
            + (if v & 0x08 != 0 then 0x08 else 0) + (v & 0x07) as int == v as int
  {
  }

  /** NR50 reads back the byte written to it. */
  lemma MasterVolumeRoundTrip(a: Audio, v: byte)
    requires a.Valid() && a.soundEnabled
    ensures ReadRegister(WriteRegister(a, 0xFF24, v), 0xFF24) == v as int
  {
    MasterVolumePacking(v);
  }

  /** NR51 reads back the byte written to it. */
  lemma PanningRoundTrip(a: Audio, v: byte)
    requires a.Valid() && a.soundEnabled
    ensures ReadRegister(WriteRegister(a, 0xFF25, v), 0xFF25) == v as int
  {
  }

  /** NR42, written and read through the unit, reads back the byte written. */
  lemma NoiseEnvelopeThroughUnit(a: Audio, v: byte)
    requires a.Valid() && a.soundEnabled
    ensures ReadRegister(WriteRegister(a, 0xFF21, v), 0xFF21) == v as int
  {
    NoiseFacts.EnvelopeRegisterRoundTrip(a.channel4, v);
  }

  /** A wave RAM byte reads back what was written to it, and the other fifteen are untouched. */
  lemma WaveRamRoundTrip(a: Audio, address: int, other: int, v: byte)
    requires a.Valid() && a.soundEnabled && 0xFF30 <= address <= 0xFF3F && 0xFF30 <= other <= 0xFF3F && other != address
    ensures ReadRegister(WriteRegister(a, address, v), address) == v as int
    ensures ReadRegister(WriteRegister(a, address, v), other) == ReadRegister(a, other)
  {
  }

  /** The addresses of the unit that nothing answers, 0xFF15, 0xFF1F and 0xFF27-0xFF2F among them, read 0xFF. */
  lemma UnmappedReads(a: Audio, address: int)
    requires a.Valid() && !ChannelReadMissing(address)
    requires !(0xFF20 <= address <= 0xFF26) && !(0xFF30 <= address <= 0xFF3F)
    ensures ReadRegister(a, address) == 0xFF
  {
  }

  /** NR52 writes as written and as intended differ only in switching the power off. */
  lemma PowerWritesAgree(a: Audio, v: byte)
    requires a.Valid() && !(a.soundEnabled && v & 0x80 == 0)
    ensures WritePowerAsWritten(a, v) == WritePower(a, v)
  {
  }
}
