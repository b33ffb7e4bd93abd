/**
 * The `PulseChannel` object of `PulseChannel.js`: its fields, and methods
 * that update them the way the source does, each proved to reach the
 * state the functions of `PulseSpec` give.
 */
module PulseUnit {
  import opened Bits
  import opened Sound
  import opened PulseSpec

  class PulseChannel {
    /** Only channel 1 has the frequency sweep. */
    const hasSweep: bool
    var enabled: bool
    var sweepPeriod: int
    var sweepDirection: int
    var sweepShift: int
    var sweepTimer: int
    var shadowFrequency: int
    var sweepEnabled: bool
    var duty: int
    var lengthLoad: int
    var lengthCounter: int
    var initialVolume: int
    var envelopeDirection: int
    var envelopePeriod: int
    var volume: int
    var envelopeTimer: int
    var frequency: int
    var timer: int
    var lengthEnabled: bool
    var waveStep: int

    /** The fields as one value. */
    function State(): Pulse
      reads this
    {
      Pulse(hasSweep, enabled, sweepPeriod, sweepDirection, sweepShift, sweepTimer, shadowFrequency, sweepEnabled,
            duty, lengthLoad, lengthCounter, initialVolume, envelopeDirection, envelopePeriod, volume, envelopeTimer,
            frequency, timer, lengthEnabled, waveStep)
    }

    predicate Valid()
      reads this
    {
      State().Valid()
    }

    /** `new PulseChannel(hasSweep)`. */
    constructor (withSweep: bool)
      ensures State() == Fresh(withSweep) && Valid()
    {
      hasSweep := withSweep;
      enabled, sweepPeriod, sweepDirection, sweepShift, sweepTimer, shadowFrequency, sweepEnabled :=
        false, 0, 0, 0, 0, 0, false;
      duty, lengthLoad, lengthCounter := 0, 0, 0;
      initialVolume, envelopeDirection, envelopePeriod, volume, envelopeTimer := 0, 0, 0, 0, 0;
      frequency, timer, lengthEnabled, waveStep := 0, 0, false, 0;
    }

    /** `trigger`. */
    method Trigger()
      requires Valid()
      modifies this
      ensures State() == PulseSpec.Trigger(old(State()))
    {
      Start();
      if hasSweep {
        ArmSweep();
      }
      if initialVolume == 0 && envelopeDirection == 0 {
        Silence();
      }
    }

    /** The first half of `trigger`: the channel starts and its length, timer and envelope reload. */
    method Start()
      requires Valid()
      modifies this
      ensures State() == PulseSpec.Start(old(State()))
    {
      Enable();
      ReloadTimers();
    }

    /** The channel starts; a length counter that ran out reloads from the length load. */
    method Enable()
      modifies this
      ensures State() == old(State()).(enabled := true,
        lengthCounter := if old(lengthCounter) == 0 then 64 - old(lengthLoad) else old(lengthCounter))
    {
      ghost var s0 := State();
      enabled := true;
      lengthCounter := if lengthCounter == 0 then 64 - lengthLoad else lengthCounter;
      assert State() == s0.(enabled := true,
        lengthCounter := if s0.lengthCounter == 0 then 64 - s0.lengthLoad else s0.lengthCounter);
    }

    /** The frequency timer, the volume and the envelope timer reload. */
    method ReloadTimers()
      requires 0 <= frequency <= 2047
      modifies this
      ensures State() == old(State()).(timer := Period(old(frequency)), volume := old(initialVolume),
                                       envelopeTimer := old(envelopePeriod))
    {
      ghost var s0 := State();
      timer, volume, envelopeTimer := Period(frequency), initialVolume, envelopePeriod;
      assert State() == s0.(timer := Period(s0.frequency), volume := s0.initialVolume, envelopeTimer := s0.envelopePeriod);
    }

    /** The sweep half of `trigger`. */
    method ArmSweep()
      requires Valid()
      modifies this
      ensures State() == PulseSpec.ArmSweep(old(State()))
    {
      ghost var s0 := State();
      shadowFrequency := frequency;
      sweepTimer := if sweepPeriod != 0 then sweepPeriod else 8;
      sweepEnabled := sweepPeriod > 0 || sweepShift > 0;
      ghost var s1 := State();
      assert s1 == s0.(shadowFrequency := s0.frequency,
                       sweepTimer := if s0.sweepPeriod != 0 then s0.sweepPeriod else 8,
                       sweepEnabled := s0.sweepPeriod > 0 || s0.sweepShift > 0);
      if sweepShift > 0 {
        var _ := CalculateSweep();
      }
    }

    /** The channel stops. */
    method Silence()
      modifies this
      ensures State() == old(State()).(enabled := false)
    {
      ghost var s0 := State();
      enabled := false;
      assert State() == s0.(enabled := false);
    }

    /** `clockLength`. */
    method ClockLength()
      requires Valid()
      modifies this
      ensures State() == PulseSpec.ClockLength(old(State()))
    {
      if lengthEnabled && lengthCounter > 0 {
        lengthCounter := lengthCounter - 1;
        if lengthCounter == 0 {
          enabled := false;
        }
      }
    }

    /** `clockEnvelope`. */
    method ClockEnvelope()
      requires Valid()
      modifies this
      ensures State() == PulseSpec.ClockEnvelope(old(State()))
    {
      if envelopePeriod == 0 {
        return;
      }
      envelopeTimer := envelopeTimer - 1;
      if envelopeTimer <= 0 {
        envelopeTimer := envelopePeriod;
        volume := EnvelopeStep(volume, envelopeDirection);
      }
    }

    /** `clockSweep`. */
    method ClockSweep()
      requires Valid()
      modifies this
      ensures State() == PulseSpec.ClockSweep(old(State()))
    {
      if !hasSweep || !sweepEnabled {
        return;
      }
      ghost var s0 := State();
      sweepTimer := sweepTimer - 1;
      if sweepTimer <= 0 {
        sweepTimer := if sweepPeriod != 0 then sweepPeriod else 8;
        assert State() == s0.(sweepTimer := if s0.sweepPeriod != 0 then s0.sweepPeriod else 8);
        if sweepPeriod > 0 {
          SweepStep();
        }
      }
    }

    /** The body of `clockSweep` on expiry: the swept frequency is committed when it fits and the shift is non-zero. */
    method SweepStep()
      requires Valid()
      modifies this
      ensures State() == PulseSpec.SweepStep(old(State()))
    {
      var newFrequency := CalculateSweep();
      if newFrequency <= 2047 && sweepShift > 0 {
        Retune(newFrequency);
        var _ := CalculateSweep();
      }
    }

    /** Frequency and shadow frequency take a new value. */
    method Retune(f: int)
      modifies this
      ensures State() == old(State()).(frequency := f, shadowFrequency := f)
    {
      ghost var s0 := State();
      frequency, shadowFrequency := f, f;
      assert State() == s0.(frequency := f, shadowFrequency := f);
    }

    /** `calculateSweep`: the swept frequency, with the channel disabled when it exceeds 2047. */
    method CalculateSweep() returns (newFrequency: int)
      requires Valid()
      modifies this
      ensures newFrequency == SweepTarget(old(State())) && State() == CheckOverflow(old(State()))
    {
      var delta := shadowFrequency / Pow2(sweepShift);
      newFrequency := if sweepDirection == 1 then shadowFrequency - delta else shadowFrequency + delta;
      if newFrequency > 2047 {
        enabled := false;
      }
    }

    /** `clockTimer(cycles)`. */
    method ClockTimer(cycles: nat)
      requires Valid()
      modifies this
      ensures State() == PulseSpec.ClockTimer(old(State()), cycles)
    {
      if timer > 0 {
        timer := timer - cycles;
        if timer <= 0 {
          waveStep := (waveStep + 1) % 8;
          timer := timer + Period(frequency);
        }
      }
    }

    /** `getSample`. */
    method GetSample() returns (sample: int)
      requires Valid()
      ensures sample == Sample(State())
    {
      if !enabled || (initialVolume == 0 && envelopeDirection == 0) {
        return 0;
      }
      sample := DutyBit(duty, waveStep) * volume;
    }

    /** `writeRegister(address, value)`. */
    method WriteRegister(address: int, value: byte)
      requires Valid()
      modifies this
      ensures State() == PulseSpec.WriteRegister(old(State()), address, value)
    {
      if hasSweep && address == 0xFF10 {
        WriteSweep(value);
      } else if address == 0xFF11 || address == 0xFF16 {
        WriteLength(value);
      } else if address == 0xFF12 || address == 0xFF17 {
        WriteEnvelope(value);
      } else if address == 0xFF13 || address == 0xFF18 {
        ghost var s0 := State();
        frequency := FrequencyLow(frequency, value);
        assert State() == s0.(frequency := FrequencyLow(s0.frequency, value));
      } else if address == 0xFF14 || address == 0xFF19 {
        WriteControl(value);
      }
    }

    /** NRx0. */
    method WriteSweep(value: byte)
      requires Valid()
      modifies this
      ensures State() == PulseSpec.WriteSweep(old(State()), value)
    {
      ghost var s0 := State();
      sweepPeriod := ((value >> 4) & 0x07) as int;
      sweepDirection := if value & 0x08 != 0 then 1 else 0;
      sweepShift := (value & 0x07) as int;
      assert State() == PulseSpec.WriteSweep(s0, value);
    }

    /** NRx1. */
    method WriteLength(value: byte)
      requires Valid()
      modifies this
      ensures State() == PulseSpec.WriteLength(old(State()), value)
    {
      ghost var s0 := State();
      duty := (value >> 6) as int;
      lengthLoad := (value & 0x3F) as int;
      lengthCounter := 64 - lengthLoad;
      assert State() == PulseSpec.WriteLength(s0, value);
    }

    /** NRx2. */
    method WriteEnvelope(value: byte)
      requires Valid()
      modifies this
      ensures State() == PulseSpec.WriteEnvelope(old(State()), value)
    {
      ghost var s0 := State();
      initialVolume := (value >> 4) as int;
      envelopeDirection := if value & 0x08 != 0 then 1 else 0;
      envelopePeriod := (value & 0x07) as int;
      assert State() == s0.(initialVolume := (value >> 4) as int, envelopeDirection := if value & 0x08 != 0 then 1 else 0,
                            envelopePeriod := (value & 0x07) as int);
      if value & 0xF8 == 0 {
        Silence();
      }
    }

    /** NRx4. */
    method WriteControl(value: byte)
      requires Valid()
      modifies this
      ensures State() == PulseSpec.WriteControl(old(State()), value)
    {
      ghost var s0 := State();
      frequency := FrequencyHigh(frequency, value);
      lengthEnabled := value & 0x40 != 0;
      assert State() == s0.(frequency := FrequencyHigh(s0.frequency, value), lengthEnabled := value & 0x40 != 0);
      if value & 0x80 != 0 {
        Trigger();
      }
    }
  }
}
