/**
 * The `NoiseChannel` object of `NoiseChannel.js`: its fields, and methods
 * that update them the way the source does, each proved to reach the
 * state the functions of `NoiseSpec` give.
 */
module NoiseUnit {
  import opened Bits
  import opened Sound
  import opened NoiseSpec

  class NoiseChannel {
    var enabled: bool
    var lengthLoad: int
    var lengthCounter: int
    var initialVolume: int
    var envelopeDirection: int
    var envelopePeriod: int
    var volume: int
    var envelopeTimer: int
    var shiftClockFrequency: int
    var counterStep: int
    var dividingRatio: int
    var timer: int
    var lengthEnabled: bool
    var lfsr: bv16

    /** The fields as one value. */
    function State(): Noise
      reads this
    {
      Noise(enabled, lengthLoad, lengthCounter, initialVolume, envelopeDirection, envelopePeriod, volume, envelopeTimer,
            shiftClockFrequency, counterStep, dividingRatio, timer, lengthEnabled, lfsr)
    }

    predicate Valid()
      reads this
    {
      State().Valid()
    }

    /** `new NoiseChannel()`. */
    constructor ()
      ensures State() == Fresh() && Valid()
    {
      enabled, lengthLoad, lengthCounter := false, 0, 0;
      initialVolume, envelopeDirection, envelopePeriod, volume, envelopeTimer := 0, 0, 0, 0, 0;
      shiftClockFrequency, counterStep, dividingRatio, timer := 0, 0, 0, 0;
      lengthEnabled, lfsr := false, 0x7FFF;
    }

    /** `trigger`. */
    method Trigger()
      requires Valid()
      modifies this
      ensures State() == NoiseSpec.Trigger(old(State()))
    {
      ghost var s0 := State();
      Enable();
      ReloadEnvelope();
      Refill();
      assert State() == NoiseSpec.Trigger(s0);
    }

    /** The channel starts; a length counter that ran out reloads from the length load. */
    method Enable()
      modifies this
      ensures State() == old(State()).(enabled := true,
        lengthCounter := if old(lengthCounter) == 0 then 64 - old(lengthLoad) else old(lengthCounter))
    {
      ghost var s0 := State();
      enabled := true;
      lengthCounter := if lengthCounter == 0 then 64 - lengthLoad else lengthCounter;
      assert State() == s0.(enabled := true,
        lengthCounter := if s0.lengthCounter == 0 then 64 - s0.lengthLoad else s0.lengthCounter);
    }

    /** The volume and the envelope timer reload. */
    method ReloadEnvelope()
      modifies this
      ensures State() == old(State()).(volume := old(initialVolume), envelopeTimer := old(envelopePeriod))
    {
      ghost var s0 := State();
      volume, envelopeTimer := initialVolume, envelopePeriod;
      assert State() == s0.(volume := s0.initialVolume, envelopeTimer := s0.envelopePeriod);
    }

    /** The shift register refills with ones and the timer takes a whole period. */
    method Refill()
      requires 0 <= dividingRatio <= 7 && 0 <= shiftClockFrequency <= 15
      modifies this
      ensures State() == old(State()).(lfsr := 0x7FFF, timer := Period(old(dividingRatio), old(shiftClockFrequency)))
    {
      ghost var s0 := State();
      lfsr := 0x7FFF;
      var divisor := if dividingRatio > 0 then 16 * dividingRatio else 8;
      timer := divisor * Pow2(shiftClockFrequency);
      assert State() == s0.(lfsr := 0x7FFF, timer := Period(s0.dividingRatio, s0.shiftClockFrequency));
    }

    /** `clockLength`. */
    method ClockLength()
      requires Valid()
      modifies this
      ensures State() == NoiseSpec.ClockLength(old(State()))
    {
      if lengthEnabled && lengthCounter > 0 {
        lengthCounter := lengthCounter - 1;
        if lengthCounter == 0 {
          enabled := false;
        }
      }
    }

    /** `clockEnvelope`: the timer reloads only when it reaches exactly 0. */
    method ClockEnvelope()
      requires Valid()
      modifies this
      ensures State() == NoiseSpec.ClockEnvelope(old(State()))
    {
      if envelopePeriod == 0 {
        return;
      }
      envelopeTimer := envelopeTimer - 1;
      if envelopeTimer == 0 {
        envelopeTimer := envelopePeriod;
        volume := EnvelopeStep(volume, envelopeDirection);
      }
    }

    /** `clockTimer(cycles)`. */
    method ClockTimer(cycles: nat)
      requires Valid()
      modifies this
      ensures State() == NoiseSpec.ClockTimer(old(State()), cycles)
    {
      if !enabled {
        return;
      }
      ghost var s0 := State();
      timer := timer - cycles;
      if timer <= 0 {
        timer := timer + Period(dividingRatio, shiftClockFrequency);
        assert State() == s0.(timer := s0.timer - cycles + Period(s0.dividingRatio, s0.shiftClockFrequency));
        Shift();
      }
    }

    /** The shift of the register in `clockTimer`. */
    method Shift()
      requires lfsr < 0x8000
      modifies this
      ensures State() == old(State()).(lfsr := LfsrStep(old(lfsr), old(counterStep) == 1))
    {
      ghost var s0 := State();
      var next := ShiftedRegister();
      lfsr := next;
      assert State() == s0.(lfsr := next);
    }

    /** The register after one shift: in 7-bit mode the shifted value also has bit 6 replaced by the feedback bit. */
    method ShiftedRegister() returns (next: bv16)
      requires lfsr < 0x8000
      ensures next == LfsrStep(lfsr, counterStep == 1)
    {
      var feedback := Feedback(lfsr);
      if counterStep == 1 {
        next := (((lfsr >> 1) | (feedback << 14)) & !(1 << 6)) | (feedback << 6);
      } else {
        next := (lfsr >> 1) | (feedback << 14);
      }
    }

    /** `getSample`. */
    method GetSample() returns (sample: int)
      requires Valid()
      ensures sample == Sample(State())
    {
      if !enabled || lfsr & 1 != 0 {
        return 0;
      }
      sample := volume;
    }

    /** `readRegister(address)`. */
    method ReadRegister(address: int) returns (r: int)
      requires Valid()
      ensures r == NoiseSpec.ReadRegister(State(), address)
    {
      if address == 0xFF20 {
        r := 0xC0 + lengthLoad;
      } else if address == 0xFF21 {
        r := 16 * initialVolume + (if envelopeDirection != 0 then 8 else 0) + envelopePeriod;
      } else if address == 0xFF22 {
        r := 16 * shiftClockFrequency + (if counterStep != 0 then 8 else 0) + dividingRatio;
      } else if address == 0xFF23 {
        r := 0xBF + (if lengthEnabled then 0x40 else 0);
      } else {
        r := 0xFF;
      }
    }

    /** `writeRegister(address, value)`. */
    method WriteRegister(address: int, value: byte)
      requires Valid()
      modifies this
      ensures State() == NoiseSpec.WriteRegister(old(State()), address, value)
    {
      if address == 0xFF20 {
        ghost var s0 := State();
        lengthLoad := (value & 0x3F) as int;
        lengthCounter := 64 - lengthLoad;
        assert State() == s0.(lengthLoad := (value & 0x3F) as int, lengthCounter := 64 - (value & 0x3F) as int);
      } else if address == 0xFF21 {
        WriteEnvelope(value);
      } else if address == 0xFF22 {
        WritePolynomial(value);
      } else if address == 0xFF23 {
        if value & 0x80 != 0 {
          Trigger();
        }
        ghost var s1 := State();
        lengthEnabled := value & 0x40 != 0;
        assert State() == s1.(lengthEnabled := value & 0x40 != 0);
      }
    }

    /** NR42. */
    method WriteEnvelope(value: byte)
      requires Valid()
      modifies this
      ensures State() == NoiseSpec.WriteEnvelope(old(State()), value)
    {
      ghost var s0 := State();
      initialVolume := (value >> 4) as int;
      envelopeDirection := if value & 0x08 != 0 then 1 else 0;
      envelopePeriod := (value & 0x07) as int;
      assert State() == s0.(initialVolume := (value >> 4) as int, envelopeDirection := if value & 0x08 != 0 then 1 else 0,
                            envelopePeriod := (value & 0x07) as int);
      if value & 0xF8 == 0 {
        ghost var s1 := State();
        enabled := false;
        assert State() == s1.(enabled := false);
      }
    }

    /** NR43. */
    method WritePolynomial(value: byte)
      requires Valid()
      modifies this
      ensures State() == NoiseSpec.WritePolynomial(old(State()), value)
    {
      ghost var s0 := State();
      shiftClockFrequency := (value >> 4) as int;
      counterStep := if value & 0x08 != 0 then 1 else 0;
      dividingRatio := (value & 0x07) as int;
      assert State() == NoiseSpec.WritePolynomial(s0, value);
    }
  }
}
