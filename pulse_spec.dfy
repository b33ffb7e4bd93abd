/**
 * The square-wave channels of `PulseChannel.js` as functions on a value:
 * the length counter, the volume envelope, channel 1's frequency sweep
 * with its overflow check, the duty timer, the sample and the NRx0-NRx4
 * register writes. Frequencies, counters and timers are the source's
 * non-negative numbers, as unbounded integers.
 */
module PulseSpec {
  import opened Bits
  import opened Sound

  datatype Pulse = Pulse(
    hasSweep: bool, enabled: bool,
    sweepPeriod: int, sweepDirection: int, sweepShift: int, sweepTimer: int,
    shadowFrequency: int, sweepEnabled: bool,
    duty: int, lengthLoad: int, lengthCounter: int,
    initialVolume: int, envelopeDirection: int, envelopePeriod: int, volume: int, envelopeTimer: int,
    frequency: int, timer: int, lengthEnabled: bool, waveStep: int)
  {
    /** The ranges every operation keeps. */
    predicate Valid()
    {
      && 0 <= sweepPeriod <= 7 && 0 <= sweepDirection <= 1 && 0 <= sweepShift <= 7 && 0 <= sweepTimer <= 8
      && 0 <= shadowFrequency <= 2047
      && 0 <= duty <= 3 && 0 <= lengthLoad <= 63 && 0 <= lengthCounter <= 64
      && 0 <= initialVolume <= 15 && 0 <= envelopeDirection <= 1 && 0 <= envelopePeriod <= 7
      && 0 <= volume <= 15 && 0 <= envelopeTimer <= 7
      && 0 <= frequency <= 2047 && 0 <= waveStep < 8
    }
  }

  /** `new PulseChannel(hasSweep)`: every field zero or false. */
  function Fresh(hasSweep: bool): (p: Pulse)
    ensures p.Valid() && p.hasSweep == hasSweep && !p.enabled
  {
    Pulse(hasSweep, false, 0, 0, 0, 0, 0, false, 0, 0, 0, 0, 0, 0, 0, 0, 0, 0, false, 0)
  }

  /** The timer period of a frequency: `(2048 - frequency) * 4` cycles per duty step. */
  function Period(frequency: int): (n: int)
    requires 0 <= frequency <= 2047
    ensures 4 <= n <= 8192
  {
    (2048 - frequency) * 4
  }

  /** The value `calculateSweep` returns: the shadow frequency plus or minus itself shifted right by the sweep shift. */
  function SweepTarget(p: Pulse): (f: int)
    requires p.Valid()
    ensures p.sweepDirection == 1 ==> 0 <= f <= p.shadowFrequency
    ensures p.sweepDirection == 0 ==> p.shadowFrequency <= f <= 2 * p.shadowFrequency
  {
    var delta := p.shadowFrequency / Pow2(p.sweepShift);
    if p.sweepDirection == 1 then p.shadowFrequency - delta else p.shadowFrequency + delta
  }

  /** The overflow check of `calculateSweep`: a target above 2047 disables the channel. */
  function CheckOverflow(p: Pulse): (q: Pulse)
    requires p.Valid()
    ensures q.Valid() && q == p.(enabled := q.enabled)
    ensures q.enabled == (p.enabled && SweepTarget(p) <= 2047)
  {
    if SweepTarget(p) > 2047 then p.(enabled := false) else p
  }

  /** The first part of `trigger`: enabled, length reloaded when it ran out, timer, volume and envelope timer reloaded. */
  function Start(p: Pulse): (q: Pulse)
    requires p.Valid()
    ensures q.Valid()
  {
    p.(enabled := true,
       lengthCounter := if p.lengthCounter == 0 then 64 - p.lengthLoad else p.lengthCounter,
       timer := Period(p.frequency), volume := p.initialVolume, envelopeTimer := p.envelopePeriod)
  }

  /** The sweep part of `trigger` on channel 1: shadow frequency, sweep timer, sweep enable, and the overflow check when the shift is non-zero. */
  function ArmSweep(p: Pulse): (q: Pulse)
    requires p.Valid()
    ensures q.Valid()
  {
    var armed := p.(shadowFrequency := p.frequency,
                    sweepTimer := if p.sweepPeriod != 0 then p.sweepPeriod else 8,
                    sweepEnabled := p.sweepPeriod > 0 || p.sweepShift > 0);
    if armed.sweepShift > 0 then CheckOverflow(armed) else armed
  }

  /** A channel whose DAC is off: initial volume 0 with a decreasing envelope. */
  predicate DacOff(p: Pulse)
  {
    p.initialVolume == 0 && p.envelopeDirection == 0
  }

  /** `trigger`. */
  function Trigger(p: Pulse): (q: Pulse)
    requires p.Valid()
    ensures q.Valid()
  {
    var started := Start(p);
    var swept := if p.hasSweep then ArmSweep(started) else started;
    if DacOff(p) then swept.(enabled := false) else swept
  }

  /** `clockLength`: with length enabled a non-zero counter counts down, and the channel stops when it reaches 0. */
  function ClockLength(p: Pulse): (q: Pulse)
    requires p.Valid()
    ensures q.Valid()
  {
    if p.lengthEnabled && p.lengthCounter > 0 then
      p.(lengthCounter := p.lengthCounter - 1, enabled := p.enabled && p.lengthCounter != 1)
    else p
  }

  /** `clockEnvelope`: with a non-zero period the timer counts down, and on expiry it reloads and the volume takes one step. */
  function ClockEnvelope(p: Pulse): (q: Pulse)
    requires p.Valid()
    ensures q.Valid()
  {
    if p.envelopePeriod == 0 then p
    else if p.envelopeTimer - 1 <= 0 then
      p.(envelopeTimer := p.envelopePeriod, volume := EnvelopeStep(p.volume, p.envelopeDirection))
    else p.(envelopeTimer := p.envelopeTimer - 1)
  }

  /** The body of `clockSweep` once the timer expires with a non-zero period. */
  function SweepStep(p: Pulse): (q: Pulse)
    requires p.Valid()
    ensures q.Valid()
  {
    var target := SweepTarget(p);
    var checked := CheckOverflow(p);
    if target <= 2047 && p.sweepShift > 0 then
      CheckOverflow(checked.(frequency := target, shadowFrequency := target))
    else checked
  }

  /** `clockSweep`. */
  function ClockSweep(p: Pulse): (q: Pulse)
    requires p.Valid()
    ensures q.Valid()
  {
    if !p.hasSweep || !p.sweepEnabled then p
    else if p.sweepTimer - 1 > 0 then p.(sweepTimer := p.sweepTimer - 1)
    else
      var reloaded := p.(sweepTimer := if p.sweepPeriod != 0 then p.sweepPeriod else 8);
      if p.sweepPeriod > 0 then SweepStep(reloaded) else reloaded
  }

  /** `clockTimer(cycles)`: a running timer counts down; on expiry the duty step advances and a period is added. */
  function ClockTimer(p: Pulse, cycles: nat): (q: Pulse)
    requires p.Valid()
    ensures q.Valid()
  {
    if p.timer > 0 then
      var t := p.timer - cycles;
      if t <= 0 then p.(waveStep := (p.waveStep + 1) % 8, timer := t + Period(p.frequency))
      else p.(timer := t)
    else p
  }

  /** `DUTY_PATTERNS[duty][step]`: 12.5%, 25%, 50% and 75% high. */
  function DutyBit(duty: int, step: int): (b: int)
    requires 0 <= duty <= 3 && 0 <= step < 8
    ensures b == 0 || b == 1
  {
    var patterns := [[0, 0, 0, 0, 0, 0, 0, 1], [1, 0, 0, 0, 0, 0, 0, 1], [1, 0, 0, 0, 0, 1, 1, 1], [0, 1, 1, 1, 1, 1, 1, 0]];
    patterns[duty][step]
  }

  /** `getSample`: the duty bit times the volume, 0 when disabled or with the DAC off. */
  function Sample(p: Pulse): (s: int)
    requires p.Valid()
    ensures 0 <= s <= 15
    ensures !p.enabled || DacOff(p) ==> s == 0
    ensures s == 0 || s == p.volume
  {
    if !p.enabled || DacOff(p) then 0 else DutyBit(p.duty, p.waveStep) * p.volume
  }

  /** NRx0 on channel 1: sweep period, direction and shift. */
  function WriteSweep(p: Pulse, value: byte): (q: Pulse)
    requires p.Valid()
    ensures q.Valid()
  {
    p.(sweepPeriod := ((value >> 4) & 0x07) as int, sweepDirection := if value & 0x08 != 0 then 1 else 0,
       sweepShift := (value & 0x07) as int)
  }

  /** NRx1: duty, length load, and the length counter reloaded from it. */
  function WriteLength(p: Pulse, value: byte): (q: Pulse)
    requires p.Valid()
    ensures q.Valid()
  {
    p.(duty := (value >> 6) as int, lengthLoad := (value & 0x3F) as int, lengthCounter := 64 - (value & 0x3F) as int)
  }

  /** NRx2: initial volume, envelope direction and period; a zero top five bits turns the channel off. */
  function WriteEnvelope(p: Pulse, value: byte): (q: Pulse)
    requires p.Valid()
    ensures q.Valid()
  {
    p.(initialVolume := (value >> 4) as int, envelopeDirection := if value & 0x08 != 0 then 1 else 0,
       envelopePeriod := (value & 0x07) as int, enabled := p.enabled && value & 0xF8 != 0)
  }

  /** NRx4: frequency bits 8-10 and length enable, then a trigger when bit 7 is set. */
  function WriteControl(p: Pulse, value: byte): (q: Pulse)
    requires p.Valid()
    ensures q.Valid()
  {
    var updated := p.(frequency := FrequencyHigh(p.frequency, value), lengthEnabled := value & 0x40 != 0);
    if value & 0x80 != 0 then Trigger(updated) else updated
  }

  /** `writeRegister(address, value)`: NRx0 only on channel 1; other addresses change nothing. */
  function WriteRegister(p: Pulse, address: int, value: byte): (q: Pulse)
    requires p.Valid()
    ensures q.Valid() && q.hasSweep == p.hasSweep
  {
    if p.hasSweep && address == 0xFF10 then WriteSweep(p, value)
    else if address == 0xFF11 || address == 0xFF16 then WriteLength(p, value)
    else if address == 0xFF12 || address == 0xFF17 then WriteEnvelope(p, value)
    else if address == 0xFF13 || address == 0xFF18 then p.(frequency := FrequencyLow(p.frequency, value))
    else if address == 0xFF14 || address == 0xFF19 then WriteControl(p, value)
    else p
  }
}
