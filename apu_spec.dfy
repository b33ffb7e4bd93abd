/**
 * The audio processing unit of `apu.js` as functions on a value: the
 * power switch, the output-attached test, the NR50 volumes, NR51 (kept in
 * the memory unit's array), the frame sequencer and the four channels.
 * Sample mixing and the Web Audio output are not part of this model.
 */
module AudioSpec {
  import opened Bits
  import PulseSpec
  import WaveSpec
  import NoiseSpec

  /** The clock cycles between two frame sequencer steps (512 Hz at 4194304 Hz). */
  const SEQUENCER_PERIOD := 8192

  datatype Audio = Audio(
    soundEnabled: bool, outputAttached: bool,
    vinLeft: bool, vinRight: bool, leftVolume: int, rightVolume: int,
    apuClock: int, sequencerClock: int, sequencerStep: int,
    channel1: PulseSpec.Pulse, channel2: PulseSpec.Pulse, channel3: WaveSpec.Wave, channel4: NoiseSpec.Noise,
    nr51: byte)
  {
    /** Channel 1 is the one with the sweep; every channel and counter stays in range. */
    predicate Valid()
    {
      && 0 <= leftVolume <= 7 && 0 <= rightVolume <= 7
      && 0 <= apuClock && 0 <= sequencerClock && 0 <= sequencerStep < 8
      && channel1.Valid() && channel1.hasSweep && channel2.Valid() && !channel2.hasSweep
      && channel3.Valid() && channel4.Valid()
    }
  }

  /** Nothing outside the four channels and the sequencer step differs between `a` and `t`. */
  predicate SameControls(a: Audio, t: Audio)
  {
    && a.soundEnabled == t.soundEnabled && a.outputAttached == t.outputAttached
    && a.vinLeft == t.vinLeft && a.vinRight == t.vinRight
    && a.leftVolume == t.leftVolume && a.rightVolume == t.rightVolume
    && a.apuClock == t.apuClock && a.sequencerClock == t.sequencerClock && a.nr51 == t.nr51
  }

  /** `new AudioProcessingUnit(mmu)`: powered off, no output, both volumes 7, clocks at 0, fresh channels. */
  function Initial(nr51: byte): (a: Audio)
    ensures a.Valid() && !a.soundEnabled
  {
    Audio(false, false, false, false, 7, 7, 0, 0, 0,
          PulseSpec.Fresh(true), PulseSpec.Fresh(false), WaveSpec.Fresh(), NoiseSpec.Fresh(), nr51)
  }

  /** The length counters of all four channels are clocked. */
  function ClockLengths(a: Audio): (t: Audio)
    requires a.Valid()
    ensures t.Valid() && SameControls(a, t) && t.sequencerStep == a.sequencerStep
  {
    a.(channel1 := PulseSpec.ClockLength(a.channel1), channel2 := PulseSpec.ClockLength(a.channel2),
       channel3 := WaveSpec.ClockLength(a.channel3), channel4 := NoiseSpec.ClockLength(a.channel4))
  }

  /** The envelopes of channels 1, 2 and 4 are clocked. */
  function ClockEnvelopes(a: Audio): (t: Audio)
    requires a.Valid()
    ensures t.Valid() && SameControls(a, t) && t.sequencerStep == a.sequencerStep
  {
    a.(channel1 := PulseSpec.ClockEnvelope(a.channel1), channel2 := PulseSpec.ClockEnvelope(a.channel2),
       channel4 := NoiseSpec.ClockEnvelope(a.channel4))
  }

  /** The lengths are clocked on the even steps. */
  function LengthPhase(a: Audio): (t: Audio)
    requires a.Valid()
    ensures t.Valid() && SameControls(a, t) && t.sequencerStep == a.sequencerStep
  {
    if a.sequencerStep % 2 == 0 then ClockLengths(a) else a
  }

  /** Channel 1's sweep is clocked on steps 2 and 6. */
  function SweepPhase(a: Audio): (t: Audio)
    requires a.Valid()
    ensures t.Valid() && SameControls(a, t) && t.sequencerStep == a.sequencerStep
  {
    if a.sequencerStep == 2 || a.sequencerStep == 6 then a.(channel1 := PulseSpec.ClockSweep(a.channel1)) else a
  }

  /** The envelopes are clocked on step 7. */
  function EnvelopePhase(a: Audio): (t: Audio)
    requires a.Valid()
    ensures t.Valid() && SameControls(a, t) && t.sequencerStep == a.sequencerStep
  {
    if a.sequencerStep == 7 then ClockEnvelopes(a) else a
  }

  /**
   * `clockFrameSequencer`: lengths on even steps, channel 1's sweep on
   * steps 2 and 6, the envelopes on step 7, then the next of eight steps.
   */
  function ClockFrameSequencer(a: Audio): (t: Audio)
    requires a.Valid()
    ensures t.Valid() && SameControls(a, t)
    ensures t.sequencerStep == if a.sequencerStep == 7 then 0 else a.sequencerStep + 1
  {
    var clocked := EnvelopePhase(SweepPhase(LengthPhase(a)));
    clocked.(sequencerStep := (a.sequencerStep + 1) % 8)
  }

  /** The frequency timers of all four channels run for `cycles`. */
  function ClockTimers(a: Audio, cycles: nat): (t: Audio)
    requires a.Valid()
    ensures t.Valid() && SameControls(a, t) && t.sequencerStep == a.sequencerStep
  {
    a.(channel1 := PulseSpec.ClockTimer(a.channel1, cycles), channel2 := PulseSpec.ClockTimer(a.channel2, cycles),
       channel3 := WaveSpec.ClockTimer(a.channel3, cycles), channel4 := NoiseSpec.ClockTimer(a.channel4, cycles))
  }

  /** `apuClock` and the frame sequencer clock advance by `cycles`. */
  function Advance(a: Audio, cycles: nat): (t: Audio)
    requires a.Valid()
    ensures t.Valid()
  {
    a.(apuClock := a.apuClock + cycles, sequencerClock := a.sequencerClock + cycles)
  }

  /** The frame sequencer clock drops by one period. */
  function Rewind(a: Audio): (t: Audio)
    requires a.Valid() && a.sequencerClock >= SEQUENCER_PERIOD
    ensures t.Valid()
  {
    a.(sequencerClock := a.sequencerClock - SEQUENCER_PERIOD)
  }

  /** Once its clock reaches 8192 the sequencer clock drops by 8192 and the sequencer is clocked. */
  function SequencerTick(a: Audio): (t: Audio)
    requires a.Valid()
    ensures t.Valid()
  {
    if a.sequencerClock >= SEQUENCER_PERIOD then ClockFrameSequencer(Rewind(a)) else a
  }

  /**
   * `step(cycles)` without sample mixing: nothing unless powered on with
   * output attached; otherwise the clocks advance, the sequencer steps once
   * when its clock has reached 8192, and the channel timers run.
   */
  function Step(a: Audio, cycles: nat): (t: Audio)
    requires a.Valid()
    ensures t.Valid()
  {
    if !a.soundEnabled || !a.outputAttached then a
    else ClockTimers(SequencerTick(Advance(a, cycles)), cycles)
  }

  /** NR10-NR14, NR21-NR24 and NR30-NR34: their reads call a method the channel objects lack. */
  predicate ChannelReadMissing(address: int)
  {
    0xFF10 <= address <= 0xFF14 || 0xFF16 <= address <= 0xFF19 || 0xFF1A <= address <= 0xFF1E
  }

  /** NR52 as read: power in bit 7, bits 6-4 set, the four channels' `enabled` flags in bits 0-3 (the bits are disjoint, so `|` is `+`). */
  function PowerStatus(a: Audio): (r: int)
    ensures 0x70 <= r < 0x100
  {
    (if a.soundEnabled then 0x80 else 0) + 0x70
    + (if a.channel1.enabled then 0x01 else 0) + (if a.channel2.enabled then 0x02 else 0)
    + (if a.channel3.enabled then 0x04 else 0) + (if a.channel4.enabled then 0x08 else 0)
  }

  /** NR50 as read: Vin left in bit 7, the left volume in bits 6-4, Vin right in bit 3, the right volume in bits 2-0. */
  function MasterVolume(a: Audio): (r: int)
    requires a.Valid()
    ensures 0 <= r < 0x100
  {
    (if a.vinLeft then 0x80 else 0) + 16 * a.leftVolume + (if a.vinRight then 0x08 else 0) + a.rightVolume
  }

  /** `readRegister(address)` for the addresses whose reads the source can answer; 0xFF where nothing answers. */
  function ReadRegister(a: Audio, address: int): (r: int)
    requires a.Valid() && !ChannelReadMissing(address)
    ensures 0 <= r < 0x100
  {
    if 0xFF20 <= address <= 0xFF23 then NoiseSpec.ReadRegister(a.channel4, address)
    else if address == 0xFF24 then MasterVolume(a)
    else if address == 0xFF25 then a.nr51 as int
    else if address == 0xFF26 then PowerStatus(a)
    else if 0xFF30 <= address <= 0xFF3F then a.channel3.table[address - 0xFF30] as int
    else 0xFF
  }

  /** NR50: the Vin bits and the two 3-bit volumes. */
  function WriteMasterVolume(a: Audio, value: byte): (t: Audio)
    requires a.Valid()
    ensures t.Valid()
  {
    a.(vinLeft := value & 0x80 != 0, leftVolume := ((value >> 4) & 0x07) as int,
       vinRight := value & 0x08 != 0, rightVolume := (value & 0x07) as int)
  }

  /** `reset`: clocks and sequencer step at 0, four fresh channels. */
  function Reset(a: Audio): (t: Audio)
    requires a.Valid()
    ensures t.Valid()
  {
    a.(apuClock := 0, sequencerClock := 0, sequencerStep := 0,
       channel1 := PulseSpec.Fresh(true), channel2 := PulseSpec.Fresh(false),
       channel3 := WaveSpec.Fresh(), channel4 := NoiseSpec.Fresh())
  }

  /**
   * NR52 as `writeRegister` handles it: bit 7 becomes `soundEnabled`;
   * switching on resets the unit, and switching off then writes 0 to every
   * address from 0xFF10 to 0xFF25 -- writes that the powered-off test at
   * the head of `writeRegister` turns away.
   */
  function WritePowerAsWritten(a: Audio, value: byte): (t: Audio)
    requires a.Valid()
    ensures t.Valid()
    ensures value & 0x80 != 0 && !a.soundEnabled ==> t == Reset(a.(soundEnabled := true))
    ensures (value & 0x80 != 0) == a.soundEnabled ==> t == a
    ensures !(a.soundEnabled && value & 0x80 == 0) ==> t == WritePower(a, value)
    decreases 1, 0
  {
    var on := value & 0x80 != 0;
    var switched := a.(soundEnabled := on);
    if on && !a.soundEnabled then Reset(switched)
    else if !on && a.soundEnabled then ClearRegisters(switched, 0xFF10)
    else switched
  }

  /**
   * NR52 with the power-off writes taking effect: switching on resets the
   * unit; switching off writes 0 to every address from 0xFF10 to 0xFF25
   * while the unit still accepts writes, and only then clears
   * `soundEnabled`.
   */
  function WritePower(a: Audio, value: byte): (t: Audio)
    requires a.Valid()
    ensures t.Valid()
    decreases 1, 0
  {
    var on := value & 0x80 != 0;
    if on && !a.soundEnabled then Reset(a.(soundEnabled := true))
    else if !on && a.soundEnabled then ClearRegisters(a, 0xFF10).(soundEnabled := false)
    else a.(soundEnabled := on)
  }

  /** The loop of the power-off branch from `address` on: `writeRegister(i, 0)` for every `i` up to 0xFF25. */
  function ClearRegisters(a: Audio, address: int): (t: Audio)
    requires a.Valid() && 0xFF10 <= address <= 0xFF26
    ensures t.Valid()
    decreases 0, 0xFF26 - address
  {
    if address == 0xFF26 then a
    else ClearRegisters(WriteRegister(a, address, 0), address + 1)
  }

  /** Whether a write to `address` goes to one of the channels: their registers and the wave RAM. */
  predicate ChannelAddress(address: int)
  {
    0xFF10 <= address <= 0xFF14 || 0xFF16 <= address <= 0xFF19 || 0xFF1A <= address <= 0xFF1E
    || 0xFF20 <= address <= 0xFF23 || 0xFF30 <= address <= 0xFF3F
  }

  /** A write the routing of `writeRegister` hands to a channel. */
  function WriteChannel(a: Audio, address: int, value: byte): (t: Audio)
    requires a.Valid() && ChannelAddress(address)
    ensures t.Valid()
  {
    if 0xFF10 <= address <= 0xFF14 then a.(channel1 := PulseSpec.WriteRegister(a.channel1, address, value))
    else if 0xFF16 <= address <= 0xFF19 then a.(channel2 := PulseSpec.WriteRegister(a.channel2, address, value))
    else if 0xFF1A <= address <= 0xFF1E then a.(channel3 := WaveSpec.WriteRegister(a.channel3, address, value))
    else if 0xFF20 <= address <= 0xFF23 then a.(channel4 := NoiseSpec.WriteRegister(a.channel4, address, value))
    else a.(channel3 := WaveSpec.WriteWaveTable(a.channel3, address - 0xFF30, value))
  }

  /**
   * `writeRegister(address, value)`: while powered off only NR52 is
   * written; otherwise the channel registers go to their channel, the
   * wave RAM to the wave table, and NR50-NR52 are handled here.
   */
  function WriteRegister(a: Audio, address: int, value: byte): (t: Audio)
    requires a.Valid()
    ensures t.Valid()
    decreases if address == 0xFF26 then 2 else 0, 0
  {
    if !a.soundEnabled && address != 0xFF26 then a
    else if ChannelAddress(address) then WriteChannel(a, address, value)
    else if address == 0xFF24 then WriteMasterVolume(a, value)
    else if address == 0xFF25 then a.(nr51 := value)
    else if address == 0xFF26 then WritePower(a, value)
    else a
  }
}
