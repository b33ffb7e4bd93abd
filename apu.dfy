/**
 * The `AudioProcessingUnit` object of `apu.js`: the power switch, the
 * NR50 volumes, the frame sequencer counters and the four channel objects,
 * with NR51 kept in the memory unit's array. Each method updates the
 * fields the way the source does and is proved to reach the state the
 * functions of `AudioSpec` give.
 */
module AudioUnit {
  import opened Bits
  import opened AudioSpec
  import PulseSpec
  import WaveSpec
  import NoiseSpec
  import PulseUnit
  import WaveUnit
  import NoiseUnit

  class AudioProcessingUnit {
    /** The memory unit's 64 KiB array: NR51 is stored at 0xFF25 in it. */
    const memory: array<byte>
    /** Whether the audio output node (`workletNode`) exists; `step` does nothing without it. */
    var outputAttached: bool
    var soundEnabled: bool
    var channel1: PulseUnit.PulseChannel
    var channel2: PulseUnit.PulseChannel
    var channel3: WaveUnit.WaveChannel
    var channel4: NoiseUnit.NoiseChannel
    var vinLeft: bool
    var vinRight: bool
    var leftVolume: int
    var rightVolume: int
    var apuClock: int
    var frameSequencerClock: int
    var frameSequencerStep: int

    /** The fields, the channels' states and NR51 as one value. */
    function State(): Audio
      reads this, channel1, channel2, channel3, channel3.waveTable, channel4, memory
      requires memory.Length == 0x10000
    {
      Audio(soundEnabled, outputAttached, vinLeft, vinRight, leftVolume, rightVolume,
            apuClock, frameSequencerClock, frameSequencerStep,
            channel1.State(), channel2.State(), channel3.State(), channel4.State(), memory[0xFF25])
    }

    /** The two pulse channels are distinct objects and the wave table is not the memory array. */
    predicate Valid()
      reads this, channel1, channel2, channel3, channel3.waveTable, channel4, memory
    {
      && memory.Length == 0x10000
      && channel1 != channel2 && channel3.waveTable != memory
      && channel1.Valid() && channel2.Valid() && channel3.Valid() && channel4.Valid()
      && State().Valid()
    }

    /** `new AudioProcessingUnit(mmu)`. */
    constructor (memory: array<byte>)
      requires memory.Length == 0x10000
      ensures this.memory == memory && Valid() && State() == Initial(memory[0xFF25])
      ensures fresh(channel1) && fresh(channel2) && fresh(channel3) && fresh(channel3.waveTable) && fresh(channel4)
    {
      this.memory := memory;
      outputAttached, soundEnabled := false, false;
      channel1 := new PulseUnit.PulseChannel(true);
      channel2 := new PulseUnit.PulseChannel(false);
      channel3 := new WaveUnit.WaveChannel();
      channel4 := new NoiseUnit.NoiseChannel();
      vinLeft, vinRight, leftVolume, rightVolume := false, false, 7, 7;
      apuClock, frameSequencerClock, frameSequencerStep := 0, 0, 0;
    }

    /** The output node becomes available, as `initAudio` arranges once its audio graph is built. */
    method ConnectOutput()
      requires Valid()
      modifies this
      ensures Valid() && State() == old(State()).(outputAttached := true)
    {
      outputAttached := true;
    }

    /** `step(cycles)` without the sample mixing. */
    method Step(cycles: nat)
      requires Valid()
      modifies this, channel1, channel2, channel3, channel4
      ensures Valid() && State() == AudioSpec.Step(old(State()), cycles)
      ensures channel1 == old(channel1) && channel2 == old(channel2) && channel3 == old(channel3) && channel4 == old(channel4)
    {
      if !soundEnabled || !outputAttached {
        return;
      }
      AdvanceClocks(cycles);
      SequencerTick();
      ClockTimers(cycles);
    }

    /** Once its clock reaches 8192 the sequencer clock drops by 8192 and the sequencer is clocked. */
    method SequencerTick()
      requires Valid()
      modifies this, channel1, channel2, channel3, channel4
      ensures Valid() && State() == AudioSpec.SequencerTick(old(State()))
      ensures channel1 == old(channel1) && channel2 == old(channel2) && channel3 == old(channel3) && channel4 == old(channel4)
    {
      if frameSequencerClock >= SEQUENCER_PERIOD {
        RewindSequencerClock();
        ClockFrameSequencer();
      }
    }

    /** `apuClock` and `frameSequencerClock` advance by `cycles`. */
    method AdvanceClocks(cycles: nat)
      requires Valid()
      modifies this
      ensures Valid() && State() == Advance(old(State()), cycles)
      ensures channel1 == old(channel1) && channel2 == old(channel2) && channel3 == old(channel3) && channel4 == old(channel4)
    {
      apuClock := apuClock + cycles;
      frameSequencerClock := frameSequencerClock + cycles;
    }

    /** The frame sequencer clock drops by one period. */
    method RewindSequencerClock()
      requires Valid() && frameSequencerClock >= SEQUENCER_PERIOD
      modifies this
      ensures Valid() && State() == Rewind(old(State()))
      ensures channel1 == old(channel1) && channel2 == old(channel2) && channel3 == old(channel3) && channel4 == old(channel4)
    {
      frameSequencerClock := frameSequencerClock - SEQUENCER_PERIOD;
    }

    /** The four `clockTimer(cycles)` calls of `step`. */
    method ClockTimers(cycles: nat)
      requires Valid()
      modifies channel1, channel2, channel3, channel4
      ensures Valid() && State() == AudioSpec.ClockTimers(old(State()), cycles)
    {
      channel1.ClockTimer(cycles);
      channel2.ClockTimer(cycles);
      channel3.ClockTimer(cycles);
      channel4.ClockTimer(cycles);
    }

    /** `clockFrameSequencer`. */
    method ClockFrameSequencer()
      requires Valid()
      modifies this, channel1, channel2, channel3, channel4
      ensures Valid() && State() == AudioSpec.ClockFrameSequencer(old(State()))
      ensures channel1 == old(channel1) && channel2 == old(channel2) && channel3 == old(channel3) && channel4 == old(channel4)
    {
      LengthTick();
      SweepTick();
      EnvelopeTick();
      AdvanceStep();
    }

    /** The lengths are clocked on the even steps. */
    method LengthTick()
      requires Valid()
      modifies channel1, channel2, channel3, channel4
      ensures Valid() && State() == LengthPhase(old(State()))
    {
      if frameSequencerStep % 2 == 0 {
        ClockLengths();
      }
    }

    /** Channel 1's sweep is clocked on steps 2 and 6. */
    method SweepTick()
      requires Valid()
      modifies channel1
      ensures Valid() && State() == SweepPhase(old(State()))
    {
      if frameSequencerStep == 2 || frameSequencerStep == 6 {
        ClockSweep();
      }
    }

    /** The envelopes are clocked on step 7. */
    method EnvelopeTick()
      requires Valid()
      modifies channel1, channel2, channel4
      ensures Valid() && State() == EnvelopePhase(old(State()))
    {
      if frameSequencerStep == 7 {
        ClockEnvelopes();
      }
    }

    /** The sequencer moves to the next of its eight steps. */
    method AdvanceStep()
      requires Valid()
      modifies this
      ensures Valid() && State() == old(State()).(sequencerStep := (old(frameSequencerStep) + 1) % 8)
      ensures channel1 == old(channel1) && channel2 == old(channel2) && channel3 == old(channel3) && channel4 == old(channel4)
    {
      frameSequencerStep := (frameSequencerStep + 1) % 8;
    }

    /** Channel 1's sweep is clocked. */
    method ClockSweep()
      requires Valid()
      modifies channel1
      ensures Valid() && State() == old(State()).(channel1 := PulseSpec.ClockSweep(old(channel1.State())))
    {
      channel1.ClockSweep();
    }

    /** The length counters of the four channels are clocked. */
    method ClockLengths()
      requires Valid()
      modifies channel1, channel2, channel3, channel4
      ensures Valid() && State() == AudioSpec.ClockLengths(old(State()))
    {
      channel1.ClockLength();
      channel2.ClockLength();
      channel3.ClockLength();
      channel4.ClockLength();
    }

    /** The envelopes of channels 1, 2 and 4 are clocked. */
    method ClockEnvelopes()
      requires Valid()
      modifies channel1, channel2, channel4
      ensures Valid() && State() == AudioSpec.ClockEnvelopes(old(State()))
    {
      channel1.ClockEnvelope();
      channel2.ClockEnvelope();
      channel4.ClockEnvelope();
    }

    /** `readRegister(address)` for every address whose read the source can answer. */
    method ReadRegister(address: int) returns (r: int)
      requires Valid() && !ChannelReadMissing(address)
      ensures r == AudioSpec.ReadRegister(State(), address)
    {
      if 0xFF20 <= address <= 0xFF23 {
        r := channel4.ReadRegister(address);
      } else if address == 0xFF24 {
        r := (if vinLeft then 0x80 else 0) + 16 * leftVolume + (if vinRight then 0x08 else 0) + rightVolume;
      } else if address == 0xFF25 {
        r := memory[0xFF25] as int;
      } else if address == 0xFF26 {
        r := ReadStatus();
      } else if 0xFF30 <= address <= 0xFF3F {
        r := channel3.waveTable[address - 0xFF30] as int;
      } else {
        r := 0xFF;
      }
    }

    /** NR52 as `readRegister` assembles it, one channel flag at a time. */
    method ReadStatus() returns (status: int)
      requires Valid()
      ensures status == PowerStatus(State())
    {
      status := (if soundEnabled then 0x80 else 0) + 0x70;
      if channel1.enabled {
        status := status + 0x01;
      }
      if channel2.enabled {
        status := status + 0x02;
      }
      if channel3.enabled {
        status := status + 0x04;
      }
      if channel4.enabled {
        status := status + 0x08;
      }
    }

    /** `writeRegister(address, value)`. */
    method WriteRegister(address: int, value: byte)
      requires Valid()
      modifies this, channel1, channel2, channel3, channel3.waveTable, channel4, memory
      ensures Valid() && State() == AudioSpec.WriteRegister(old(State()), address, value)
      ensures address != 0xFF26 ==>
        channel1 == old(channel1) && channel2 == old(channel2) && channel3 == old(channel3) && channel4 == old(channel4)
      decreases if address == 0xFF26 then 3 else 0
    {
      if !soundEnabled && address != 0xFF26 {
        return;
      }
      if ChannelAddress(address) {
        WriteChannel(address, value);
      } else if address == 0xFF24 {
        WriteMasterVolume(value);
      } else if address == 0xFF25 {
        WriteNr51(value);
      } else if address == 0xFF26 {
        WritePower(value);
      }
    }

    /** The routing of `writeRegister` to the channel objects. */
    method WriteChannel(address: int, value: byte)
      requires Valid() && ChannelAddress(address)
      modifies channel1, channel2, channel3, channel3.waveTable, channel4
      ensures Valid() && State() == AudioSpec.WriteChannel(old(State()), address, value)
    {
      if 0xFF10 <= address <= 0xFF19 {
        WritePulse(address, value);
      } else if 0xFF1A <= address <= 0xFF1E {
        channel3.WriteRegister(address, value);
      } else if 0xFF20 <= address <= 0xFF23 {
        channel4.WriteRegister(address, value);
      } else {
        channel3.WriteWaveTable(address - 0xFF30, value);
      }
    }

    /** The routing to the two pulse channels. */
    method WritePulse(address: int, value: byte)
      requires Valid() && (0xFF10 <= address <= 0xFF14 || 0xFF16 <= address <= 0xFF19)
      modifies channel1, channel2
      ensures Valid() && State() == AudioSpec.WriteChannel(old(State()), address, value)
    {
      if address <= 0xFF14 {
        channel1.WriteRegister(address, value);
      } else {
        channel2.WriteRegister(address, value);
      }
    }

    /** NR50. */
    method WriteMasterVolume(value: byte)
      requires Valid()
      modifies this
      ensures Valid() && State() == AudioSpec.WriteMasterVolume(old(State()), value)
      ensures channel1 == old(channel1) && channel2 == old(channel2) && channel3 == old(channel3) && channel4 == old(channel4)
    {
      WriteVin(value & 0x80 != 0, value & 0x08 != 0);
      WriteVolumes(((value >> 4) & 0x07) as int, (value & 0x07) as int);
    }

    /** The two Vin bits of NR50. */
    method WriteVin(left: bool, right: bool)
      requires Valid()
      modifies this
      ensures Valid() && State() == old(State()).(vinLeft := left, vinRight := right)
      ensures channel1 == old(channel1) && channel2 == old(channel2) && channel3 == old(channel3) && channel4 == old(channel4)
    {
      vinLeft, vinRight := left, right;
    }

    /** The two volumes of NR50. */
    method WriteVolumes(left: int, right: int)
      requires Valid() && 0 <= left <= 7 && 0 <= right <= 7
      modifies this
      ensures Valid() && State() == old(State()).(leftVolume := left, rightVolume := right)
      ensures channel1 == old(channel1) && channel2 == old(channel2) && channel3 == old(channel3) && channel4 == old(channel4)
    {
      leftVolume, rightVolume := left, right;
    }

    /** NR51 is stored in the memory unit's array. */
    method WriteNr51(value: byte)
      requires Valid()
      modifies memory
      ensures Valid() && State() == old(State()).(nr51 := value)
    {
      memory[0xFF25] := value;
    }

    /** NR52: power on resets the unit; power off writes 0 to 0xFF10-0xFF25, then switches off. */
    method WritePower(value: byte)
      requires Valid()
      modifies this, channel1, channel2, channel3, channel3.waveTable, channel4, memory
      ensures Valid() && State() == AudioSpec.WritePower(old(State()), value)
      decreases 2
    {
      var on := value & 0x80 != 0;
      if on && !soundEnabled {
        SwitchPower(true);
        Reset();
      } else if !on && soundEnabled {
        ClearRegisters();
        SwitchPower(false);
      } else {
        SwitchPower(on);
      }
    }

    /** The loop of the power-off branch: `writeRegister(i, 0)` for every address from 0xFF10 to 0xFF25. */
    method ClearRegisters()
      requires Valid()
      modifies this, channel1, channel2, channel3, channel3.waveTable, channel4, memory
      ensures Valid() && State() == AudioSpec.ClearRegisters(old(State()), 0xFF10)
      decreases 1
    {
      var i := 0xFF10;
      while i <= 0xFF25
        invariant 0xFF10 <= i <= 0xFF26 && Valid()
        invariant channel1 == old(channel1) && channel2 == old(channel2) && channel3 == old(channel3) && channel4 == old(channel4)
        invariant AudioSpec.ClearRegisters(State(), i) == AudioSpec.ClearRegisters(old(State()), 0xFF10)
      {
        if i != 0xFF26 {
          WriteRegister(i, 0);
        }
        i := i + 1;
      }
    }

    /** `soundEnabled` takes NR52 bit 7. */
    method SwitchPower(on: bool)
      requires Valid()
      modifies this
      ensures Valid() && State() == old(State()).(soundEnabled := on)
      ensures channel1 == old(channel1) && channel2 == old(channel2) && channel3 == old(channel3) && channel4 == old(channel4)
    {
      soundEnabled := on;
    }

    /** `reset`: the clocks and the sequencer step return to 0 and four new channels replace the old. */
    method Reset()
      requires Valid()
      modifies this
      ensures Valid() && State() == AudioSpec.Reset(old(State()))
      ensures fresh(channel1) && fresh(channel2) && fresh(channel3) && fresh(channel3.waveTable) && fresh(channel4)
    {
      ResetClocks();
      ReplaceChannel1();
      ReplaceChannel2();
      ReplaceWaveChannel();
      ReplaceNoiseChannel();
    }

    /** The three clocks return to 0. */
    method ResetClocks()
      requires Valid()
      modifies this
      ensures Valid() && State() == old(State()).(apuClock := 0, sequencerClock := 0, sequencerStep := 0)
      ensures channel1 == old(channel1) && channel2 == old(channel2) && channel3 == old(channel3) && channel4 == old(channel4)
    {
      apuClock, frameSequencerClock, frameSequencerStep := 0, 0, 0;
    }

    /** `new PulseChannel(true)`. */
    method ReplaceChannel1()
      requires Valid()
      modifies this
      ensures Valid() && State() == old(State()).(channel1 := PulseSpec.Fresh(true))
      ensures fresh(channel1) && channel2 == old(channel2) && channel3 == old(channel3) && channel4 == old(channel4)
    {
      channel1 := new PulseUnit.PulseChannel(true);
    }

    /** `new PulseChannel(false)`. */
    method ReplaceChannel2()
      requires Valid()
      modifies this
      ensures Valid() && State() == old(State()).(channel2 := PulseSpec.Fresh(false))
      ensures fresh(channel2) && channel1 == old(channel1) && channel3 == old(channel3) && channel4 == old(channel4)
    {
      channel2 := new PulseUnit.PulseChannel(false);
    }

    /** `new WaveChannel()`. */
    method ReplaceWaveChannel()
      requires Valid()
      modifies this
      ensures Valid() && State() == old(State()).(channel3 := WaveSpec.Fresh())
      ensures fresh(channel3) && fresh(channel3.waveTable)
      ensures channel1 == old(channel1) && channel2 == old(channel2) && channel4 == old(channel4)
    {
      channel3 := new WaveUnit.WaveChannel();
    }

    /** `new NoiseChannel()`. */
    method ReplaceNoiseChannel()
      requires Valid()
      modifies this
      ensures Valid() && State() == old(State()).(channel4 := NoiseSpec.Fresh())
      ensures fresh(channel4) && channel1 == old(channel1) && channel2 == old(channel2) && channel3 == old(channel3)
    {
      channel4 := new NoiseUnit.NoiseChannel();
    }
  }
}
