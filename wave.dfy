/**
 * The `WaveChannel` object of `WaveChannel.js`: its fields and its
 * sixteen-byte wave table, and methods that update them the way the
 * source does, each proved to reach the state the functions of
 * `WaveSpec` give.
 */
module WaveUnit {
  import opened Bits
  import opened Sound
  import opened WaveSpec

  class WaveChannel {
    var enabled: bool
    var dacEnabled: bool
    var lengthLoad: int
    var lengthCounter: int
    var volumeCode: int
    var frequency: int
    var timer: int
    var lengthEnabled: bool
    var position: int
    /** The 32 four-bit samples, two to a byte. */
    const waveTable: array<byte>

    /** The fields and the table as one value. */
    function State(): Wave
      reads this, waveTable
    {
      Wave(enabled, dacEnabled, lengthLoad, lengthCounter, volumeCode, frequency, timer, lengthEnabled, position, waveTable[..])
    }

    predicate Valid()
      reads this, waveTable
    {
      waveTable.Length == 16 && State().Valid()
    }

    /** `new WaveChannel()`. */
    constructor ()
      ensures State() == Fresh() && Valid() && fresh(waveTable)
    {
      enabled, dacEnabled, lengthLoad, lengthCounter, volumeCode := false, false, 0, 0, 0;
      frequency, timer, lengthEnabled, position := 0, 0, false, 0;
      waveTable := new byte[16](_ => 0);
    }

    /** `trigger`. */
    method Trigger()
      requires Valid()
      modifies this
      ensures State() == WaveSpec.Trigger(old(State()))
    {
      if !dacEnabled {
        return;
      }
      ghost var s0 := State();
      enabled := true;
      lengthCounter := if lengthCounter == 0 then 256 else lengthCounter;
      assert State() == s0.(enabled := true, lengthCounter := if s0.lengthCounter == 0 then 256 else s0.lengthCounter);
      Restart();
    }

    /** The timer reloads and the position returns to the first nibble. */
    method Restart()
      requires 0 <= frequency <= 2047
      modifies this
      ensures State() == old(State()).(timer := Period(old(frequency)), position := 0)
    {
      ghost var s0 := State();
      timer, position := Period(frequency), 0;
      assert State() == s0.(timer := Period(s0.frequency), position := 0);
    }

    /** `clockLength`. */
    method ClockLength()
      requires Valid()
      modifies this
      ensures State() == WaveSpec.ClockLength(old(State()))
    {
      if lengthEnabled && lengthCounter > 0 {
        lengthCounter := lengthCounter - 1;
        if lengthCounter == 0 {
          enabled := false;
        }
      }
    }

    /** `clockTimer(cycles)`. */
    method ClockTimer(cycles: nat)
      requires Valid()
      modifies this
      ensures State() == WaveSpec.ClockTimer(old(State()), cycles)
    {
      if timer > 0 {
        timer := timer - cycles;
        if timer <= 0 {
          position := (position + 1) % 32;
          timer := timer + Period(frequency);
        }
      }
    }

    /** `getSample`. */
    method GetSample() returns (sample: int)
      requires Valid()
      ensures sample == Sample(State())
    {
      if !enabled || !dacEnabled {
        return 0;
      }
      var packed := waveTable[position / 2];
      var nibble := if position % 2 == 0 then packed >> 4 else packed & 0x0F;
      if volumeCode > 0 {
        sample := (nibble >> (volumeCode - 1)) as int;
      } else {
        sample := 0;
      }
    }

    /** `writeRegister(address, value)`. */
    method WriteRegister(address: int, value: byte)
      requires Valid()
      modifies this
      ensures State() == WaveSpec.WriteRegister(old(State()), address, value)
    {
      if address == 0xFF1A {
        WriteDac(value);
      } else if address == 0xFF1B {
        WriteLength(value);
      } else if address == 0xFF1C {
        ghost var s0 := State();
        volumeCode := ((value >> 5) & 0x03) as int;
        assert State() == s0.(volumeCode := ((value >> 5) & 0x03) as int);
      } else if address == 0xFF1D {
        ghost var s0 := State();
        frequency := FrequencyLow(frequency, value);
        assert State() == s0.(frequency := FrequencyLow(s0.frequency, value));
      } else if address == 0xFF1E {
        WriteControl(value);
      }
    }

    /** NR30. */
    method WriteDac(value: byte)
      requires Valid()
      modifies this
      ensures State() == WaveSpec.WriteDac(old(State()), value)
    {
      ghost var s0 := State();
      dacEnabled := value & 0x80 != 0;
      if !dacEnabled {
        enabled := false;
      }
      assert State() == WaveSpec.WriteDac(s0, value);
    }

    /** NR31: the length load, and the length counter reloaded from it. */
    method WriteLength(value: byte)
      modifies this
      ensures State() == old(State()).(lengthLoad := value as int, lengthCounter := 256 - value as int)
    {
      ghost var s0 := State();
      lengthLoad := value as int;
      lengthCounter := 256 - lengthLoad;
      assert State() == s0.(lengthLoad := value as int, lengthCounter := 256 - value as int);
    }

    /** NR34. */
    method WriteControl(value: byte)
      requires Valid()
      modifies this
      ensures State() == WaveSpec.WriteControl(old(State()), value)
    {
      ghost var s0 := State();
      frequency := FrequencyHigh(frequency, value);
      lengthEnabled := value & 0x40 != 0;
      assert State() == s0.(frequency := FrequencyHigh(s0.frequency, value), lengthEnabled := value & 0x40 != 0);
      if value & 0x80 != 0 {
        Trigger();
      }
    }

    /** `writeWaveTable(offset, value)`. */
    method WriteWaveTable(offset: int, value: byte)
      requires Valid() && 0 <= offset < 16
      modifies waveTable
      ensures State() == WaveSpec.WriteWaveTable(old(State()), offset, value)
    {
      waveTable[offset] := value;
    }
  }
}
