/**
 * Properties of the memory unit's specification: what a write lets a
 * later read see, the cartridge controller's bank switching, the
 * external-RAM gate, the timer arithmetic, the OAM DMA copy and the
 * power-up state.
 */
module MemoryFacts {
  import opened Bits
  import opened MemoryUnit

  /**
   * An address whose byte `write8bits` stores and `read8bits` returns as
   * it is: video RAM, work RAM, OAM, I/O and high RAM, except the joypad
   * register, DIV and the DMA register.
   */
  predicate PlainAddress(a: word)
  {
    (0x8000 <= a < 0xA000 || 0xC000 <= a) && a != JOYPAD_ADDRESS && a != DIV_ADDRESS && a != DMA_ADDRESS
  }

  /** A plain write changes the one byte of `memory` and at most the timer counter. */
  lemma PlainWriteEffect(s: MemState, a: word, v: byte)
    requires s.Valid() && PlainAddress(a)
    ensures s.Write(a, v) == s.(memory := s.memory[a as int := v], timerCounter := s.Write(a, v).timerCounter)
  {
  }

  /** Reading a plain address right after writing it returns the value written. */
  lemma WriteThenRead(s: MemState, a: word, v: byte)
    requires s.Valid() && PlainAddress(a)
    ensures s.Write(a, v).Read(a) == v
  {
    PlainWriteEffect(s, a, v);
  }

  /** A plain write leaves every read of another address unchanged. */
  lemma WriteElsewhere(s: MemState, a: word, b: word, v: byte)
    requires s.Valid() && PlainAddress(a) && b != a
    ensures s.Write(a, v).Read(b) == s.Read(b)
  {
    PlainWriteEffect(s, a, v);
    WordIndexInjective(a, b);
    ReadFrame(s, s.Write(a, v), b);
  }

  /** `read16bits` after `write16bits` at two plain addresses returns the word written. */
  lemma Write16ThenRead16(s: MemState, a: word, w: word)
    requires s.Valid() && PlainAddress(a) && PlainAddress(a + 1)
    ensures s.Write16(a, w).Read16(a) == w
  {
    var s1 := s.Write(a, LowByte(w));
    var s2 := s1.Write(a + 1, HighByte(w));
    WriteThenRead(s, a, LowByte(w));
    WriteElsewhere(s1, a + 1, a, HighByte(w));
    WriteThenRead(s1, a + 1, HighByte(w));
    WordOfBytes(w);
  }

  /**
   * A write below 0x8000 sets one controller register (RAM enable from
   * the low nibble, a 5-bit ROM bank with 0 read as 1, a 2-bit RAM bank,
   * a 1-bit mode) and leaves memory, the ROM and the RAM banks alone.
   */
  lemma ControlWriteEffect(s: MemState, a: word, v: byte)
    requires s.Valid() && a < 0x8000
    ensures var r := s.Write(a, v);
      && r.memory == s.memory && r.rom == s.rom && r.ramBanks == s.ramBanks
      && (a < 0x2000 ==> r == s.(externalRamEnabled := v & 0x0F == 0x0A))
      && (0x2000 <= a < 0x4000 ==> r == s.(romBankNumber := if v & 0x1F == 0 then 1 else v & 0x1F))
      && (0x4000 <= a < 0x6000 ==> r == s.(ramBankNumber := v & 0x03))
      && (0x6000 <= a ==> r == s.(mbc1Mode := v & 0x01))
  {
  }

  /** The cartridge controller ignores writes as ROM: reads of the fixed bank stay the ROM's bytes. */
  lemma RomIsReadOnly(s: MemState, a: word, b: word, v: byte)
    requires s.Valid() && s.rom.Some? && a < 0x8000 && b < 0x4000
    ensures s.Write(a, v).Read(b) == s.Read(b)
  {
  }

  /**
   * Writing `n` to 0x2000-0x3FFF selects ROM bank n & 0x1F (bank 0 selects
   * bank 1) for reads of 0x4000-0x7FFF while the upper bank bits are 0; a
   * read past the end of the ROM returns 0xFF.
   */
  lemma RomBankSwitch(s: MemState, wa: word, n: byte, a: word)
    requires s.Valid() && s.rom.Some? && s.ramBankNumber == 0
    requires 0x2000 <= wa < 0x4000 && 0x4000 <= a < 0x8000
    ensures var bank := if n & 0x1F == 0 then 1 else n & 0x1F;
            var i := bank as int * 0x4000 + (a as int - 0x4000);
            s.Write(wa, n).Read(a) == if i < |s.rom.value| then s.rom.value[i] else 0xFF
  {
  }

  /** While external RAM is disabled its reads return 0xFF and its writes are ignored. */
  lemma ExternalRamDisabled(s: MemState, a: word, v: byte)
    requires s.Valid() && !s.externalRamEnabled && 0xA000 <= a < 0xC000
    ensures s.Read(a) == 0xFF
    ensures s.Write(a, v) == s
  {
  }

  /** After writing 0x0A to 0x0000-0x1FFF, external RAM keeps what is written to it. */
  lemma ExternalRamRoundTrip(s: MemState, enable: word, a: word, v: byte)
    requires s.Valid() && enable < 0x2000 && 0xA000 <= a < 0xC000
    ensures s.Write(enable, 0x0A).externalRamEnabled
    ensures s.Write(enable, 0x0A).Write(a, v).Read(a) == v
  {
  }

  /**
   * A DIV write clears DIV and its counter whatever the value; TIMA, TMA
   * and TAC store the value, and only the TAC write clears the timer
   * counter.
   */
  lemma TimerRegisterWrites(s: MemState, v: byte)
    requires s.Valid()
    ensures s.Write(DIV_ADDRESS, v) == s.(memory := s.memory[DIV := 0], divCounter := 0)
    ensures s.Write(TAC_ADDRESS, v) == s.(memory := s.memory[TAC := v], timerCounter := 0)
    ensures s.Write(TIMA_ADDRESS, v) == s.(memory := s.memory[TIMA := v])
    ensures s.Write(TMA_ADDRESS, v) == s.(memory := s.memory[TMA := v])
  {
  }

  /** With TAC bit 2 clear the timer only clears its counter. */
  lemma TimerStopped(s: MemState, cycles: nat)
    requires s.Valid() && s.memory[TAC] & 0x04 == 0
    ensures s.StepTimer(cycles) == s.(timerCounter := 0)
  {
  }

  /**
   * DIV counts the whole 256-cycle periods of the 16-bit DIV counter plus
   * `cycles`, modulo 256, and the counter keeps the remainder.
   */
  lemma DivCount(s: MemState, cycles: nat)
    requires s.Valid()
    ensures var total := (s.divCounter + cycles) % 0x10000;
            s.StepDiv(cycles).memory[DIV] as int == (s.memory[DIV] as int + total / 256) % 256
            && s.StepDiv(cycles).divCounter == total % 256
  {
    DivTicksCount(s.memory[DIV], (s.divCounter + cycles) % 0x10000);
  }

  /**
   * Without an overflow, `k` whole periods (plus a remainder below one
   * period) add `k` to TIMA, leave IF alone and keep the remainder.
   */
  lemma {:induction false} TimaTicksCount(tima: byte, tma: byte, iflag: byte, k: nat, rest: nat, period: int)
    requires period > 0 && rest < period && tima as int + k <= 0xFF
    ensures var t := TimaTicks(tima, tma, iflag, k * period + rest, period);
            t.tima as int == tima as int + k && t.iflag == iflag && t.counter == rest
    decreases k
  {
    if k > 0 {
      assert k * period + rest - period == (k - 1) * period + rest;
      ByteSuccessor(tima);
      TimaTicksCount(tima + 1, tma, iflag, k - 1, rest, period);
    }
  }

  /**
   * A TIMA tick from 0xFF reloads TMA and requests the timer interrupt
   * (bit 2 of IF); the bit stays set through the later ticks.
   */
  lemma TimaOverflow(tma: byte, iflag: byte, rest: nat, period: int)
    requires period > 0 && rest < period
    ensures var t := TimaTicks(0xFF, tma, iflag, period + rest, period);
            t.tima == tma && t.iflag == iflag | 4 && t.counter == rest
  {
  }

  /**
   * `step` with the timer enabled: `k` whole periods without overflow add
   * `k` to TIMA and leave the interrupt flags alone.
   */
  lemma TimerCount(s: MemState, cycles: nat, k: nat, rest: nat)
    requires s.Valid() && s.memory[TAC] & 0x04 != 0
    requires rest < TimerPeriod(s.memory[TAC]) && s.timerCounter + cycles == k * TimerPeriod(s.memory[TAC]) + rest
    requires s.memory[TIMA] as int + k <= 0xFF
    ensures s.StepTimer(cycles).memory[TIMA] as int == s.memory[TIMA] as int + k
    ensures s.StepTimer(cycles).InterruptFlags() == s.InterruptFlags()
    ensures s.StepTimer(cycles).timerCounter == rest
  {
    TimaTicksCount(s.memory[TIMA], s.memory[TMA], s.memory[IF], k, rest, TimerPeriod(s.memory[TAC]));
  }

  /**
   * `step` with the timer enabled and TIMA at 0xFF: once a full period
   * has elapsed TIMA holds TMA and the timer interrupt is requested.
   */
  lemma TimerInterrupt(s: MemState, cycles: nat)
    requires s.Valid() && s.memory[TAC] & 0x04 != 0 && s.memory[TIMA] == 0xFF
    requires TimerPeriod(s.memory[TAC]) <= s.timerCounter + cycles < 2 * TimerPeriod(s.memory[TAC])
    ensures s.StepTimer(cycles).memory[TIMA] == s.memory[TMA]
    ensures TestBit(s.StepTimer(cycles).InterruptFlags(), 2)
  {
    var period := TimerPeriod(s.memory[TAC]);
    TimaOverflow(s.memory[TMA], s.memory[IF], s.timerCounter + cycles - period, period);
  }

  /**
   * The first `count` OAM bytes of `OamStore` hold `data`; every other
   * byte is the byte of `m`.
   */
  lemma {:induction false} OamStoreContents(m: seq<byte>, data: seq<byte>, count: byte, k: byte, i: int)
    requires |m| == 0x10000 && |data| == 160 && count <= 160 && 0 <= i < 0x10000
    ensures k < count ==> OamStore(m, data, count)[0xFE00 + k as int] == data[k as int]
    ensures (i < 0xFE00 || i >= 0xFE00 + count as int) ==> OamStore(m, data, count)[i] == m[i]
    decreases count as int
  {
    if count != 0 {
      OamStoreContents(m, data, count - 1, k, i);
      ByteSuccessor(count - 1);
    }
  }

  /**
   * A write to the DMA register copies the 160 bytes read at `page` *
   * 0x100 onwards into OAM (0xFE00-0xFE9F) and leaves the rest of memory
   * unchanged.
   */
  lemma DmaCopy(s: MemState, page: byte, k: byte, i: int)
    requires s.Valid() && k < 160 && 0 <= i < 0x10000 && !(0xFE00 <= i < 0xFEA0)
    ensures s.Write(DMA_ADDRESS, page).memory[0xFE00 + k as int] == s.Read(Word(page, k))
    ensures s.Write(DMA_ADDRESS, page).memory[i] == s.memory[i]
  {
    OamStoreContents(s.memory, s.DmaSource(page), 160, k, i);
    ByteIndexRoundTrip(k);
  }

  /**
   * After `initializeRomBanks` the fixed bank reads the ROM, bank 1 is
   * mapped at 0x4000-0x7FFF, external RAM is disabled and the LCD control
   * and status registers hold their power-up values.
   */
  lemma PowerUp(s: MemState, romData: seq<byte>, a: word)
    requires s.Valid() && |romData| >= 0x4000
    ensures var r := s.InitializeRomBanks(romData);
            r.CurrentRomBank() == 1 && !r.externalRamEnabled
            && (a < 0x4000 ==> r.Read(a) == romData[a as int])
            && (0x4000 <= a < 0x8000 ==> r.Read(a) == if (a as int) < |romData| then romData[a as int] else 0xFF)
            && (0xA000 <= a < 0xC000 ==> r.Read(a) == 0xFF)
            && r.memory[0xFF40] == 0x91 && r.memory[0xFF41] == 0x85 && r.memory[0xFF26] == 0xF1
  {
  }
}
