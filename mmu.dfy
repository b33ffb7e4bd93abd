/**
 * The memory management unit: a 64 KiB address space backed by one byte
 * array, an MBC1-style cartridge controller (ROM bank, RAM bank, banking
 * mode, RAM enable) with banked ROM and external RAM, the DIV and TIMA
 * timers, the OAM DMA copy and the interrupt-request register 0xFF0F.
 *
 * `MemState` is the value the unit's fields hold at one moment; its
 * member functions are the specification of the reads and of every
 * state change. The class `MemoryManagementUnit` holds the same state in
 * arrays and fields and updates it in place.
 */
module MemoryUnit {
  import opened Bits
  import opened JoypadInput

  /** Indices of the timer and interrupt registers in the memory array. */
  const DIV := 0xFF04
  const TIMA := 0xFF05
  const TMA := 0xFF06
  const TAC := 0xFF07
  const IF := 0xFF0F

  const IF_ADDRESS: word := 0xFF0F
  const DIV_ADDRESS: word := 0xFF04
  const TIMA_ADDRESS: word := 0xFF05
  const TMA_ADDRESS: word := 0xFF06
  const TAC_ADDRESS: word := 0xFF07
  const DMA_ADDRESS: word := 0xFF46
  const JOYPAD_ADDRESS: word := 0xFF00

  /** Cycles per TIMA increment for TAC input select 0, 1, 2 and 3. */
  function TimerPeriod(tac: byte): (period: int)
    ensures period in {16, 64, 256, 1024}
  {
    [1024, 16, 64, 256][(tac & 3) as int]
  }

  /** Power-up values of the timer registers (source order: TIMA, TMA, TAC, DIV), stored over `m`. */
  function TimerDefaults(m: seq<byte>): (r: seq<byte>)
    requires |m| == 0x10000
    ensures |r| == 0x10000
  {
    m[0xFF05 := 0x00][0xFF06 := 0x00][0xFF07 := 0x00][0xFF04 := 0x00]
  }

  /** Power-up values of the sound registers NR10-NR52, stored over `m`. */
  function SoundDefaults(m: seq<byte>): (r: seq<byte>)
    requires |m| == 0x10000
    ensures |r| == 0x10000
  {
    m[0xFF10 := 0x80][0xFF11 := 0xBF][0xFF12 := 0xF3][0xFF14 := 0xBF][0xFF16 := 0x3F][0xFF17 := 0x00]
     [0xFF19 := 0xBF][0xFF1A := 0x7F][0xFF1B := 0xFF][0xFF1C := 0x9F][0xFF1E := 0xBF][0xFF20 := 0xFF]
     [0xFF21 := 0x00][0xFF22 := 0x00][0xFF23 := 0xBF][0xFF24 := 0x77][0xFF25 := 0xF3][0xFF26 := 0xF1]
  }

  /** Power-up values of the LCD registers and IE, stored over `m`. */
  function VideoDefaults(m: seq<byte>): (r: seq<byte>)
    requires |m| == 0x10000
    ensures |r| == 0x10000
  {
    m[0xFF40 := 0x91][0xFF41 := 0x85][0xFF42 := 0x00][0xFF43 := 0x00][0xFF45 := 0x00][0xFF47 := 0xFC]
     [0xFF48 := 0xFF][0xFF49 := 0xFF][0xFF4A := 0x00][0xFF4B := 0x00][0xFFFF := 0x00]
  }

  /** What the DIV loop leaves: the new DIV value and the new `divCounter`. */
  datatype DivOut = DivOut(div: byte, counter: int)

  /** What the TIMA loop leaves: TIMA, the IF register and `timerCounter`. */
  datatype TimaOut = TimaOut(tima: byte, iflag: byte, counter: int)

  /**
   * The DIV loop: while the counter holds 256 cycles, take them off and
   * increment DIV modulo 256.
   */
  function DivTicks(div: byte, counter: nat): (r: DivOut)
    ensures 0 <= r.counter < 256
    decreases counter
  {
    if counter >= 256 then DivTicks(div + 1, counter - 256) else DivOut(div, counter)
  }

  /** Taking 256 off a counter lowers its quotient by 256 by one and keeps the remainder. */
  lemma PeriodOff256(n: int)
    requires n >= 256
    ensures (n - 256) / 256 == n / 256 - 1
    ensures (n - 256) % 256 == n % 256
  {
  }

  /** Reducing the left operand of a sum modulo 256 first does not change the sum modulo 256. */
  lemma AddModulo256(a: int, b: int)
    ensures (a % 256 + b) % 256 == (a + b) % 256
  {
  }

  /** The DIV loop counts whole 256-cycle periods into DIV modulo 256 and keeps the rest. */
  lemma {:induction false} DivTicksCount(div: byte, counter: nat)
    ensures DivTicks(div, counter).counter == counter % 256
    ensures DivTicks(div, counter).div as int == (div as int + counter / 256) % 256
    decreases counter
  {
    if counter >= 256 {
      DivTicksCount(div + 1, counter - 256);
      ByteSuccessor(div);
      PeriodOff256(counter);
      AddModulo256(div as int + 1, counter / 256 - 1);
    }
  }

  /**
   * The TIMA loop: while the counter holds a full period, take it off and
   * tick TIMA; a tick from 0xFF reloads TMA and requests interrupt 2.
   */
  function TimaTicks(tima: byte, tma: byte, iflag: byte, counter: nat, period: int): (r: TimaOut)
    requires period > 0
    ensures 0 <= r.counter < period
    ensures r.iflag == iflag || r.iflag == iflag | 4
    decreases counter
  {
    if counter < period then TimaOut(tima, iflag, counter)
    else if tima == 0xFF then TimaTicks(tma, tma, iflag | 4, counter - period, period)
    else TimaTicks(tima + 1, tma, iflag, counter - period, period)
  }

  datatype MemState = MemState(
    memory: seq<byte>,
    rom: Option<seq<byte>>,
    romBankNumber: byte,
    ramBankNumber: byte,
    mbc1Mode: byte,
    externalRamEnabled: bool,
    ramBanks: seq<byte>,
    divCounter: int,
    timerCounter: int,
    joypadValue: byte)
  {
    /** Array sizes, register ranges and counter ranges that every operation keeps. */
    predicate Valid()
    {
      |memory| == 0x10000 && |ramBanks| == 0x8000
      && (rom.Some? ==> |rom.value| >= 0x4000)
      && 1 <= romBankNumber <= 0x1F && ramBankNumber <= 3 && mbc1Mode <= 1
      && 0 <= divCounter < 256 && timerCounter >= 0
    }

    /** The ROM bank mapped at 0x4000-0x7FFF. */
    function CurrentRomBank(): (bank: byte)
      requires Valid()
      ensures 1 <= bank <= 127
      ensures bank & 0x1F == romBankNumber
      ensures bank >> 5 == ramBankNumber
    {
      var upper := (if mbc1Mode == 0 then ramBankNumber else ramBankNumber & 3) << 5;
      var bank := (upper | romBankNumber) & 0x7F;
      if bank == 0 then 1 else bank
    }

    /** The external RAM bank mapped at 0xA000-0xBFFF. */
    function CurrentRamBank(): (bank: byte)
      requires Valid()
      ensures bank <= 3
      ensures mbc1Mode == 0 ==> bank == 0
      ensures mbc1Mode == 1 ==> bank == ramBankNumber
    {
      if mbc1Mode == 0 then 0 else ramBankNumber & 3
    }

    /** Offset into `ramBanks` of external-RAM address `address`. */
    function RamIndex(address: word): (i: int)
      requires Valid() && 0xA000 <= address < 0xC000
      ensures 0 <= i < 0x8000
    {
      var offset := (CurrentRamBank() as word) * 0x2000 + (address - 0xA000);
      (offset as bv15) as int
    }

    /** Offset into the ROM of switchable-bank address `address`. */
    function RomIndex(address: word): (i: int)
      requires Valid() && 0x4000 <= address < 0x8000
      ensures i == CurrentRomBank() as int * 0x4000 + (address as int - 0x4000)
      ensures i >= 0x4000
    {
      CurrentRomBank() as int * 0x4000 + (address - 0x4000) as int
    }

    /**
     * `read8bits`: P1 from the joypad, the fixed and the switchable ROM
     * bank while a cartridge is loaded (0xFF past the image's end),
     * external RAM while it is enabled (0xFF otherwise), and the memory
     * array everywhere else.
     */
    function Read(address: word): (v: byte)
      requires Valid()
      ensures address == JOYPAD_ADDRESS ==> v == joypadValue
      ensures address < 0x4000 && rom.Some? ==> v == rom.value[address as int]
      ensures 0x4000 <= address < 0x8000 && rom.Some? ==>
                v == (if RomIndex(address) < |rom.value| then rom.value[RomIndex(address)] else 0xFF)
      ensures 0xA000 <= address < 0xC000 ==>
                v == (if externalRamEnabled then ramBanks[RamIndex(address)] else 0xFF)
      ensures address != JOYPAD_ADDRESS && !(0xA000 <= address < 0xC000) && (rom.None? || address >= 0x8000) ==>
                v == memory[address as int]
    {
      if address == JOYPAD_ADDRESS then joypadValue
      else if address < 0x4000 then
        (match rom
         case Some(data) => data[address as int]
         case None => memory[address as int])
      else if address < 0x8000 then
        (match rom
         case None => memory[address as int]
         case Some(data) =>
           var index := RomIndex(address);
           if index < |data| then data[index] else 0xFF)
      else if 0xA000 <= address < 0xC000 then
        (if !externalRamEnabled then 0xFF else ramBanks[RamIndex(address)])
      else memory[address as int]
    }

    /** `read16bits`: little-endian, the second byte at the next address modulo 2^16. */
    function Read16(address: word): (w: word)
      requires Valid()
      ensures LowByte(w) == Read(address) && HighByte(w) == Read(address + 1)
    {
      Word(Read(address + 1), Read(address))
    }

    /** The 160 bytes an OAM DMA from page `page` copies: byte k is read at `page` * 0x100 + k. */
    function DmaSource(page: byte): (data: seq<byte>)
      requires Valid()
      ensures |data| == 160
    {
      seq(160, k requires 0 <= k < 160 => Read(Word(page, k as byte)))
    }

    /** Memory after an OAM DMA from page `page`. */
    function OamDma(page: byte): (m: seq<byte>)
      requires Valid()
      ensures |m| == 0x10000
    {
      OamStore(memory, DmaSource(page), 160)
    }

    /** `write8bits` for an address of the cartridge controller (below 0x8000). */
    function WriteControl(address: word, value: byte): (r: MemState)
      requires Valid() && address < 0x8000
      ensures r.Valid()
    {
      if address < 0x2000 then this.(externalRamEnabled := value & 0x0F == 0x0A)
      else if address < 0x4000 then
        this.(romBankNumber := if value & 0x1F == 0 then 1 else value & 0x1F)
      else if address < 0x6000 then this.(ramBankNumber := value & 3)
      else this.(mbc1Mode := value & 1)
    }

    /** `write8bits` for an external-RAM address: ignored while the RAM is disabled. */
    function WriteExternalRam(address: word, value: byte): (r: MemState)
      requires Valid() && 0xA000 <= address < 0xC000
      ensures r.Valid()
    {
      if !externalRamEnabled then this
      else this.(ramBanks := ramBanks[RamIndex(address) := value])
    }

    /**
     * `write8bits` for any other address: a DIV write clears DIV and the
     * DIV counter, a DMA write copies a page into OAM, a TAC write also
     * clears the timer counter; TIMA, TMA and every other address store
     * the value.
     */
    function WriteMemory(address: word, value: byte): (r: MemState)
      requires Valid()
      ensures r.Valid()
    {
      if address == DIV_ADDRESS then this.(memory := memory[DIV := 0], divCounter := 0)
      else if address == DMA_ADDRESS then this.(memory := OamDma(value))
      else if address == TAC_ADDRESS then this.(memory := memory[TAC := value], timerCounter := 0)
      else this.(memory := Store(address, value))
    }

    /** Memory with `value` stored at `address`. */
    function Store(address: word, value: byte): (m: seq<byte>)
      requires Valid()
      ensures |m| == 0x10000
    {
      memory[address as int := value]
    }

    /** `write8bits`. */
    function Write(address: word, value: byte): (r: MemState)
      requires Valid()
      ensures r.Valid()
    {
      if address < 0x8000 then WriteControl(address, value)
      else if 0xA000 <= address < 0xC000 then WriteExternalRam(address, value)
      else WriteMemory(address, value)
    }

    /** `write16bits`: low byte first, then the high byte at the next address modulo 2^16. */
    function Write16(address: word, value: word): (r: MemState)
      requires Valid()
      ensures r.Valid()
    {
      Write(address, LowByte(value)).Write(address + 1, HighByte(value))
    }

    /** The interrupt-request register IF (0xFF0F). */
    function InterruptFlags(): byte
      requires Valid()
    {
      memory[IF]
    }

    /** `requestInterrupt(bit)`: ORs bit `bit` into 0xFF0F. */
    function RequestInterrupt(bit: BitIndex): (r: MemState)
      requires Valid()
      ensures r.Valid()
      ensures TestBit(r.InterruptFlags(), bit)
      ensures forall j: BitIndex :: j != bit ==> (TestBit(r.InterruptFlags(), j) <==> TestBit(InterruptFlags(), j))
      ensures forall i :: 0 <= i < 0x10000 && i != IF ==> r.memory[i] == memory[i]
      ensures r == this.(memory := r.memory)
    {
      this.(memory := memory[IF := SetBit(memory[IF], bit)])
    }

    /** The DIV part of `step(cycles)`. */
    function StepDiv(cycles: nat): (r: MemState)
      requires Valid()
      ensures r.Valid()
    {
      var d := DivTicks(memory[DIV], (divCounter + cycles) % 0x10000);
      this.(memory := memory[DIV := d.div], divCounter := d.counter)
    }

    /** The TIMA part of `step(cycles)`: the TIMA loop when TAC bit 2 is set, else the timer reset. */
    function StepTimer(cycles: nat): (r: MemState)
      requires Valid()
      ensures r.Valid()
    {
      var tac := memory[TAC];
      if tac & 4 != 0 then
        var t := TimaTicks(memory[TIMA], memory[TMA],
                           memory[IF], timerCounter + cycles, TimerPeriod(tac));
        this.(memory := memory[TIMA := t.tima][IF := t.iflag],
              timerCounter := t.counter)
      else this.(timerCounter := 0)
    }

    /** `step(cycles)`: the DIV loop, then the TIMA loop or the timer reset. */
    function Step(cycles: nat): (r: MemState)
      requires Valid()
      ensures r.Valid()
    {
      StepDiv(cycles).StepTimer(cycles)
    }

    /** `initializeRomBanks`: the ROM, reset bank registers and the seeded address space. */
    function InitializeRomBanks(romData: seq<byte>): (r: MemState)
      requires Valid() && |romData| >= 0x4000
      ensures r.Valid()
    {
      this.(rom := Some(romData), romBankNumber := 1, ramBankNumber := 0, mbc1Mode := 0,
            externalRamEnabled := false, memory := PowerUpMemory(romData))
    }
  }

  /**
   * The address space after `initializeRomBanks`: the hardware register
   * defaults, the first min(|romData|, 0x8000) ROM bytes, and 0 elsewhere.
   */
  function PowerUpMemory(romData: seq<byte>): (m: seq<byte>)
    ensures |m| == 0x10000
  {
    VideoDefaults(SoundDefaults(TimerDefaults(RomImage(romData))))
  }

  /** Zeroed memory with the first 0x8000 bytes of the ROM copied in. */
  function RomImage(romData: seq<byte>): (m: seq<byte>)
    ensures |m| == 0x10000
  {
    var seedSize := if |romData| < 0x8000 then |romData| else 0x8000;
    seq(0x10000, i requires 0 <= i < 0x10000 => if i < seedSize then romData[i] else 0)
  }

  /** The state the constructor builds: zeroed arrays, no ROM, bank 1, timers at 0. */
  const InitialState := MemState(seq(0x10000, _ => 0), None, 1, 0, 0, false,
                                 seq(0x8000, _ => 0), 0, 0, 0xFF)

  /**
   * A read sees only the cartridge state, the joypad value and one byte of
   * `memory`: two states that differ only in `memory` and the two timer
   * counters, and agree on the byte at `address`, read the same value there.
   */
  lemma ReadFrame(s: MemState, t: MemState, address: word)
    requires s.Valid() && t.Valid()
    requires t == s.(memory := t.memory, divCounter := t.divCounter, timerCounter := t.timerCounter)
    requires s.memory[address as int] == t.memory[address as int]
    ensures t.Read(address) == s.Read(address)
  {
    if address < 0x4000 {
      ReadFrameFixedRom(s, t, address);
    } else if address < 0x8000 {
      ReadFrameBankedRom(s, t, address);
    } else if 0xA000 <= address < 0xC000 {
      ReadFrameExternalRam(s, t, address);
    } else {
      ReadFrameInternal(s, t, address);
    }
  }

  lemma ReadFrameFixedRom(s: MemState, t: MemState, address: word)
    requires s.Valid() && t.Valid()
    requires t == s.(memory := t.memory, divCounter := t.divCounter, timerCounter := t.timerCounter)
    requires s.memory[address as int] == t.memory[address as int]
    requires address < 0x4000
    ensures t.Read(address) == s.Read(address)
  {
  }

  lemma ReadFrameBankedRom(s: MemState, t: MemState, address: word)
    requires s.Valid() && t.Valid()
    requires t == s.(memory := t.memory, divCounter := t.divCounter, timerCounter := t.timerCounter)
    requires s.memory[address as int] == t.memory[address as int]
    requires 0x4000 <= address < 0x8000
    ensures t.Read(address) == s.Read(address)
  {
    assert t.rom == s.rom;
    assert t.CurrentRomBank() == s.CurrentRomBank();
    if s.rom.Some? {
      assert t.RomIndex(address) == s.RomIndex(address);
    }
  }

  lemma ReadFrameExternalRam(s: MemState, t: MemState, address: word)
    requires s.Valid() && t.Valid()
    requires t == s.(memory := t.memory, divCounter := t.divCounter, timerCounter := t.timerCounter)
    requires s.memory[address as int] == t.memory[address as int]
    requires 0xA000 <= address < 0xC000
    ensures t.Read(address) == s.Read(address)
  {
  }

  lemma ReadFrameInternal(s: MemState, t: MemState, address: word)
    requires s.Valid() && t.Valid()
    requires t == s.(memory := t.memory, divCounter := t.divCounter, timerCounter := t.timerCounter)
    requires s.memory[address as int] == t.memory[address as int]
    requires 0x8000 <= address < 0xA000 || 0xC000 <= address
    ensures t.Read(address) == s.Read(address)
  {
  }

  /** `m` with OAM bytes 0..count-1 (addresses 0xFE00 + k) replaced by `data[k]`. */
  function OamStore(m: seq<byte>, data: seq<byte>, count: byte): (r: seq<byte>)
    requires |m| == 0x10000 && |data| == 160 && count <= 160
    ensures |r| == 0x10000
    decreases count as int
  {
    if count == 0 then m
    else OamStore(m, data, count - 1)[0xFE00 + (count - 1) as int := data[(count - 1) as int]]
  }

  /** OAM byte `j` is not the source byte `i` of any page when `j` < `i`. */
  lemma OamDestinationDistinct(page: byte, i: byte, j: byte)
    requires j < i
    ensures 0xFE00 + j as int != Word(page, i) as int
  {
    var dest, source := Word(0xFE, j), Word(page, i);
    assert HighByte(dest) != HighByte(source) || LowByte(dest) != LowByte(source);
    WordIndexInjective(dest, source);
    PageIndex(j);
  }

  /**
   * The DMA source byte `i` of page `page` is not one of the OAM bytes
   * 0..i-1 written before it is read, so the copy reads the bytes of the
   * starting memory.
   */
  lemma {:induction false} DmaSourceUnwritten(m: seq<byte>, data: seq<byte>, page: byte, i: byte, count: byte)
    requires |m| == 0x10000 && |data| == 160 && count <= i < 160
    ensures OamStore(m, data, count)[Word(page, i) as int] == m[Word(page, i) as int]
    decreases count as int
  {
    if count != 0 {
      var previous := OamStore(m, data, count - 1);
      var destination := 0xFE00 + (count - 1) as int;
      DmaSourceUnwritten(m, data, page, i, count - 1);
      OamDestinationDistinct(page, i, count - 1);
      assert OamStore(m, data, count) == previous[destination := data[(count - 1) as int]];
    }
  }

  class MemoryManagementUnit {
    const memory: array<byte>
    const ramBanks: array<byte>
    const joypad: Joypad
    var rom: Option<seq<byte>>
    var romBankNumber: byte
    var ramBankNumber: byte
    var mbc1Mode: byte
    var externalRamEnabled: bool
    var divCounter: int
    var timerCounter: int

    /** The fields of the unit as one value. */
    function State(): MemState
      reads this, memory, ramBanks, joypad
    {
      MemState(memory[..], rom, romBankNumber, ramBankNumber, mbc1Mode, externalRamEnabled,
               ramBanks[..], divCounter, timerCounter, joypad.memoryValue)
    }

    ghost predicate Valid()
      reads this, memory, ramBanks, joypad
    {
      memory != ramBanks && joypad.memory == memory && State().Valid()
    }

    constructor ()
      ensures Valid() && State() == InitialState
      ensures fresh(memory) && fresh(ramBanks) && fresh(joypad)
    {
      var m := new byte[0x10000](_ => 0);
      memory := m;
      joypad := new Joypad(m);
      rom := None;
      romBankNumber := 1;
      ramBankNumber := 0;
      mbc1Mode := 0;
      externalRamEnabled := false;
      ramBanks := new byte[0x8000](_ => 0);
      divCounter := 0;
      timerCounter := 0;
    }

    /** `read8bits`; P1 is the value the joypad last computed. */
    function Read8(address: word): (v: byte)
      requires Valid()
      reads this, memory, ramBanks, joypad
      ensures v == State().Read(address)
      ensures address == JOYPAD_ADDRESS ==> v == joypad.Read()
    {
      State().Read(address)
    }

    method InitializeRomBanks(romData: seq<byte>)
      requires Valid() && |romData| >= 0x4000
      modifies this, memory
      ensures Valid()
      ensures State() == old(State()).InitializeRomBanks(romData)
    {
      rom := Some(romData);
      romBankNumber := 1;
      ramBankNumber := 0;
      mbc1Mode := 0;
      externalRamEnabled := false;
      LoadRomImage(romData);
      SeedTimerDefaults();
      SeedSoundDefaults();
      SeedVideoDefaults();
      assert memory[..] == PowerUpMemory(romData);
    }

    /** Clears memory and copies the first 0x8000 bytes of the ROM into it. */
    method LoadRomImage(romData: seq<byte>)
      requires memory.Length == 0x10000
      modifies memory
      ensures memory[..] == RomImage(romData)
    {
      ClearMemory();
      var seedSize := if |romData| < 0x8000 then |romData| else 0x8000;
      var i := 0;
      while i < seedSize
        invariant 0 <= i <= seedSize
        invariant forall j :: 0 <= j < 0x10000 ==> memory[j] == if j < i then romData[j] else 0
      {
        memory[i] := romData[i];
        i := i + 1;
      }
    }

    /** `memory.fill(0)`. */
    method ClearMemory()
      modifies memory
      ensures forall j :: 0 <= j < memory.Length ==> memory[j] == 0
    {
      var i := 0;
      while i < memory.Length
        invariant 0 <= i <= memory.Length
        invariant forall j :: 0 <= j < i ==> memory[j] == 0
      {
        memory[i] := 0;
        i := i + 1;
      }
    }

    /** Stores the power-up values of the timer registers (source order: TIMA, TMA, TAC, DIV). */
    method SeedTimerDefaults()
      requires memory.Length == 0x10000
      modifies memory
      ensures memory[..] == TimerDefaults(old(memory[..]))
    {
      memory[0xFF05] := 0x00;
      memory[0xFF06] := 0x00;
      memory[0xFF07] := 0x00;
      memory[0xFF04] := 0x00;
    }

    /** Stores the power-up values of the sound registers NR10-NR52. */
    method SeedSoundDefaults()
      requires memory.Length == 0x10000
      modifies memory
      ensures memory[..] == SoundDefaults(old(memory[..]))
    {
      memory[0xFF10] := 0x80;
      memory[0xFF11] := 0xBF;
      memory[0xFF12] := 0xF3;
      memory[0xFF14] := 0xBF;
      memory[0xFF16] := 0x3F;
      memory[0xFF17] := 0x00;
      memory[0xFF19] := 0xBF;
      memory[0xFF1A] := 0x7F;
      memory[0xFF1B] := 0xFF;
      memory[0xFF1C] := 0x9F;
      memory[0xFF1E] := 0xBF;
      memory[0xFF20] := 0xFF;
      memory[0xFF21] := 0x00;
      memory[0xFF22] := 0x00;
      memory[0xFF23] := 0xBF;
      memory[0xFF24] := 0x77;
      memory[0xFF25] := 0xF3;
      memory[0xFF26] := 0xF1;
    }

    /** Stores the power-up values of the LCD registers and IE. */
    method SeedVideoDefaults()
      requires memory.Length == 0x10000
      modifies memory
      ensures memory[..] == VideoDefaults(old(memory[..]))
    {
      memory[0xFF40] := 0x91;
      memory[0xFF41] := 0x85;
      memory[0xFF42] := 0x00;
      memory[0xFF43] := 0x00;
      memory[0xFF45] := 0x00;
      memory[0xFF47] := 0xFC;
      memory[0xFF48] := 0xFF;
      memory[0xFF49] := 0xFF;
      memory[0xFF4A] := 0x00;
      memory[0xFF4B] := 0x00;
      memory[0xFFFF] := 0x00;
    }

    /** `write8bits`. */
    method Write8(address: word, value: byte)
      requires Valid()
      modifies this, memory, ramBanks
      ensures Valid()
      ensures State() == old(State()).Write(address, value)
    {
      if address < 0x8000 {
        WriteControl(address, value);
      } else if 0xA000 <= address < 0xC000 {
        WriteExternalRam(address, value);
      } else {
        WriteMemory(address, value);
      }
    }

    /** The cartridge-controller branches of `write8bits`. */
    method WriteControl(address: word, value: byte)
      requires Valid() && address < 0x8000
      modifies this
      ensures Valid()
      ensures State() == old(State()).WriteControl(address, value)
    {
      if address < 0x2000 {
        externalRamEnabled := value & 0x0F == 0x0A;
      } else if address < 0x4000 {
        var bank := value & 0x1F;
        romBankNumber := if bank == 0 then 1 else bank;
      } else if address < 0x6000 {
        ramBankNumber := value & 0x03;
      } else {
        mbc1Mode := value & 0x01;
      }
    }

    /** The external-RAM branch of `write8bits`. */
    method WriteExternalRam(address: word, value: byte)
      requires Valid() && 0xA000 <= address < 0xC000
      modifies ramBanks
      ensures Valid()
      ensures State() == old(State()).WriteExternalRam(address, value)
    {
      if !externalRamEnabled {
        return;
      }
      ghost var s0 := State();
      var offset := State().RamIndex(address);
      ramBanks[offset] := value;
      assert ramBanks[..] == s0.ramBanks[offset := value];
      assert State() == s0.(ramBanks := ramBanks[..]);
    }

    /** The timer, DMA and plain-memory branches of `write8bits`. */
    method WriteMemory(address: word, value: byte)
      requires Valid()
      modifies this, memory
      ensures Valid()
      ensures State() == old(State()).WriteMemory(address, value)
    {
      if address == DIV_ADDRESS {
        memory[DIV] := 0;
        divCounter := 0;
      } else if address == TIMA_ADDRESS || address == TMA_ADDRESS || address == TAC_ADDRESS {
        StoreByte(address as int, value);
        if address == TAC_ADDRESS {
          timerCounter := 0;
        }
      } else if address == DMA_ADDRESS {
        OamDmaTransfer(value);
      } else {
        StoreByte(address as int, value);
      }
    }

    /** `memory[address] = value`. */
    method StoreByte(index: int, value: byte)
      requires Valid() && 0 <= index < 0x10000
      modifies memory
      ensures Valid()
      ensures State() == old(State()).(memory := old(State()).memory[index := value])
    {
      ghost var s0 := State();
      memory[index] := value;
      assert memory[..] == s0.memory[index := value];
    }

    /** The DMA loop of `write8bits`: copies 160 bytes from page `page` into OAM. */
    method OamDmaTransfer(page: byte)
      requires Valid()
      modifies memory
      ensures Valid()
      ensures State() == old(State()).(memory := old(State()).OamDma(page))
    {
      ghost var s0 := State();
      var i: byte := 0;
      while i < 160
        invariant i <= 160
        invariant Valid() && State() == s0.(memory := OamStore(s0.memory, s0.DmaSource(page), i))
        decreases 160 - i as int
      {
        DmaCopyByte(s0, page, i);
        i := i + 1;
      }
    }

    /** One iteration of the DMA loop: OAM byte `i` receives the byte at `page` * 0x100 + `i`. */
    method DmaCopyByte(ghost s0: MemState, page: byte, i: byte)
      requires Valid() && s0.Valid() && i < 160
      requires State() == s0.(memory := OamStore(s0.memory, s0.DmaSource(page), i))
      modifies memory
      ensures Valid() && State() == s0.(memory := OamStore(s0.memory, s0.DmaSource(page), i + 1))
    {
      var source := Word(page, i);
      DmaSourceUnwritten(s0.memory, s0.DmaSource(page), page, i, i);
      ReadFrame(s0, State(), source);
      ByteIndexRoundTrip(i);
      var data := Read8(source);
      StoreByte(0xFE00 + i as int, data);
    }

    /** `write16bits`. */
    method Write16(address: word, value: word)
      requires Valid()
      modifies this, memory, ramBanks
      ensures Valid()
      ensures State() == old(State()).Write16(address, value)
    {
      Write8(address, LowByte(value));
      Write8(address + 1, HighByte(value));
    }

    /** `requestInterrupt(bit)`. */
    method RequestInterrupt(bit: BitIndex)
      requires memory.Length == 0x10000
      modifies memory
      ensures memory[..] == old(memory[..])[IF := SetBit(old(memory[IF]), bit)]
      ensures old(Valid()) ==> Valid() && State() == old(State()).RequestInterrupt(bit)
    {
      memory[IF] := SetBit(memory[IF], bit);
    }

    /** `step(cycles)`: advances DIV and, when TAC enables it, TIMA. */
    method Step(cycles: nat)
      requires Valid()
      modifies this, memory
      ensures Valid()
      ensures State() == old(State()).Step(cycles)
    {
      StepDiv(cycles);
      StepTimer(cycles);
    }

    /** The DIV loop of `step`. */
    method StepDiv(cycles: nat)
      requires Valid()
      modifies this, memory
      ensures Valid()
      ensures State() == old(State()).StepDiv(cycles)
    {
      ghost var s0 := State();
      var counter := (divCounter + cycles) % 0x10000;
      ghost var d := DivTicks(memory[DIV], counter);
      while counter >= 256
        modifies memory
        invariant 0 <= counter && DivTicks(memory[DIV], counter) == d
        invariant memory[..] == s0.memory[DIV := memory[DIV]]
        decreases counter
      {
        counter := counter - 256;
        memory[DIV] := memory[DIV] + 1;
      }
      divCounter := counter;
    }

    /** One pass of the TIMA loop: increment TIMA, or on overflow reload TMA and request interrupt 2. */
    method TimaTick()
      requires memory.Length == 0x10000
      modifies memory
      ensures old(memory[TIMA]) == 0xFF ==> memory[TIMA] == old(memory[TMA]) && memory[IF] == old(memory[IF]) | 4
      ensures old(memory[TIMA]) != 0xFF ==> memory[TIMA] == old(memory[TIMA]) + 1 && memory[IF] == old(memory[IF])
      ensures memory[..] == old(memory[..])[TIMA := memory[TIMA]][IF := memory[IF]]
    {
      if memory[TIMA] == 0xFF {
        memory[TIMA] := memory[TMA];
        RequestInterrupt(2);
      } else {
        memory[TIMA] := memory[TIMA] + 1;
      }
    }

    /** The TIMA loop of `step`, or the timer reset when TAC bit 2 is clear. */
    method StepTimer(cycles: nat)
      requires Valid()
      modifies this, memory
      ensures Valid()
      ensures State() == old(State()).StepTimer(cycles)
    {
      var tac := memory[TAC];
      if tac & 0x04 != 0 {
        var period := TimerPeriod(tac);
        var counter := timerCounter + cycles;
        ghost var t := TimaTicks(memory[TIMA], memory[TMA], memory[IF], counter, period);
        ghost var s0 := State();
        while counter >= period
          modifies memory
          invariant 0 <= counter
          invariant TimaTicks(memory[TIMA], memory[TMA], memory[IF], counter, period) == t
          invariant memory[..] == s0.memory[TIMA := memory[TIMA]][IF := memory[IF]]
          decreases counter
        {
          counter := counter - period;
          TimaTick();
        }
        assert memory[..] == s0.memory[TIMA := t.tima][IF := t.iflag];
        timerCounter := counter;
      } else {
        timerCounter := 0;
      }
    }
  }
}
