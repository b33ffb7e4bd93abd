/**
 * The scanline state machine of `pixelprocessingunit.js` as functions on
 * a value: `ppuClock`, `mode`, the memory unit's 64 KiB array (where LY,
 * STAT, LYC, the scroll registers and IF live) and the two per-line
 * scroll snapshots. Every address the unit reads or writes is one that
 * `read8bits` and `write8bits` pass straight through to `memory`.
 */
module VideoSpec {
  import opened Bits
  import opened MemoryUnit

  const LCDC := 0xFF40
  const STAT := 0xFF41
  const SCY := 0xFF42
  const SCX := 0xFF43
  const LY := 0xFF44
  const LYC := 0xFF45

  /** The number of lines, visible and VBlank, that the snapshot arrays cover. */
  const LINES := 154

  /** Mode 0 HBlank, 1 VBlank, 2 OAM search, 3 drawing. */
  type Mode = m: int | 0 <= m <= 3

  datatype Video = Video(clock: int, mode: Mode, memory: seq<byte>, scxLine: seq<byte>, scyLine: seq<byte>)
  {
    predicate Valid()
    {
      0 <= clock && |memory| == 0x10000 && |scxLine| == LINES && |scyLine| == LINES
    }

    function Ly(): byte
      requires Valid()
    {
      memory[LY]
    }

    function Stat(): byte
      requires Valid()
    {
      memory[STAT]
    }

    function InterruptFlags(): byte
      requires Valid()
    {
      memory[IF]
    }

    /** `write8bits` of a byte at one of the unit's registers. */
    function Store(address: int, v: byte): (t: Video)
      requires Valid() && 0 <= address < 0x10000
      ensures t.Valid() && t == this.(memory := memory[address := v])
    {
      this.(memory := memory[address := v])
    }
  }

  /** The cycles a mode lasts: 80, 172, 204, and a whole 456-cycle line in VBlank. */
  function Budget(mode: Mode): (n: int)
    ensures n > 0
  {
    if mode == 2 then 80 else if mode == 3 then 172 else if mode == 0 then 204 else 456
  }

  /** The mode as the two low bits of STAT. */
  function ModeBits(mode: Mode): (b: byte)
    ensures b as int == mode
  {
    if mode == 0 then 0 else if mode == 1 then 1 else if mode == 2 then 2 else 3
  }

  /** `requestInterrupt(bit)`: the bit is set in IF. */
  function Request(v: Video, bit: BitIndex): (t: Video)
    requires v.Valid()
    ensures t.Valid() && t == v.(memory := t.memory)
  {
    v.Store(IF, SetBit(v.memory[IF], bit))
  }

  /** `sampleLineRegisters(ly)`: SCX and SCY copied into the snapshots of line `ly`, when there is one. */
  function SampleLine(v: Video, ly: nat): (t: Video)
    requires v.Valid()
    ensures t.Valid() && t.clock == v.clock && t.mode == v.mode && t.memory == v.memory
  {
    if ly < LINES then v.(scxLine := v.scxLine[ly := v.memory[SCX]], scyLine := v.scyLine[ly := v.memory[SCY]])
    else v
  }

  /** Whether STAT enables the interrupt of entering `mode`: bit 5 for mode 2, bit 3 for mode 0, bit 4 for mode 1. */
  predicate StatInterrupt(mode: Mode, stat: byte)
  {
    (mode == 2 && stat & 0x20 != 0) || (mode == 0 && stat & 0x08 != 0) || (mode == 1 && stat & 0x10 != 0)
  }

  /** STAT with its mode bits replaced, and bit 2 cleared when asked. */
  function StatWithMode(stat: byte, mode: Mode, clearCoincidence: bool): byte
  {
    var s := (stat & 0xFC) | ModeBits(mode);
    if clearCoincidence then s & 0xFB else s
  }

  /**
   * `updateStatMode(mode, clearCoincidence, ly)`: the new STAT; in mode 2
   * the scroll registers of line `ly` are sampled when it is visible; IF
   * bit 1 when STAT enables the new mode's interrupt.
   */
  function UpdateStatMode(v: Video, mode: Mode, clearCoincidence: bool, ly: nat): (t: Video)
    requires v.Valid()
    ensures t.Valid() && t.clock == v.clock && t.mode == v.mode
  {
    var stat := StatWithMode(v.Stat(), mode, clearCoincidence);
    var u := v.Store(STAT, stat);
    var w := if mode == 2 && ly < 144 then SampleLine(u, ly) else u;
    if StatInterrupt(mode, stat) then Request(w, 1) else w
  }

  /** STAT with bit 2 telling whether LY matches LYC. */
  function StatWithCoincidence(stat: byte, coincidence: bool): byte
  {
    (stat & 0xFB) | (if coincidence then 0x04 else 0)
  }

  /** `checkLyc(ly)`: STAT bit 2 tells whether `ly` equals LYC; IF bit 1 on a match when STAT bit 6 is set. */
  function CheckLyc(v: Video, ly: nat): (t: Video)
    requires v.Valid()
    ensures t.Valid() && t.clock == v.clock && t.mode == v.mode
    ensures t.scxLine == v.scxLine && t.scyLine == v.scyLine
  {
    var coincidence := ly == v.memory[LYC] as int;
    var stat := StatWithCoincidence(v.Stat(), coincidence);
    var u := v.Store(STAT, stat);
    if coincidence && stat & 0x40 != 0 then Request(u, 1) else u
  }

  /** Mode 2 ends: drawing begins. */
  function EndOamSearch(v: Video): (t: Video)
    requires v.Valid() && v.mode == 2 && v.clock >= 80
    ensures t.Valid() && t.mode == 3 && t.clock == v.clock - 80
  {
    UpdateStatMode(v.(clock := v.clock - 80, mode := 3), 3, false, v.Ly() as int)
  }

  /** Mode 3 ends: HBlank begins. */
  function EndDrawing(v: Video): (t: Video)
    requires v.Valid() && v.mode == 3 && v.clock >= 172
    ensures t.Valid() && t.mode == 0 && t.clock == v.clock - 172
  {
    UpdateStatMode(v.(clock := v.clock - 172, mode := 0), 0, false, v.Ly() as int)
  }

  /** The value LY is left with: `write8bits` keeps the low 8 bits of LY + 1. */
  function NextLine(v: Video): (t: Video)
    requires v.Valid()
    ensures t.Valid() && t.Ly() == v.Ly() + 1 && t.clock == v.clock && t.mode == v.mode
  {
    v.Store(LY, v.Ly() + 1)
  }

  /**
   * HBlank ends: LY moves to the next line and is compared with LYC; after
   * line 143 VBlank begins and the VBlank interrupt (IF bit 0) is
   * requested, otherwise the next line's OAM search begins.
   */
  function EndHBlank(v: Video): (t: Video)
    requires v.Valid() && v.mode == 0 && v.clock >= 204
    ensures t.Valid() && t.clock == v.clock - 204
    ensures t.mode == if v.Ly() == 143 then 1 else 2
  {
    var u := LineEnd(v.(clock := v.clock - 204));
    if v.Ly() == 143 then BeginVBlank(u) else BeginLine(u, v.Ly() as int + 1)
  }

  /** LY moves to the next line, which is compared with LYC before the 8-bit wrap. */
  function LineEnd(v: Video): (t: Video)
    requires v.Valid()
    ensures t.Valid() && t.clock == v.clock && t.mode == v.mode
  {
    CheckLyc(NextLine(v), v.Ly() as int + 1)
  }

  /** VBlank begins at line 144: STAT mode 1 and the VBlank interrupt, IF bit 0. */
  function BeginVBlank(v: Video): (t: Video)
    requires v.Valid()
    ensures t.Valid() && t.clock == v.clock && t.mode == 1
  {
    Request(UpdateStatMode(v.(mode := 1), 1, false, 144), 0)
  }

  /** Line `ly` begins with its OAM search. */
  function BeginLine(v: Video, ly: nat): (t: Video)
    requires v.Valid()
    ensures t.Valid() && t.clock == v.clock && t.mode == 2
  {
    UpdateStatMode(v.(mode := 2), 2, false, ly)
  }

  /** A VBlank line ends: LY moves on, and after line 153 the frame restarts at line 0 in mode 2. */
  function EndVBlankLine(v: Video): (t: Video)
    requires v.Valid() && v.mode == 1 && v.clock >= 456
    ensures t.Valid() && t.clock == v.clock - 456
    ensures t.mode == if v.Ly() as int + 1 > 153 then 2 else 1
  {
    var newLy := v.Ly() as int + 1;
    var u := v.(clock := v.clock - 456);
    if newLy > 153 then BeginLine(FirstLine(u), 0)
    else LineEnd(u)
  }

  /** LY returns to line 0, which is compared with LYC. */
  function FirstLine(v: Video): (t: Video)
    requires v.Valid()
    ensures t.Valid() && t.clock == v.clock && t.mode == v.mode
  {
    CheckLyc(v.Store(LY, 0), 0)
  }

  /** One pass of the `while` loop of `step` once the current mode's budget is spent. */
  function Transition(v: Video): (t: Video)
    requires v.Valid() && v.clock >= Budget(v.mode)
    ensures t.Valid() && t.clock == v.clock - Budget(v.mode)
  {
    if v.mode == 2 then EndOamSearch(v)
    else if v.mode == 3 then EndDrawing(v)
    else if v.mode == 0 then EndHBlank(v)
    else EndVBlankLine(v)
  }

  /** The loop of `step`: transitions until the clock is below the current mode's budget. */
  function Run(v: Video): (t: Video)
    requires v.Valid()
    ensures t.Valid() && 0 <= t.clock < Budget(t.mode)
    decreases v.clock
  {
    if v.clock < Budget(v.mode) then v else Run(Transition(v))
  }

  /**
   * `step(cycles)`: with the LCD off (LCDC bit 7 clear) the clock, the
   * mode and LY are zeroed; otherwise a line in OAM search has its scroll
   * registers sampled, the clock advances and the loop runs.
   */
  function Step(v: Video, cycles: nat): (t: Video)
    requires v.Valid()
    ensures t.Valid() && 0 <= t.clock < Budget(t.mode)
  {
    if v.memory[LCDC] & 0x80 == 0 then LcdOff(v)
    else
      var sampled := SampleCurrentLine(v);
      Run(sampled.(clock := sampled.clock + cycles))
  }

  /** The LCD is off: clock 0, HBlank, LY 0, and STAT for mode 0 with bit 2 cleared. */
  function LcdOff(v: Video): (t: Video)
    requires v.Valid()
    ensures t.Valid() && t.clock == 0 && t.mode == 0
  {
    UpdateStatMode(v.(clock := 0, mode := 0).Store(LY, 0), 0, true, 0)
  }

  /** A visible line in OAM search has its scroll registers sampled. */
  function SampleCurrentLine(v: Video): (t: Video)
    requires v.Valid()
    ensures t.Valid() && t.clock == v.clock && t.mode == v.mode
  {
    if v.mode == 2 && v.Ly() < 144 then SampleLine(v, v.Ly() as int) else v
  }

  /** `reset`: clock 0, mode 2, the snapshots zeroed, LY 0, then STAT set for mode 2 with bit 2 cleared. */
  function Reset(v: Video): (t: Video)
    requires v.Valid()
    ensures t.Valid() && t.clock == 0 && t.mode == 2
  {
    var zeros := seq(LINES, _ => 0);
    UpdateStatMode(v.(clock := 0, mode := 2, scxLine := zeros, scyLine := zeros).Store(LY, 0), 2, true, 0)
  }
}
