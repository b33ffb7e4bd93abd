/**
 * Properties of the scanline state machine and of the per-pixel rendering
 * rules: what each register update changes and keeps, the mode
 * transitions with their LY and interrupt effects, the LY/mode invariant
 * that `step` preserves, and which sprite decides a pixel.
 */
module VideoFacts {
  import opened Bits
  import opened MemoryUnit
  import opened VideoSpec
  import opened Rendering

  /** Every address other than STAT and IF keeps its byte. */
  predicate OnlyStatAndFlags(v: Video, t: Video)
    requires v.Valid() && t.Valid()
  {
    forall a :: 0 <= a < 0x10000 && a != STAT && a != IF ==> t.memory[a] == v.memory[a]
  }

  /** The STAT byte `updateStatMode` writes: the mode in bits 0-1, bit 2 cleared when asked, bits 3-7 kept. */
  lemma StatWithModeBits(stat: byte, mode: Mode, clear: bool)
    ensures var s := StatWithMode(stat, mode, clear);
            && s & 0x03 == ModeBits(mode)
            && s & 0x04 == (if clear then 0 else stat & 0x04)
            && s & 0xF8 == stat & 0xF8
            && (StatInterrupt(mode, s) <==> StatInterrupt(mode, stat))
  {
  }

  /** The memory `updateStatMode` leaves: the new STAT, then IF bit 1 when the new mode's interrupt is enabled. */
  lemma UpdateStatModeMemory(v: Video, mode: Mode, clear: bool, ly: nat)
    requires v.Valid()
    ensures var stat := StatWithMode(v.Stat(), mode, clear);
            var m := v.memory[STAT := stat];
            UpdateStatMode(v, mode, clear, ly).memory == if StatInterrupt(mode, stat) then m[IF := SetBit(m[IF], 1)] else m
  {
  }

  /**
   * `updateStatMode` replaces STAT bits 0-1 by the mode, clears bit 2 only
   * when asked, keeps bits 3-7, and raises IF bit 1 exactly when the
   * enable bit of the new mode is set.
   */
  lemma UpdateStatModeEffect(v: Video, mode: Mode, clear: bool, ly: nat)
    requires v.Valid()
    ensures var t := UpdateStatMode(v, mode, clear, ly);
            && t.Stat() & 0x03 == ModeBits(mode)
            && t.Stat() & 0x04 == (if clear then 0 else v.Stat() & 0x04)
            && t.Stat() & 0xF8 == v.Stat() & 0xF8
            && t.InterruptFlags() == (if StatInterrupt(mode, v.Stat()) then SetBit(v.InterruptFlags(), 1) else v.InterruptFlags())
            && OnlyStatAndFlags(v, t)
  {
    UpdateStatModeStat(v, mode, clear, ly);
    UpdateStatModeFlags(v, mode, clear, ly);
  }

  /** The STAT byte `updateStatMode` leaves. */
  lemma UpdateStatModeStat(v: Video, mode: Mode, clear: bool, ly: nat)
    requires v.Valid()
    ensures UpdateStatMode(v, mode, clear, ly).Stat() == StatWithMode(v.Stat(), mode, clear)
  {
    UpdateStatModeMemory(v, mode, clear, ly);
  }

  /** The IF byte `updateStatMode` leaves, and every other address but STAT kept. */
  lemma UpdateStatModeFlags(v: Video, mode: Mode, clear: bool, ly: nat)
    requires v.Valid()
    ensures var t := UpdateStatMode(v, mode, clear, ly);
            && t.InterruptFlags() == (if StatInterrupt(mode, v.Stat()) then SetBit(v.InterruptFlags(), 1) else v.InterruptFlags())
            && OnlyStatAndFlags(v, t)
  {
    StatWithModeBits(v.Stat(), mode, clear);
    UpdateStatModeMemory(v, mode, clear, ly);
  }

  /** `updateStatMode` leaves LY alone. */
  lemma UpdateStatModeKeepsLy(v: Video, mode: Mode, clear: bool, ly: nat)
    requires v.Valid()
    ensures UpdateStatMode(v, mode, clear, ly).Ly() == v.Ly()
  {
    UpdateStatModeMemory(v, mode, clear, ly);
  }

  /** Only a mode-2 entry on a visible line takes a scroll snapshot, of that line. */
  lemma UpdateStatModeSnapshots(v: Video, mode: Mode, clear: bool, ly: nat)
    requires v.Valid()
    ensures var t := UpdateStatMode(v, mode, clear, ly);
            && t.scxLine == (if mode == 2 && ly < 144 then v.scxLine[ly := v.memory[SCX]] else v.scxLine)
            && t.scyLine == (if mode == 2 && ly < 144 then v.scyLine[ly := v.memory[SCY]] else v.scyLine)
  {
  }

  /**
   * `checkLyc` sets STAT bit 2 exactly when the line equals LYC, keeps the
   * other STAT bits, and raises IF bit 1 on a match with STAT bit 6 set.
   */
  lemma CheckLycEffect(v: Video, ly: nat)
    requires v.Valid()
    ensures var t := CheckLyc(v, ly);
            && (t.Stat() & 0x04 != 0 <==> ly == v.memory[LYC] as int)
            && t.Stat() & 0xFB == v.Stat() & 0xFB
            && t.InterruptFlags() == (if ly == v.memory[LYC] as int && v.Stat() & 0x40 != 0
                                      then SetBit(v.InterruptFlags(), 1) else v.InterruptFlags())
            && OnlyStatAndFlags(v, t)
  {
    var stat := StatWithCoincidence(v.Stat(), ly == v.memory[LYC] as int);
    assert stat & 0x40 == v.Stat() & 0x40;
  }

  /** `sampleLineRegisters` writes entry `ly` of both snapshots, and only when `ly` is below 154. */
  lemma SampleLineEffect(v: Video, ly: nat)
    requires v.Valid()
    ensures var t := SampleLine(v, ly);
            && (forall i :: 0 <= i < LINES && i != ly ==> t.scxLine[i] == v.scxLine[i] && t.scyLine[i] == v.scyLine[i])
            && (ly < LINES ==> t.scxLine[ly] == v.memory[SCX] && t.scyLine[ly] == v.memory[SCY])
            && (ly >= LINES ==> t == v)
  {
  }

  /** A step in mode 2 on a visible line first snapshots that line's SCX and SCY. */
  lemma StepSamplesCurrentLine(v: Video)
    requires v.Valid() && v.mode == 2 && v.Ly() < 144
    ensures var t := SampleCurrentLine(v);
            t.scxLine[v.Ly()] == v.memory[SCX] && t.scyLine[v.Ly()] == v.memory[SCY]
  {
  }

  /**
   * With LCDC bit 7 clear, `step` leaves clock 0, mode 0, LY 0 and STAT
   * bits 0-2 clear (bits 3-7 kept); IF bit 1 is raised when STAT enables
   * the HBlank interrupt.
   */
  lemma LcdOffStep(v: Video, cycles: nat)
    requires v.Valid() && v.memory[LCDC] & 0x80 == 0
    ensures var t := Step(v, cycles);
            && t.clock == 0 && t.mode == 0 && t.Ly() == 0
            && t.Stat() & 0x07 == 0 && t.Stat() & 0xF8 == v.Stat() & 0xF8
            && t.InterruptFlags() == (if v.Stat() & 0x08 != 0 then SetBit(v.InterruptFlags(), 1) else v.InterruptFlags())
  {
    var u := v.(clock := 0, mode := 0).Store(LY, 0);
    UpdateStatModeEffect(u, 0, true, 0);
  }

  /** Mode 2 ends after 80 cycles in mode 3, on the same line. */
  lemma OamSearchEnds(v: Video)
    requires v.Valid() && v.mode == 2 && v.clock >= 80
    ensures var t := EndOamSearch(v);
            t.mode == 3 && t.clock == v.clock - 80 && t.Ly() == v.Ly() && t.Stat() & 0x03 == 3
  {
    UpdateStatModeEffect(v.(clock := v.clock - 80, mode := 3), 3, false, v.Ly() as int);
  }

  /** Mode 3 ends after 172 cycles in HBlank, on the same line. */
  lemma DrawingEnds(v: Video)
    requires v.Valid() && v.mode == 3 && v.clock >= 172
    ensures var t := EndDrawing(v);
            t.mode == 0 && t.clock == v.clock - 172 && t.Ly() == v.Ly() && t.Stat() & 0x03 == 0
  {
    UpdateStatModeEffect(v.(clock := v.clock - 172, mode := 0), 0, false, v.Ly() as int);
  }

  /** LY after `LineEnd`: one more, in 8 bits. */
  lemma LineEndLy(v: Video)
    requires v.Valid()
    ensures LineEnd(v).Ly() == v.Ly() + 1
  {
    CheckLycEffect(NextLine(v), v.Ly() as int + 1);
  }

  /**
   * HBlank ends after 204 cycles on the next line: after line 143 in
   * VBlank with IF bit 0 set, otherwise in mode 2.
   */
  lemma HBlankEnds(v: Video)
    requires v.Valid() && v.mode == 0 && v.clock >= 204
    ensures var t := EndHBlank(v);
            && t.Ly() == v.Ly() + 1
            && t.mode == (if v.Ly() == 143 then 1 else 2)
            && t.Stat() & 0x03 == ModeBits(t.mode)
            && (v.Ly() == 143 ==> TestBit(t.InterruptFlags(), 0))
  {
    var u := LineEnd(v.(clock := v.clock - 204));
    LineEndLy(v.(clock := v.clock - 204));
    if v.Ly() == 143 {
      var w := UpdateStatMode(u.(mode := 1), 1, false, 144);
      UpdateStatModeEffect(u.(mode := 1), 1, false, 144);
    } else {
      UpdateStatModeEffect(u.(mode := 2), 2, false, v.Ly() as int + 1);
    }
  }

  /** A VBlank line ends after 456 cycles: LY moves on, and after line 153 the frame restarts at line 0 in mode 2. */
  lemma VBlankLineEnds(v: Video)
    requires v.Valid() && v.mode == 1 && v.clock >= 456
    ensures var t := EndVBlankLine(v);
            && t.Ly() == (if v.Ly() >= 153 then 0 else v.Ly() + 1)
            && t.mode == (if v.Ly() >= 153 then 2 else 1)
  {
    if v.Ly() >= 153 {
      FrameRestarts(v);
    } else {
      LineEndLy(v.(clock := v.clock - 456));
    }
  }

  /** After line 153 LY returns to 0. */
  lemma FrameRestarts(v: Video)
    requires v.Valid() && v.mode == 1 && v.clock >= 456 && v.Ly() >= 153
    ensures EndVBlankLine(v).Ly() == 0
  {
    var u := v.(clock := v.clock - 456);
    FirstLineLy(u);
    UpdateStatModeKeepsLy(FirstLine(u).(mode := 2), 2, false, 0);
  }

  /** `FirstLine` leaves LY at 0. */
  lemma FirstLineLy(v: Video)
    requires v.Valid()
    ensures FirstLine(v).Ly() == 0
  {
    CheckLycEffect(v.Store(LY, 0), 0);
  }

  /** LY is a real line (0-153) and the mode is VBlank exactly on lines 144-153. */
  predicate LinesConsistent(v: Video)
    requires v.Valid()
  {
    v.Ly() < 154 && (v.mode == 1 <==> v.Ly() >= 144)
  }

  /** One transition keeps LY and the mode consistent. */
  lemma TransitionKeepsLines(v: Video)
    requires v.Valid() && v.clock >= Budget(v.mode) && LinesConsistent(v)
    ensures LinesConsistent(Transition(v))
  {
    if v.mode == 2 {
      OamSearchEnds(v);
    } else if v.mode == 3 {
      DrawingEnds(v);
    } else if v.mode == 0 {
      HBlankEnds(v);
    } else {
      VBlankLineEnds(v);
    }
  }

  /** The loop of `step` keeps LY and the mode consistent. */
  lemma {:induction false} RunKeepsLines(v: Video)
    requires v.Valid() && LinesConsistent(v)
    ensures LinesConsistent(Run(v))
    decreases v.clock
  {
    if v.clock >= Budget(v.mode) {
      TransitionKeepsLines(v);
      RunKeepsLines(Transition(v));
    }
  }

  /** `step` keeps LY and the mode consistent, whether the LCD is on or off. */
  lemma StepKeepsLines(v: Video, cycles: nat)
    requires v.Valid() && LinesConsistent(v)
    ensures LinesConsistent(Step(v, cycles))
  {
    if v.memory[LCDC] & 0x80 == 0 {
      LcdOffStep(v, cycles);
    } else {
      var sampled := SampleCurrentLine(v);
      RunKeepsLines(sampled.(clock := sampled.clock + cycles));
    }
  }

  /** No pass of the loop writes LCDC: the unit stores only LY, STAT and IF. */
  lemma TransitionKeepsLcdc(v: Video)
    requires v.Valid() && v.clock >= Budget(v.mode)
    ensures Transition(v).memory[LCDC] == v.memory[LCDC]
  {
    if v.mode == 2 {
      UpdateStatModeMemory(v.(clock := v.clock - 80, mode := 3), 3, false, v.Ly() as int);
    } else if v.mode == 3 {
      UpdateStatModeMemory(v.(clock := v.clock - 172, mode := 0), 0, false, v.Ly() as int);
    } else if v.mode == 0 {
      var u := LineEnd(v.(clock := v.clock - 204));
      if v.Ly() == 143 {
        UpdateStatModeMemory(u.(mode := 1), 1, false, 144);
      } else {
        UpdateStatModeMemory(u.(mode := 2), 2, false, v.Ly() as int + 1);
      }
    } else if v.Ly() as int + 1 > 153 {
      var u := FirstLine(v.(clock := v.clock - 456));
      UpdateStatModeMemory(u.(mode := 2), 2, false, 0);
    }
  }

  /**
   * The end of line 143 draws the frame: when the clock runs out within
   * the first VBlank line, the picture is exactly the frame of shades
   * computed from the state entering VBlank, whatever was shown before.
   */
  lemma VBlankDraws(v: Video, p: Picture)
    requires v.Valid() && v.mode == 0 && v.Ly() == 143 && v.memory[LCDC] & 0x80 != 0
    requires 204 <= v.clock < 204 + 456
    ensures RunPicture(v, p) == Picture(false, Frame(Transition(v)))
  {
    TransitionKeepsLcdc(v);
    HBlankEnds(v);
  }

  /** With the LCD on, the loop either leaves the picture alone or shows a full frame, never white. */
  lemma {:induction false} RunNeverBlanks(v: Video, p: Picture)
    requires v.Valid() && v.memory[LCDC] & 0x80 != 0
    ensures var q := RunPicture(v, p); q == p || (!q.blank && |q.shades| == HEIGHT)
    decreases v.clock
  {
    if v.clock >= Budget(v.mode) {
      var t := Transition(v);
      TransitionKeepsLcdc(v);
      if EntersVBlank(v) {
        RunNeverBlanks(t, Render(t, p));
      } else {
        RunNeverBlanks(t, p);
      }
    }
  }

  /** `step` never whitens the picture: only a frame drawn with the LCD on can replace it. */
  lemma StepNeverBlanks(v: Video, cycles: nat, p: Picture)
    requires v.Valid()
    ensures var q := StepPicture(v, cycles, p); q == p || (!q.blank && |q.shades| == HEIGHT)
  {
    if v.memory[LCDC] & 0x80 != 0 {
      var sampled := SampleCurrentLine(v);
      SampleLineEffect(v, v.Ly() as int);
      RunNeverBlanks(sampled.(clock := sampled.clock + cycles), p);
    }
  }

  /** `reset` starts on line 0 in mode 2 with zeroed snapshots and STAT bits 0-2 equal to 2. */
  lemma ResetState(v: Video)
    requires v.Valid()
    ensures var t := Reset(v);
            && t.clock == 0 && t.mode == 2 && t.Ly() == 0 && LinesConsistent(t)
            && t.Stat() & 0x07 == 2
            && (forall i :: 0 <= i < LINES && i != 0 ==> t.scxLine[i] == 0 && t.scyLine[i] == 0)
  {
    var zeros: seq<byte> := seq(LINES, _ => 0);
    UpdateStatModeEffect(v.(clock := 0, mode := 2, scxLine := zeros, scyLine := zeros).Store(LY, 0), 2, true, 0);
  }

  /** From sprite `k` on, sprites with colour 0 up to `i` are skipped. */
  lemma {:induction false} TransparentSpritesSkipped(m: Memory, height: int, y: byte, x: byte, background: int, k: int, i: int)
    requires 0 <= k <= i <= SPRITES && (height == 8 || height == 16)
    requires forall j :: k <= j < i ==> SpriteColor(m, height, j, y, x) == 0
    ensures SpriteScan(m, height, y, x, background, k) == SpriteScan(m, height, y, x, background, i)
    decreases i - k
  {
    if k < i {
      assert SpriteColor(m, height, k, y, x) == 0;
      TransparentSpritesSkipped(m, height, y, x, background, k + 1, i);
    }
  }

  /**
   * Sprites are scanned in OAM order: the first one with a non-zero colour
   * at the pixel decides it. Behind a non-zero background colour (attribute
   * bit 7) the background shade stays; otherwise its colour goes through
   * OBP1 when attribute bit 4 is set, else OBP0.
   */
  lemma FirstOpaqueSpriteDecides(m: Memory, scx: byte, scy: byte, y: byte, x: byte, i: int)
    requires m[LCDC] & 0x02 != 0 && 0 <= i < SPRITES
    requires forall j :: 0 <= j < i ==> SpriteColor(m, SpriteHeight(m[LCDC]), j, y, x) == 0
    requires SpriteColor(m, SpriteHeight(m[LCDC]), i, y, x) != 0
    ensures var background := BackgroundIndex(m, scx, scy, y, x);
            var c := SpriteColor(m, SpriteHeight(m[LCDC]), i, y, x);
            PixelShade(m, scx, scy, y, x)
            == if Attributes(m, i) & 0x80 != 0 && background != 0 then Shade(m[BGP], background)
               else Shade(if Attributes(m, i) & 0x10 != 0 then m[OBP1] else m[OBP0], c)
  {
    var background := BackgroundIndex(m, scx, scy, y, x);
    TransparentSpritesSkipped(m, SpriteHeight(m[LCDC]), y, x, background, 0, i);
  }

  /** With sprites off, or no sprite giving the pixel a non-zero colour, the background shade through BGP stays. */
  lemma BackgroundShows(m: Memory, scx: byte, scy: byte, y: byte, x: byte)
    requires m[LCDC] & 0x02 == 0 || forall j :: 0 <= j < SPRITES ==> SpriteColor(m, SpriteHeight(m[LCDC]), j, y, x) == 0
    ensures PixelShade(m, scx, scy, y, x) == Shade(m[BGP], BackgroundIndex(m, scx, scy, y, x))
  {
    if m[LCDC] & 0x02 != 0 {
      TransparentSpritesSkipped(m, SpriteHeight(m[LCDC]), y, x, BackgroundIndex(m, scx, scy, y, x), 0, SPRITES);
    }
  }
}
