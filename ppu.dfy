/**
 * The pixel processing unit object of `pixelprocessingunit.js`. Its
 * registers live in the memory unit's array, which it shares; it keeps
 * its own clock, mode, the scroll values sampled for each line and the
 * frame of shades `renderFrame` draws. Each method is proved to reach the
 * state the functions of `VideoSpec` give, and `RenderFrame` to draw the
 * shades `Rendering.PixelShade` gives.
 */
module PixelProcessing {
  import opened Bits
  import opened MemoryUnit
  import opened VideoSpec
  import opened Rendering

  class PixelProcessingUnit {
    /** The memory unit's array. */
    const memory: array<byte>
    const scxPerLine: array<byte>
    const scyPerLine: array<byte>
    /** The shade (0-3) of every pixel of the last frame drawn, row by row. */
    const frame: array2<int>
    /** Whether the last frame was drawn with the LCD off, which fills the picture with white. */
    var blank: bool
    var ppuClock: nat
    var mode: Mode

    /** The clock, the mode, the memory and the snapshots as one value. */
    function State(): (v: Video)
      reads this, memory, scxPerLine, scyPerLine
      ensures Valid() ==> v.Valid()
    {
      Video(ppuClock, mode, memory[..], scxPerLine[..], scyPerLine[..])
    }

    /** The shapes of the arrays; it reads only constant fields, so no update can break it. */
    predicate Valid()
    {
      memory.Length == 0x10000 && scxPerLine.Length == LINES && scyPerLine.Length == LINES
      && memory != scxPerLine && memory != scyPerLine && scxPerLine != scyPerLine
      && frame.Length0 == HEIGHT && frame.Length1 == WIDTH
    }

    /** The frame `RenderFrame` draws from the current memory and snapshots. */
    ghost predicate FrameDrawn()
      reads this, memory, scxPerLine, scyPerLine, frame
      requires Valid()
    {
      forall y, x :: 0 <= y < HEIGHT && 0 <= x < WIDTH ==>
        frame[y, x] == PixelShade(memory[..], scxPerLine[y], scyPerLine[y], y as byte, x as byte)
    }

    /** The picture on the canvas: the `blank` flag and the frame's rows of shades. */
    ghost function Shown(): Picture
      reads this`blank, frame
    {
      Picture(blank, seq(frame.Length0, y requires 0 <= y < frame.Length0 reads frame =>
        seq(frame.Length1, x requires 0 <= x < frame.Length1 reads frame => frame[y, x])))
    }

    /** A drawn frame holds the rows `Frame` gives for the current state. */
    lemma DrawnShades()
      requires Valid() && FrameDrawn()
      ensures Shown().shades == Frame(State())
    {
      var v := State();
      forall y | 0 <= y < HEIGHT
        ensures Shown().shades[y] == Frame(v)[y]
      {
        forall x | 0 <= x < WIDTH
          ensures Shown().shades[y][x] == Frame(v)[y][x]
        {
          RowShadesAt(v.memory, v.scxLine[y], v.scyLine[y], y as byte, WIDTH, x);
        }
      }
    }

    /** `new PixelProcessingUnit(canvas, mmu)`: clock 0, OAM search, zeroed snapshots. */
    constructor (shared: array<byte>)
      requires shared.Length == 0x10000
      ensures Valid() && memory == shared && !blank
      ensures State() == Video(0, 2, shared[..], seq(LINES, _ => 0), seq(LINES, _ => 0))
    {
      memory := shared;
      scxPerLine := new byte[LINES](_ => 0);
      scyPerLine := new byte[LINES](_ => 0);
      frame := new int[HEIGHT, WIDTH]((_, _) => 0);
      blank := false;
      ppuClock := 0;
      mode := 2;
    }

    /** `reset`. */
    method Reset()
      requires Valid()
      modifies this`ppuClock, this`mode, memory, scxPerLine, scyPerLine
      ensures State() == VideoSpec.Reset(old(State()))
    {
      Enter(0, 2);
      ClearSnapshots();
      Store(LY, 0);
      UpdateStatMode(2, true, 0);
    }

    /** `scxPerLine.fill(0)` and `scyPerLine.fill(0)`. */
    method ClearSnapshots()
      requires Valid()
      modifies scxPerLine, scyPerLine
      ensures State() == old(State()).(scxLine := seq(LINES, _ => 0), scyLine := seq(LINES, _ => 0))
    {
      Fill(scxPerLine);
      Fill(scyPerLine);
    }

    /** `step(cycles)`. */
    method Step(cycles: nat)
      requires Valid()
      modifies this, memory, scxPerLine, scyPerLine, frame
      ensures State() == VideoSpec.Step(old(State()), cycles)
      ensures Shown() == StepPicture(old(State()), cycles, old(Shown()))
    {
      var lcdc := memory[LCDC];
      if lcdc & 0x80 == 0 {
        TurnOff();
        return;
      }
      SampleCurrentLine();
      SetClock(ppuClock + cycles);
      ghost var target := Run(State());
      ghost var picture := RunPicture(State(), Shown());
      while ppuClock >= Budget(mode)
        invariant Valid() && Run(State()) == target && RunPicture(State(), Shown()) == picture
        decreases ppuClock
      {
        Advance();
      }
    }

    /** The LCD-off branch of `step`. */
    method TurnOff()
      requires Valid()
      modifies this`ppuClock, this`mode, memory, scxPerLine, scyPerLine
      ensures State() == LcdOff(old(State()))
    {
      ghost var v0 := State();
      Enter(0, 0);
      Store(LY, 0);
      assert State() == v0.(clock := 0, mode := 0).Store(LY, 0);
      UpdateStatMode(0, true, 0);
    }

    /** The sampling at the start of `step`: only in mode 2, only for a visible line. */
    method SampleCurrentLine()
      requires Valid()
      modifies scxPerLine, scyPerLine
      ensures State() == VideoSpec.SampleCurrentLine(old(State()))
    {
      if mode == 2 {
        var ly := memory[LY];
        if ly < 144 {
          SampleLineRegisters(ly as int);
        }
      }
    }

    /** One pass of the loop of `step` once the current mode's cycles are spent. */
    method Advance()
      requires Valid() && ppuClock >= Budget(mode)
      modifies this, memory, scxPerLine, scyPerLine, frame
      ensures State() == Transition(old(State()))
      ensures Shown() == if EntersVBlank(old(State())) then Render(State(), old(Shown())) else old(Shown())
    {
      var ly := memory[LY];
      if mode == 2 {
        EndOamSearch(ly);
      } else if mode == 3 {
        EndDrawing(ly);
      } else if mode == 0 {
        EndHBlank(ly);
      } else {
        EndVBlankLine(ly);
      }
    }

    /** Case 2 of the loop: drawing begins. */
    method EndOamSearch(ly: byte)
      requires Valid() && mode == 2 && ppuClock >= 80 && ly == memory[LY]
      modifies this`ppuClock, this`mode, memory, scxPerLine, scyPerLine
      ensures State() == VideoSpec.EndOamSearch(old(State()))
    {
      Enter(ppuClock - 80, 3);
      UpdateStatMode(3, false, ly as int);
    }

    /** Case 3 of the loop: HBlank begins. */
    method EndDrawing(ly: byte)
      requires Valid() && mode == 3 && ppuClock >= 172 && ly == memory[LY]
      modifies this`ppuClock, this`mode, memory, scxPerLine, scyPerLine
      ensures State() == VideoSpec.EndDrawing(old(State()))
    {
      Enter(ppuClock - 172, 0);
      UpdateStatMode(0, false, ly as int);
    }

    /** Case 0 of the loop: the next line, or VBlank and a new frame after line 143. */
    method EndHBlank(ly: byte)
      requires Valid() && mode == 0 && ppuClock >= 204 && ly == memory[LY]
      modifies this, memory, scxPerLine, scyPerLine, frame
      ensures State() == VideoSpec.EndHBlank(old(State()))
      ensures Shown() == if ly == 143 then Render(State(), old(Shown())) else old(Shown())
    {
      SetClock(ppuClock - 204);
      CloseLine(ly);
    }

    /** The rest of case 0 once the clock is charged: LY moves on and the next mode begins. */
    method CloseLine(ly: byte)
      requires Valid() && ly == memory[LY]
      modifies this, memory, scxPerLine, scyPerLine, frame
      ensures var u := LineEnd(old(State()));
              State() == if ly == 143 then VideoSpec.BeginVBlank(u) else VideoSpec.BeginLine(u, ly as int + 1)
      ensures Shown() == if ly == 143 then Render(State(), old(Shown())) else old(Shown())
    {
      LineDone(ly);
      NextMode(ly as int + 1);
    }

    /** After line 143 VBlank begins and the finished frame is drawn; otherwise line `newLy` begins. */
    method NextMode(newLy: nat)
      requires Valid()
      modifies this, memory, scxPerLine, scyPerLine, frame
      ensures State() == if newLy == 144 then VideoSpec.BeginVBlank(old(State())) else VideoSpec.BeginLine(old(State()), newLy)
      ensures Shown() == if newLy == 144 then Render(State(), old(Shown())) else old(Shown())
    {
      if newLy == 144 {
        BeginVBlank();
        RenderFrame();
      } else {
        BeginLine(newLy);
      }
    }

    /** LY moves to the next line and is compared with LYC. */
    method LineDone(ly: byte)
      requires Valid() && ly == memory[LY]
      modifies memory
      ensures State() == LineEnd(old(State()))
    {
      NextLine(ly);
      CheckLyc(ly as int + 1);
    }

    /** `write8bits(0xFF44, ly + 1)`, which keeps the low 8 bits. */
    method NextLine(ly: byte)
      requires Valid() && ly == memory[LY]
      modifies memory
      ensures State() == VideoSpec.NextLine(old(State()))
    {
      Store(LY, ly + 1);
    }

    /** The VBlank branch of case 0: mode 1, its STAT update and the VBlank interrupt. */
    method BeginVBlank()
      requires Valid()
      modifies this`ppuClock, this`mode, memory, scxPerLine, scyPerLine
      ensures State() == VideoSpec.BeginVBlank(old(State()))
    {
      ghost var v0 := State();
      Enter(ppuClock, 1);
      UpdateStatMode(1, false, 144);
      ghost var v1 := State();
      assert v1 == VideoSpec.UpdateStatMode(v0.(mode := 1), 1, false, 144);
      RequestInterrupt(0);
    }

    /** Mode 2 and its STAT update for line `ly`. */
    method BeginLine(ly: nat)
      requires Valid()
      modifies this`ppuClock, this`mode, memory, scxPerLine, scyPerLine
      ensures State() == VideoSpec.BeginLine(old(State()), ly)
    {
      Enter(ppuClock, 2);
      UpdateStatMode(2, false, ly);
    }

    /** Case 1 of the loop: the next VBlank line, or line 0 of a new frame after line 153. */
    method EndVBlankLine(ly: byte)
      requires Valid() && mode == 1 && ppuClock >= 456 && ly == memory[LY]
      modifies this`ppuClock, this`mode, memory, scxPerLine, scyPerLine
      ensures State() == VideoSpec.EndVBlankLine(old(State()))
    {
      SetClock(ppuClock - 456);
      var newLy := ly as int + 1;
      if newLy > 153 {
        RestartLines();
        BeginLine(0);
      } else {
        LineDone(ly);
      }
    }

    /** `write8bits(0xFF44, 0)` and `checkLyc(0)`. */
    method RestartLines()
      requires Valid()
      modifies memory
      ensures State() == FirstLine(old(State()))
    {
      Store(LY, 0);
      CheckLyc(0);
    }

    /** `updateStatMode(mode, clearCoincidence, ly)`. */
    method UpdateStatMode(newMode: Mode, clearCoincidence: bool, ly: nat)
      requires Valid()
      modifies memory, scxPerLine, scyPerLine
      ensures State() == VideoSpec.UpdateStatMode(old(State()), newMode, clearCoincidence, ly)
    {
      var stat := memory[STAT];
      stat := StatWithMode(stat, newMode, clearCoincidence);
      Store(STAT, stat);
      if newMode == 2 && ly < 144 {
        SampleLineRegisters(ly);
      }
      if newMode == 2 && stat & 0x20 != 0 {
        RequestInterrupt(1);
      } else if newMode == 0 && stat & 0x08 != 0 {
        RequestInterrupt(1);
      } else if newMode == 1 && stat & 0x10 != 0 {
        RequestInterrupt(1);
      }
    }

    /** `checkLyc(ly)`. */
    method CheckLyc(ly: nat)
      requires Valid()
      modifies memory
      ensures State() == VideoSpec.CheckLyc(old(State()), ly)
    {
      ghost var v0 := State();
      var lyc := memory[LYC];
      var stat := memory[STAT];
      var coincidence := ly == lyc as int;
      stat := StatWithCoincidence(stat, coincidence);
      Store(STAT, stat);
      ghost var v1 := State();
      assert v1 == v0.Store(STAT, stat);
      if coincidence && stat & 0x40 != 0 {
        RequestInterrupt(1);
        assert State() == Request(v1, 1);
      }
    }

    /** `sampleLineRegisters(ly)`. */
    method SampleLineRegisters(ly: nat)
      requires Valid()
      modifies scxPerLine, scyPerLine
      ensures State() == SampleLine(old(State()), ly)
    {
      if ly < LINES {
        scxPerLine[ly] := memory[SCX];
        scyPerLine[ly] := memory[SCY];
      }
    }

    /** `mmu.requestInterrupt(bit)`. */
    method RequestInterrupt(bit: BitIndex)
      requires Valid()
      modifies memory
      ensures State() == Request(old(State()), bit)
    {
      Store(IF, SetBit(memory[IF], bit));
    }

    /** `mmu.write8bits(address, v)` for one of the registers the unit writes. */
    method Store(address: int, v: byte)
      requires Valid() && 0 <= address < 0x10000
      modifies memory
      ensures State() == old(State()).Store(address, v)
    {
      memory[address] := v;
    }

    /** The clock and the mode take new values. */
    method Enter(clock: int, next: Mode)
      requires Valid() && clock >= 0
      modifies this`ppuClock, this`mode
      ensures State() == old(State()).(clock := clock, mode := next)
    {
      ppuClock, mode := clock, next;
    }

    /** The clock takes a new value. */
    method SetClock(clock: nat)
      modifies this`ppuClock
      ensures State() == old(State()).(clock := clock)
    {
      ppuClock := clock;
    }

    /** `fill(0)` on one of the snapshot arrays. */
    static method Fill(a: array<byte>)
      modifies a
      ensures a[..] == seq(a.Length, _ => 0)
    {
      for i := 0 to a.Length
        invariant a[..i] == seq(i, _ => 0)
      {
        a[i] := 0;
      }
    }

    /**
     * `renderFrame`: with the LCD off the picture is white; otherwise
     * every pixel gets the shade `PixelShade` gives it.
     */
    method RenderFrame()
      requires Valid()
      modifies this`blank, frame
      ensures State() == old(State())
      ensures blank == (memory[LCDC] & 0x80 == 0)
      ensures !blank ==> FrameDrawn()
      ensures Shown() == Render(State(), old(Shown()))
    {
      var lcdc := memory[LCDC];
      if lcdc & 0x80 == 0 {
        blank := true;
        return;
      }
      blank := false;
      ghost var m := memory[..];
      for y := 0 to HEIGHT
        invariant !blank && memory[..] == m
        invariant forall j, x :: 0 <= j < y && 0 <= x < WIDTH ==>
          frame[j, x] == PixelShade(m, scxPerLine[j], scyPerLine[j], j as byte, x as byte)
      {
        RenderLine(y);
      }
      DrawnShades();
    }

    /** One row of the frame: the shades of its pixels, then stored into the frame. */
    method RenderLine(y: int)
      requires Valid() && 0 <= y < HEIGHT
      modifies frame
      ensures forall x :: 0 <= x < WIDTH ==> frame[y, x] == PixelShade(memory[..], scxPerLine[y], scyPerLine[y], y as byte, x as byte)
      ensures forall j, x :: 0 <= j < HEIGHT && j != y && 0 <= x < WIDTH ==> frame[j, x] == old(frame[j, x])
    {
      ghost var m := memory[..];
      var row := LineShades(y);
      StoreRow(y, row);
      assert memory[..] == m;
      forall x | 0 <= x < WIDTH
        ensures frame[y, x] == PixelShade(m, scxPerLine[y], scyPerLine[y], y as byte, x as byte)
      {
        RowShadesAt(m, scxPerLine[y], scyPerLine[y], y as byte, 160, x);
      }
    }

    /** The pixel loop of `renderFrame` for row `y`. */
    method LineShades(y: int) returns (row: seq<int>)
      requires Valid() && 0 <= y < HEIGHT
      ensures row == RowShades(memory[..], scxPerLine[y], scyPerLine[y], y as byte, 160)
    {
      ghost var m := memory[..];
      var scx, scy := scxPerLine[y], scyPerLine[y];
      var line := y as byte;
      row := [];
      for x := 0 to WIDTH
        invariant row == RowShades(m, scx, scy, line, x)
      {
        var shade := RenderPixel(scx, scy, line, x as byte);
        assert RowShades(m, scx, scy, line, x + 1) == row + [shade];
        row := row + [shade];
      }
    }

    /** Row `y` of the frame takes the shades of `row`. */
    method StoreRow(y: int, row: seq<int>)
      requires Valid() && 0 <= y < HEIGHT && |row| == WIDTH
      modifies frame
      ensures forall x :: 0 <= x < WIDTH ==> frame[y, x] == row[x]
      ensures forall j, x :: 0 <= j < HEIGHT && j != y && 0 <= x < WIDTH ==> frame[j, x] == old(frame[j, x])
    {
      for x := 0 to WIDTH
        invariant forall i :: 0 <= i < x ==> frame[y, i] == row[i]
        invariant forall j, i :: 0 <= j < HEIGHT && j != y && 0 <= i < WIDTH ==> frame[j, i] == old(frame[j, i])
      {
        frame[y, x] := row[x];
      }
    }

    /** The body of the pixel loop of `renderFrame`. */
    method RenderPixel(scx: byte, scy: byte, y: byte, x: byte) returns (shade: int)
      requires Valid()
      ensures shade == PixelShade(memory[..], scx, scy, y, x)
    {
      var background := BackgroundIndex(memory[..], scx, scy, y, x);
      var lcdc := memory[LCDC];
      var sprite := None;
      if lcdc & 0x02 != 0 {
        sprite := ScanSprites(SpriteHeight(lcdc), y, x, background);
      }
      match sprite {
        case Some(s) => shade := s;
        case None => shade := Shade(memory[BGP], background);
      }
    }

    /** The sprite loop of `renderFrame`: the first sprite in OAM order with a visible colour decides. */
    method ScanSprites(height: int, y: byte, x: byte, background: int) returns (r: Option<int>)
      requires Valid() && (height == 8 || height == 16)
      ensures r == SpriteScan(memory[..], height, y, x, background, 0)
    {
      var sprite := 0;
      while sprite < SPRITES
        invariant 0 <= sprite <= SPRITES
        invariant SpriteScan(memory[..], height, y, x, background, sprite) == SpriteScan(memory[..], height, y, x, background, 0)
      {
        var c := SpriteColor(memory[..], height, sprite, y, x);
        if c != 0 {
          if Attributes(memory[..], sprite) & 0x80 != 0 && background != 0 {
            return None;
          }
          return Some(SpriteShade(memory[..], sprite, c));
        }
        sprite := sprite + 1;
      }
      return None;
    }
  }
}
