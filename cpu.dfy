/**
 * The CPU object of `cpu.js`: eight register fields, SP, PC, the HALT
 * and IME latches, and the memory unit it reads and writes. Each method
 * updates the fields the way the source does and is proved to reach the
 * state the functions of `CpuSpec` give.
 */
module Processor {
  import opened Bits
  import opened MemoryUnit
  import opened Instructions
  import opened CpuSpec

  class Cpu {
    var a: byte
    var f: byte
    var b: byte
    var c: byte
    var d: byte
    var e: byte
    var h: byte
    var l: byte
    var sp: word
    var pc: word
    var halted: bool
    var ime: bool
    /** The memory unit's state: every read and write of the CPU goes through it. */
    var mem: MemState

    /** The fields as one value. */
    function State(): CpuState
      reads this
    {
      CpuState(a, f, b, c, d, e, h, l, sp, pc, halted, ime, mem)
    }

    predicate Valid()
      reads this
    {
      State().Valid()
    }

    /** `new Cpu(mmu)`: the registers take their `reset` values. */
    constructor (memory: MemState)
      requires memory.Valid()
      ensures State() == CpuSpec.Reset(memory) && Valid()
    {
      mem := memory;
      new;
      Reset();
    }

    /** `reset`: the register values the boot ROM leaves behind. */
    method Reset()
      modifies this
      ensures State() == CpuSpec.Reset(old(mem))
    {
      Load(CpuSpec.Reset(mem));
    }

    /** The pair setters `BC = v`, `DE = v`, `HL = v`, `AF = v` and `SP = v`. */
    method SetPair(p: Pair, v: word)
      modifies this
      ensures State() == old(State()).Set16(p, v)
    {
      match p {
        case BC => SetBC(v);
        case DE => SetDE(v);
        case HL => SetHL(v);
        case AF => SetAF(v);
        case SP =>
          ghost var s0 := State();
          sp := v;
          assert State() == s0.Set16(SP, v);
      }
    }

    /** `set BC`: the high byte into B, the low byte into C. */
    method SetBC(v: word)
      modifies this
      ensures State() == old(State()).Set16(BC, v)
    {
      ghost var s0 := State();
      b, c := HighByte(v), LowByte(v);
      assert State() == s0.Set16(BC, v);
    }

    /** `set DE`: the high byte into D, the low byte into E. */
    method SetDE(v: word)
      modifies this
      ensures State() == old(State()).Set16(DE, v)
    {
      ghost var s0 := State();
      d, e := HighByte(v), LowByte(v);
      assert State() == s0.Set16(DE, v);
    }

    /** `set HL`: the high byte into H, the low byte into L. */
    method SetHL(v: word)
      modifies this
      ensures State() == old(State()).Set16(HL, v)
    {
      ghost var s0 := State();
      h, l := HighByte(v), LowByte(v);
      assert State() == s0.Set16(HL, v);
    }

    /** `set AF`: the high byte into A; only the upper nibble of the low byte reaches F. */
    method SetAF(v: word)
      modifies this
      ensures State() == old(State()).Set16(AF, v)
    {
      ghost var s0 := State();
      a, f := HighByte(v), LowByte(v) & 0xF0;
      assert State() == s0.Set16(AF, v);
    }

    /** `increaseProgramCounter`. */
    method IncreaseProgramCounter()
      modifies this
      ensures State() == old(State()).Advance(1)
    {
      ghost var s0 := State();
      pc := pc + 1;
      assert State() == s0.Advance(1);
    }

    /** `fetchImmediate8`: the byte at PC, then PC moves past it. */
    method FetchImmediate8() returns (v: byte)
      requires Valid()
      modifies this
      ensures v == old(State()).Immediate8() && State() == old(State()).Advance(1)
    {
      v := mem.Read(pc);
      IncreaseProgramCounter();
    }

    /** `fetchImmediate16`: the low byte, then the high byte. */
    method FetchImmediate16() returns (w: word)
      requires Valid()
      modifies this
      ensures w == old(State()).Immediate16() && State() == old(State()).Advance(2)
    {
      var lo := FetchImmediate8();
      var hi := FetchImmediate8();
      w := Word(hi, lo);
    }

    /** `push16bits`: the high byte at SP - 1, then the low byte at SP - 2. */
    method Push16(v: word)
      requires Valid()
      modifies this
      ensures State() == old(State()).Push(v)
    {
      PushByte(HighByte(v));
      PushByte(LowByte(v));
    }

    /** SP is decremented and `x` stored at the new SP. */
    method PushByte(x: byte)
      requires Valid()
      modifies this
      ensures State() == old(State()).PushByte(x)
    {
      ghost var s0 := State();
      sp := sp - 1;
      mem := mem.Write(sp, x);
      assert State() == s0.PushByte(x);
    }

    /** `pop16bits`: the low byte at SP, then the high byte at SP + 1. */
    method Pop16() returns (v: word)
      requires Valid()
      modifies this
      ensures v == old(State()).Top() && State() == old(State()).Popped()
    {
      var lo := PopByte();
      var hi := PopByte();
      v := Word(hi, lo);
    }

    /** The byte at SP; SP moves past it. */
    method PopByte() returns (x: byte)
      requires Valid()
      modifies this
      ensures x == old(State()).StackByte() && State() == old(State()).PopByte()
    {
      ghost var s0 := State();
      x := mem.Read(sp);
      sp := sp + 1;
      assert State() == s0.PopByte();
    }

    /**
     * `handleInterrupts`, restricted to the five interrupt sources: 20
     * when an interrupt was serviced, -1 otherwise.
     */
    method HandleInterrupts() returns (cycles: int)
      requires Valid()
      modifies this
      ensures var r := CpuSpec.HandleInterrupts(old(State()));
              State() == r.state && cycles == if r.serviced then 20 else -1
    {
      ghost var s0 := State();
      var ie := mem.Read(IE_ADDRESS);
      var iflag := mem.Read(IF_ADDRESS);
      var pending := ie & iflag & 0x1F;
      assert pending == Pending(s0) & 0x1F;
      if pending == 0 {
        return -1;
      }
      cycles := WakeAndDispatch(pending);
    }

    /** `handleInterrupts` once an interrupt is pending: HALT ends, then IME decides. */
    method WakeAndDispatch(pending: byte) returns (cycles: int)
      requires Valid() && pending == Pending(State()) & 0x1F && pending != 0
      modifies this
      ensures var r := CpuSpec.HandleInterrupts(old(State()));
              State() == r.state && cycles == if r.serviced then 20 else -1
    {
      ghost var s0 := State();
      Wake();
      if !ime {
        return -1;
      }
      DisableInterrupts();
      ServicedState(s0);
      ServiceLowest(pending);
      cycles := 20;
    }

    /** Leaves HALT. */
    method Wake()
      modifies this
      ensures State() == old(State()).(halted := false)
    {
      ghost var s0 := State();
      halted := false;
      assert State() == s0.(halted := false);
    }

    /** Clears the interrupt master enable. */
    method DisableInterrupts()
      modifies this
      ensures State() == old(State()).(ime := false)
    {
      ghost var s0 := State();
      ime := false;
      assert State() == s0.(ime := false);
    }

    /** The loop of `handleInterrupts`: the lowest of the pending bits 0-4 is serviced. */
    method ServiceLowest(pending: byte)
      requires Valid() && PendingFrom(pending, 0)
      modifies this
      ensures State() == Service(old(State()), LowestFrom(pending, 0))
    {
      var i: BitIndex := 0;
      while !TestBit(pending, i)
        invariant i <= LowestFrom(pending, 0)
        decreases 5 - i
      {
        i := i + 1;
      }
      ServiceInterrupt(i);
    }

    /** The body of the loop of `handleInterrupts` for the pending interrupt `i`. */
    method ServiceInterrupt(i: BitIndex)
      requires Valid() && i < 5
      modifies this
      ensures State() == Service(old(State()), i)
    {
      ghost var s0 := State();
      AcknowledgeInterrupt(i);
      Push16(pc);
      pc := Vector(i);
      assert State() == Service(s0, i);
    }

    /** Clears bit `i` of IF. */
    method AcknowledgeInterrupt(i: BitIndex)
      requires Valid()
      modifies this
      ensures State() == Acknowledge(old(State()), i)
    {
      ghost var s0 := State();
      mem := mem.Write(IF_ADDRESS, ClearBit(mem.Read(IF_ADDRESS), i));
      assert State() == Acknowledge(s0, i);
    }

    /** Stores a whole state into the fields. */
    method Load(t: CpuState)
      modifies this
      ensures State() == t
    {
      LoadAccumulatorBc(t);
      LoadDeHl(t);
      LoadControl(t);
    }

    method LoadAccumulatorBc(t: CpuState)
      modifies this
      ensures State() == old(State()).(a := t.a, f := t.f, b := t.b, c := t.c)
    {
      ghost var s0 := State();
      a, f, b, c := t.a, t.f, t.b, t.c;
      assert State() == s0.(a := t.a, f := t.f, b := t.b, c := t.c);
    }

    method LoadDeHl(t: CpuState)
      modifies this
      ensures State() == old(State()).(d := t.d, e := t.e, h := t.h, l := t.l)
    {
      ghost var s0 := State();
      d, e, h, l := t.d, t.e, t.h, t.l;
      assert State() == s0.(d := t.d, e := t.e, h := t.h, l := t.l);
    }

    method LoadControl(t: CpuState)
      modifies this
      ensures State() == old(State()).(sp := t.sp, pc := t.pc, halted := t.halted, ime := t.ime, mem := t.mem)
    {
      ghost var s0 := State();
      sp, pc, halted, ime, mem := t.sp, t.pc, t.halted, t.ime, t.mem;
      assert State() == s0.(sp := t.sp, pc := t.pc, halted := t.halted, ime := t.ime, mem := t.mem);
    }

    /**
     * `executeOperation(op)` with PC already past the opcode: the case's
     * cycle count, or `implemented` false where the source throws.
     */
    method ExecuteOperation(op: byte) returns (cycles: nat, implemented: bool)
      requires Valid()
      modifies this
      ensures Valid()
      ensures var r := Execute(old(State()), op);
              State() == r.state && implemented == r.Executed? && (r.Executed? ==> cycles == r.cycles)
    {
      var r := Execute(State(), op);
      Load(r.state);
      implemented := r.Executed?;
      cycles := if r.Executed? then r.cycles else 0;
    }

    /** `executeStep`: interrupts first, then HALT, then one opcode. */
    method ExecuteStep() returns (cycles: nat, implemented: bool)
      requires Valid()
      modifies this
      ensures Valid()
      ensures var r := Step(old(State()));
              State() == r.state && implemented == r.Executed? && (r.Executed? ==> cycles == r.cycles)
    {
      var interruptCycles := HandleInterrupts();
      if interruptCycles >= 0 {
        return 20, true;
      }
      if halted {
        return 4, true;
      }
      var operation := mem.Read(pc);
      IncreaseProgramCounter();
      cycles, implemented := ExecuteOperation(operation);
    }
  }
}
