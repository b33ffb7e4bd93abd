/**
 * The LR35902 core as a specification: the register file, the flag byte,
 * the memory unit's state, and pure functions giving the state and the
 * cycle count after each case of `executeOperation` and
 * `executeCbOperation`, after interrupt dispatch and after one
 * `executeStep`. The class `Cpu` updates its fields step by step and is
 * proved to reach exactly these states.
 */
module CpuSpec {
  import opened Bits
  import opened Alu
  import opened MemoryUnit
  import opened Instructions

  /** The interrupt-enable register IE. */
  const IE_ADDRESS: word := 0xFFFF

  /** The eight registers, SP, PC, the HALT and IME latches and the memory unit. */
  datatype CpuState = CpuState(
    a: byte, f: byte, b: byte, c: byte, d: byte, e: byte, h: byte, l: byte,
    sp: word, pc: word, halted: bool, ime: bool, mem: MemState)
  {
    /** The memory unit is well formed and the low nibble of F is 0. */
    predicate Valid()
    {
      mem.Valid() && f & 0x0F == 0
    }

    /** The register pairs: `(hi << 8) | lo`, and SP itself. */
    function Get16(p: Pair): word
    {
      match p
      case BC => Word(b, c)
      case DE => Word(d, e)
      case HL => Word(h, l)
      case SP => sp
      case AF => Word(a, f)
    }

    /** The pair setters: high byte, then low byte; the AF setter keeps only bits 7-4 of F. */
    function Set16(p: Pair, v: word): (t: CpuState)
      ensures p != AF ==> t.Get16(p) == v
      ensures p == AF ==> t.a == HighByte(v) && t.f == LowByte(v) & 0xF0
      ensures Valid() ==> t.Valid()
      ensures t.mem == mem && t.pc == pc && t.halted == halted && t.ime == ime
    {
      match p
      case BC => this.(b := HighByte(v), c := LowByte(v))
      case DE => this.(d := HighByte(v), e := LowByte(v))
      case HL => this.(h := HighByte(v), l := LowByte(v))
      case SP => this.(sp := v)
      case AF => this.(a := HighByte(v), f := LowByte(v) & 0xF0)
    }

    /** An 8-bit operand; (HL) is `read8bits(HL)`. */
    function Get8(r: Reg): byte
      requires Valid()
    {
      match r
      case B => b
      case C => c
      case D => d
      case E => e
      case H => h
      case L => l
      case AtHL => mem.Read(Word(h, l))
      case A => a
    }

    /** Stores an 8-bit operand; (HL) is `write8bits(HL, v)`. */
    function Set8(r: Reg, v: byte): (t: CpuState)
      requires Valid()
      ensures t.Valid()
      ensures r != AtHL ==> t.Get8(r) == v && t.mem == mem
      ensures t == this.(a := t.a, b := t.b, c := t.c, d := t.d, e := t.e, h := t.h, l := t.l, mem := t.mem)
    {
      match r
      case B => this.(b := v)
      case C => this.(c := v)
      case D => this.(d := v)
      case E => this.(e := v)
      case H => this.(h := v)
      case L => this.(l := v)
      case AtHL => this.(mem := mem.Write(Word(h, l), v))
      case A => this.(a := v)
    }

    /** The flags held in F. */
    function Status(): Flags
    {
      Unpack(f)
    }

    /** F after the four flag setters. */
    function WithFlags(flags: Flags): (t: CpuState)
      ensures t.Status() == flags
      ensures Valid() ==> t.Valid()
    {
      this.(f := Pack(f, flags))
    }

    /** The condition of a conditional jump, call or return. */
    predicate Holds(cond: Cond)
    {
      match cond
      case NotZero => !ZeroFlag(f)
      case Zero => ZeroFlag(f)
      case NoCarry => !CarryFlag(f)
      case Carry => CarryFlag(f)
    }

    /** The byte `fetchImmediate8` returns: the one at PC. */
    function Immediate8(): byte
      requires Valid()
    {
      mem.Read(pc)
    }

    /** The word `fetchImmediate16` returns: the byte at PC, then the high byte at PC + 1. */
    function Immediate16(): (w: word)
      requires Valid()
      ensures LowByte(w) == mem.Read(pc) && HighByte(w) == mem.Read(pc + 1)
    {
      Word(mem.Read(pc + 1), mem.Read(pc))
    }

    /** `increaseProgramCounter` applied `n` times. */
    function Advance(n: word): CpuState
    {
      this.(pc := pc + n)
    }

    /** One half of `push16bits`: SP is decremented and `x` stored at the new SP. */
    function PushByte(x: byte): (t: CpuState)
      requires Valid()
      ensures t.Valid()
      ensures t == this.(sp := sp - 1, mem := t.mem)
    {
      this.(sp := sp - 1, mem := mem.Write(sp - 1, x))
    }

    /** `push16bits(v)`: the high byte, then the low byte. */
    function Push(v: word): (t: CpuState)
      requires Valid()
      ensures t.Valid() && t.sp == sp - 2
      ensures t == this.(sp := sp - 2, mem := t.mem)
    {
      PushByte(HighByte(v)).PushByte(LowByte(v))
    }

    /** The byte at SP, the one a pop reads next. */
    function StackByte(): byte
      requires Valid()
    {
      mem.Read(sp)
    }

    /** One half of `pop16bits`: SP moves past the byte it read. */
    function PopByte(): (t: CpuState)
      ensures Valid() ==> t.Valid()
      ensures t.sp == sp + 1
    {
      this.(sp := sp + 1)
    }

    /** The word `pop16bits` returns: the low byte at SP, the high byte at SP + 1. */
    function Top(): (w: word)
      requires Valid()
      ensures LowByte(w) == mem.Read(sp) && HighByte(w) == mem.Read(sp + 1)
    {
      Word(PopByte().StackByte(), StackByte())
    }

    /** The state after `pop16bits`: SP moved up by two. */
    function Popped(): (t: CpuState)
      ensures Valid() ==> t.Valid()
      ensures t == this.(sp := sp + 2)
    {
      PopByte().PopByte()
    }
  }

  /** `reset`: the register values the boot ROM leaves, SP 0xFFFE, PC 0x0100, not halted, IME clear. */
  function Reset(mem: MemState): (s: CpuState)
    ensures s.f == 0xB0 && s.sp == 0xFFFE && s.pc == 0x0100 && !s.halted && !s.ime
    ensures mem.Valid() ==> s.Valid()
  {
    CpuState(0x01, 0xB0, 0x00, 0x13, 0x00, 0xD8, 0x01, 0x4D, 0xFFFE, 0x0100, false, false, mem)
  }

  /** The state after an opcode and the cycles it takes, or the opcode the source throws on. */
  datatype Outcome =
    | Executed(state: CpuState, cycles: nat)
    | Unimplemented(state: CpuState, opcode: byte)

  /** Cycle cost of a register form and its (HL) form. */
  function Cost(r: Reg, register: nat, indirect: nat): nat
  {
    if r == AtHL then indirect else register
  }

  /** The result and flags of an accumulator operation; CP leaves the accumulator as it is. */
  function AluResult(k: AluKind, x: byte, v: byte, carry: bool): AluOut
  {
    match k
    case AddA => Add(x, v)
    case AdcA => Adc(x, v, carry)
    case SubA => Sub(x, v)
    case SbcA => Sbc(x, v, carry)
    case AndA => And(x, v)
    case XorA => Xor(x, v)
    case OrA => Or(x, v)
    case CpA => AluOut(x, Cp(x, v))
  }

  /** The accumulator operations: A takes the result and F the flags. */
  function AluStep(s: CpuState, k: AluKind, v: byte): (t: CpuState)
    requires s.Valid()
    ensures t.Valid() && t.mem == s.mem && t.pc == s.pc && t.sp == s.sp
  {
    var o := AluResult(k, s.a, v, CarryFlag(s.f));
    s.(a := o.value).WithFlags(o.flags)
  }

  /** The address `LD (rr),A` and `LD A,(rr)` use. */
  function IndirectAddress(s: CpuState, via: Indirect): word
  {
    match via
    case ViaBC => s.Get16(BC)
    case ViaDE => s.Get16(DE)
    case ViaHLInc | ViaHLDec => s.Get16(HL)
  }

  /** The HL update after `LD (HL+),A`, `LD (HL-),A` and their loads. */
  function StepHl(s: CpuState, via: Indirect): (t: CpuState)
    ensures s.Valid() ==> t.Valid()
    ensures t.mem == s.mem && t.a == s.a && t.pc == s.pc
  {
    match via
    case ViaHLInc => s.Set16(HL, s.Get16(HL) + 1)
    case ViaHLDec => s.Set16(HL, s.Get16(HL) - 1)
    case _ => s
  }

  /** `LD r,r'`: 4 cycles, 8 when either operand is (HL). */
  function LoadRegister(s: CpuState, dst: Reg, src: Reg): (r: Outcome)
    requires s.Valid()
    ensures r.Executed? && r.state.Valid()
  {
    Executed(s.Set8(dst, s.Get8(src)), if dst == AtHL || src == AtHL then 8 else 4)
  }

  /** `LD r,d8`: the immediate byte; 8 cycles, 12 into (HL). */
  function LoadImmediate(s: CpuState, dst: Reg): (r: Outcome)
    requires s.Valid()
    ensures r.Executed? && r.state.Valid()
  {
    Executed(s.Advance(1).Set8(dst, s.Immediate8()), Cost(dst, 8, 12))
  }

  /** `LD rr,d16`: the immediate word; 12 cycles. */
  function LoadPairImmediate(s: CpuState, p: Pair): (r: Outcome)
    requires s.Valid()
    ensures r.Executed? && r.state.Valid()
  {
    Executed(s.Advance(2).Set16(p, s.Immediate16()), 12)
  }

  /** `LD SP,HL`: 8 cycles. */
  function LoadSpHl(s: CpuState): (r: Outcome)
    requires s.Valid()
    ensures r.Executed? && r.state.Valid()
  {
    Executed(s.(sp := s.Get16(HL)), 8)
  }

  /** `LD HL,SP+r8`: HL takes SP plus the signed immediate, the flags those of `AddSigned`; 12 cycles. */
  function LoadHlSpOffset(s: CpuState): (r: Outcome)
    requires s.Valid()
    ensures r.Executed? && r.state.Valid()
  {
    var o := AddSigned(s.sp, s.Immediate8());
    Executed(s.Advance(1).WithFlags(o.flags).Set16(HL, o.value), 12)
  }

  /** `LD (BC),A`, `LD (DE),A`, `LD (HL+),A`, `LD (HL-),A`: 8 cycles. */
  function StoreIndirect(s: CpuState, via: Indirect): (r: Outcome)
    requires s.Valid()
    ensures r.Executed? && r.state.Valid()
  {
    Executed(StepHl(s.(mem := s.mem.Write(IndirectAddress(s, via), s.a)), via), 8)
  }

  /** `LD A,(BC)`, `LD A,(DE)`, `LD A,(HL+)`, `LD A,(HL-)`: 8 cycles. */
  function LoadIndirect(s: CpuState, via: Indirect): (r: Outcome)
    requires s.Valid()
    ensures r.Executed? && r.state.Valid()
  {
    Executed(StepHl(s.(a := s.mem.Read(IndirectAddress(s, via))), via), 8)
  }

  /** `LD (C),A` (8 cycles) and `LDH (a8),A` (12 cycles): A to 0xFF00 + C or 0xFF00 + the immediate. */
  function StoreHigh(s: CpuState, viaC: bool): (r: Outcome)
    requires s.Valid()
    ensures r.Executed? && r.state.Valid()
  {
    if viaC then Executed(s.(mem := s.mem.Write(Word(0xFF, s.c), s.a)), 8)
    else Executed(s.Advance(1).(mem := s.mem.Write(Word(0xFF, s.Immediate8()), s.a)), 12)
  }

  /** `LD A,(C)` (8 cycles) and `LDH A,(a8)` (12 cycles). */
  function LoadHigh(s: CpuState, viaC: bool): (r: Outcome)
    requires s.Valid()
    ensures r.Executed? && r.state.Valid()
  {
    if viaC then Executed(s.(a := s.mem.Read(Word(0xFF, s.c))), 8)
    else Executed(s.Advance(1).(a := s.mem.Read(Word(0xFF, s.Immediate8()))), 12)
  }

  /** `LD (a16),A`: 16 cycles. */
  function StoreAbsolute(s: CpuState): (r: Outcome)
    requires s.Valid()
    ensures r.Executed? && r.state.Valid()
  {
    Executed(s.Advance(2).(mem := s.mem.Write(s.Immediate16(), s.a)), 16)
  }

  /** `LD A,(a16)`: 16 cycles. */
  function LoadAbsolute(s: CpuState): (r: Outcome)
    requires s.Valid()
    ensures r.Executed? && r.state.Valid()
  {
    Executed(s.Advance(2).(a := s.mem.Read(s.Immediate16())), 16)
  }

  /** `LD (a16),SP`: `write16bits` of SP at the immediate address; 20 cycles. */
  function StoreSp(s: CpuState): (r: Outcome)
    requires s.Valid()
    ensures r.Executed? && r.state.Valid()
  {
    Executed(s.Advance(2).(mem := s.mem.Write16(s.Immediate16(), s.sp)), 20)
  }

  /** `ADD`, `ADC`, `SUB`, `SBC`, `AND`, `XOR`, `OR`, `CP` with an operand: 4 cycles, 8 on (HL). */
  function AluRegister(s: CpuState, k: AluKind, src: Reg): (r: Outcome)
    requires s.Valid()
    ensures r.Executed? && r.state.Valid()
  {
    Executed(AluStep(s, k, s.Get8(src)), Cost(src, 4, 8))
  }

  /** The same eight operations with the immediate byte: 8 cycles. */
  function AluImmediate(s: CpuState, k: AluKind): (r: Outcome)
    requires s.Valid()
    ensures r.Executed? && r.state.Valid()
  {
    Executed(AluStep(s.Advance(1), k, s.Immediate8()), 8)
  }

  /** `INC r`: 4 cycles, 12 on (HL); the carry flag is kept. */
  function Increment(s: CpuState, reg: Reg): (r: Outcome)
    requires s.Valid()
    ensures r.Executed? && r.state.Valid()
  {
    var o := Inc(s.Get8(reg), CarryFlag(s.f));
    Executed(s.WithFlags(o.flags).Set8(reg, o.value), Cost(reg, 4, 12))
  }

  /** `DEC r`: 4 cycles, 12 on (HL); the carry flag is kept. */
  function Decrement(s: CpuState, reg: Reg): (r: Outcome)
    requires s.Valid()
    ensures r.Executed? && r.state.Valid()
  {
    var o := Dec(s.Get8(reg), CarryFlag(s.f));
    Executed(s.WithFlags(o.flags).Set8(reg, o.value), Cost(reg, 4, 12))
  }

  /** `INC rr`: 8 cycles, no flag changes. */
  function IncrementPair(s: CpuState, p: Pair): (r: Outcome)
    requires s.Valid()
    ensures r.Executed? && r.state.Valid()
  {
    Executed(s.Set16(p, s.Get16(p) + 1), 8)
  }

  /** `DEC rr`: 8 cycles, no flag changes. */
  function DecrementPair(s: CpuState, p: Pair): (r: Outcome)
    requires s.Valid()
    ensures r.Executed? && r.state.Valid()
  {
    Executed(s.Set16(p, s.Get16(p) - 1), 8)
  }

  /** `ADD HL,rr`: Z kept, the rest from `Add16`; 8 cycles. */
  function AddToHl(s: CpuState, p: Pair): (r: Outcome)
    requires s.Valid()
    ensures r.Executed? && r.state.Valid()
  {
    var o := Add16(s.Get16(HL), s.Get16(p), ZeroFlag(s.f));
    Executed(s.WithFlags(o.flags).Set16(HL, o.value), 8)
  }

  /** `ADD SP,r8`: 16 cycles. */
  function AddToSp(s: CpuState): (r: Outcome)
    requires s.Valid()
    ensures r.Executed? && r.state.Valid()
  {
    var o := AddSigned(s.sp, s.Immediate8());
    Executed(s.Advance(1).WithFlags(o.flags).(sp := o.value), 16)
  }

  /** `RLCA`, `RRCA`, `RLA`, `RRA`: Z is always cleared; 4 cycles. */
  function RotateAccumulator(s: CpuState, kind: ShiftKind): (r: Outcome)
    requires s.Valid()
    requires kind in {Rlc, Rl, Rrc, Rr}
    ensures r.Executed? && r.state.Valid()
  {
    var o := RotateA(kind, s.a, CarryFlag(s.f));
    Executed(s.(a := o.value).WithFlags(o.flags), 4)
  }

  /** `DAA`, `CPL`, `SCF` and `CCF`: 4 cycles each. */
  function AdjustAccumulator(s: CpuState, i: Instr): (r: Outcome)
    requires s.Valid()
    requires i.DecimalAdjust? || i.Complement? || i.SetCarry? || i.ComplementCarry?
    ensures r.Executed? && r.state.Valid()
  {
    var flags := s.Status();
    match i
    case DecimalAdjust => var o := Daa(s.a, flags); Executed(s.(a := o.value).WithFlags(o.flags), 4)
    case Complement => Executed(s.(a := !s.a).WithFlags(flags.(n := true, h := true)), 4)
    case SetCarry => Executed(s.WithFlags(flags.(n := false, h := false, c := true)), 4)
    case ComplementCarry => Executed(s.WithFlags(flags.(n := false, h := false, c := !flags.c)), 4)
  }

  /** `condition` holds, or there is none. */
  predicate Taken(s: CpuState, cond: Option<Cond>)
  {
    match cond
    case None => true
    case Some(c) => s.Holds(c)
  }

  /** `JP a16` (16 cycles) and `JP cc,a16` (16 taken, 12 not). */
  function Jump(s: CpuState, cond: Option<Cond>): (r: Outcome)
    requires s.Valid()
    ensures r.Executed? && r.state.Valid()
  {
    var taken := Taken(s, cond);
    var next := s.Advance(2);
    Executed(next.(pc := if taken then s.Immediate16() else next.pc), if taken then 16 else 12)
  }

  /** `JP (HL)`: 4 cycles. */
  function JumpHl(s: CpuState): (r: Outcome)
    requires s.Valid()
    ensures r.Executed? && r.state.Valid()
  {
    Executed(s.(pc := s.Get16(HL)), 4)
  }

  /** `JR r8` and `JR cc,r8`: PC past the offset plus the signed offset; 12 cycles taken, 8 not. */
  function JumpRelative(s: CpuState, cond: Option<Cond>): (r: Outcome)
    requires s.Valid()
    ensures r.Executed? && r.state.Valid()
  {
    var taken := Taken(s, cond);
    var next := s.Advance(1);
    Executed(next.(pc := if taken then next.pc + SignExtend(s.Immediate8()) else next.pc), if taken then 12 else 8)
  }

  /** `CALL a16` and `CALL cc,a16`: push the address after the operand, then jump; 24 taken, 12 not. */
  function CallRoutine(s: CpuState, cond: Option<Cond>): (r: Outcome)
    requires s.Valid()
    ensures r.Executed? && r.state.Valid()
  {
    var next := s.Advance(2);
    if Taken(s, cond) then Executed(next.Push(next.pc).(pc := s.Immediate16()), 24) else Executed(next, 12)
  }

  /** `RET` (16 cycles) and `RET cc` (20 taken, 8 not): PC from `pop16bits`. */
  function Return(s: CpuState, cond: Option<Cond>): (r: Outcome)
    requires s.Valid()
    ensures r.Executed? && r.state.Valid()
  {
    if Taken(s, cond) then Executed(s.Popped().(pc := s.Top()), if cond.None? then 16 else 20)
    else Executed(s, 8)
  }

  /** `RETI`: `RET` that also sets IME; 16 cycles. */
  function ReturnEnable(s: CpuState): (r: Outcome)
    requires s.Valid()
    ensures r.Executed? && r.state.Valid()
  {
    Executed(s.Popped().(pc := s.Top(), ime := true), 16)
  }

  /** `RST n`: push PC, jump to the fixed target; 16 cycles. */
  function Restart(s: CpuState, target: word): (r: Outcome)
    requires s.Valid()
    ensures r.Executed? && r.state.Valid()
  {
    Executed(s.Push(s.pc).(pc := target), 16)
  }

  /** `PUSH rr`: 16 cycles. */
  function PushPair(s: CpuState, p: Pair): (r: Outcome)
    requires s.Valid()
    ensures r.Executed? && r.state.Valid()
  {
    Executed(s.Push(s.Get16(p)), 16)
  }

  /** `POP rr`: 12 cycles; `POP AF` keeps only bits 7-4 of F. */
  function PopPair(s: CpuState, p: Pair): (r: Outcome)
    requires s.Valid()
    ensures r.Executed? && r.state.Valid()
  {
    Executed(s.Popped().Set16(p, s.Top()), 12)
  }

  /** The CB-prefix table: rotates, shifts, BIT, RES and SET take 8 cycles, 16 on (HL). */
  function ExecuteCb(s: CpuState, op: byte): (r: Outcome)
    requires s.Valid()
    ensures r.Executed? && r.state.Valid()
  {
    var carry := CarryFlag(s.f);
    match DecodeCb(op)
    case ShiftOp(kind, reg) =>
      var o := Shift(kind, s.Get8(reg), carry);
      Executed(s.WithFlags(o.flags).Set8(reg, o.value), Cost(reg, 8, 16))
    case TestBitOp(bit, reg) => Executed(s.WithFlags(BitFlags(s.Get8(reg), bit, carry)), Cost(reg, 8, 16))
    case ResetBitOp(bit, reg) => Executed(s.Set8(reg, ClearBit(s.Get8(reg), bit)), Cost(reg, 8, 16))
    case SetBitOp(bit, reg) => Executed(s.Set8(reg, SetBit(s.Get8(reg), bit)), Cost(reg, 8, 16))
  }

  /**
   * NOP changes nothing; HALT sets the halt latch; STOP sets it and skips
   * the byte after the opcode; DI and EI clear and set IME; each takes 4
   * cycles. The CB prefix runs the CB table on the byte at PC, and the
   * opcodes without a case are reported with the state untouched.
   */
  function ExecuteMisc(s: CpuState, i: Instr, op: byte): (r: Outcome)
    requires s.Valid()
    requires i.Nop? || i.Stop? || i.Halt? || i.Di? || i.Ei? || i.Prefix? || i.Unimplemented?
    ensures r.state.Valid()
    ensures r.Unimplemented? <==> i.Unimplemented?
    ensures r.Unimplemented? ==> r.state == s && r.opcode == op
    ensures i.Nop? ==> r == Executed(s, 4)
    ensures i.Halt? ==> r == Executed(s.(halted := true), 4)
    ensures i.Stop? ==> r == Executed(s.(halted := true, pc := s.pc + 1), 4)
    ensures i.Di? ==> r == Executed(s.(ime := false), 4)
    ensures i.Ei? ==> r == Executed(s.(ime := true), 4)
    ensures i.Prefix? ==> r == ExecuteCb(s.(pc := s.pc + 1), s.mem.Read(s.pc))
  {
    match i
    case Nop => Executed(s, 4)
    case Stop => Executed(s.(halted := true).Advance(1), 4)
    case Halt => Executed(s.(halted := true), 4)
    case Di => Executed(s.(ime := false), 4)
    case Ei => Executed(s.(ime := true), 4)
    case Prefix => ExecuteCb(s.Advance(1), s.Immediate8())
    case Unimplemented => Outcome.Unimplemented(s, op)
  }

  /** The register loads. */
  function ExecuteLoad(s: CpuState, i: Instr): (r: Outcome)
    requires s.Valid()
    requires i.Ld? || i.LdImm? || i.LdPairImm? || i.LdSpHl? || i.LdHlSpOffset?
    ensures r.Executed? && r.state.Valid()
  {
    match i
    case Ld(dst, src) => LoadRegister(s, dst, src)
    case LdImm(dst) => LoadImmediate(s, dst)
    case LdPairImm(p) => LoadPairImmediate(s, p)
    case LdSpHl => LoadSpHl(s)
    case LdHlSpOffset => LoadHlSpOffset(s)
  }

  /** The accumulator's loads and stores through memory, and `LD (a16),SP`. */
  function ExecuteTransfer(s: CpuState, i: Instr): (r: Outcome)
    requires s.Valid()
    requires i.StoreA? || i.LoadA? || i.StoreAHigh? || i.LoadAHigh? || i.StoreAAbsolute? || i.LoadAAbsolute? || i.StoreSp?
    ensures r.Executed? && r.state.Valid()
  {
    match i
    case StoreA(via) => StoreIndirect(s, via)
    case LoadA(via) => LoadIndirect(s, via)
    case StoreAHigh(viaC) => StoreHigh(s, viaC)
    case LoadAHigh(viaC) => LoadHigh(s, viaC)
    case StoreAAbsolute => StoreAbsolute(s)
    case LoadAAbsolute => LoadAbsolute(s)
    case StoreSp => StoreSp(s)
  }

  /** Arithmetic and logic on A, the increments and decrements, and the 16-bit additions. */
  function ExecuteArithmetic(s: CpuState, i: Instr): (r: Outcome)
    requires s.Valid()
    requires i.AluReg? || i.AluImm? || i.IncReg? || i.DecReg? || i.IncPair? || i.DecPair? || i.AddHl? || i.AddSpOffset?
    ensures r.Executed? && r.state.Valid()
  {
    match i
    case AluReg(k, src) => AluRegister(s, k, src)
    case AluImm(k) => AluImmediate(s, k)
    case IncReg(reg) => Increment(s, reg)
    case DecReg(reg) => Decrement(s, reg)
    case IncPair(p) => IncrementPair(s, p)
    case DecPair(p) => DecrementPair(s, p)
    case AddHl(p) => AddToHl(s, p)
    case AddSpOffset => AddToSp(s)
  }

  /** Jumps, calls, returns, restarts, PUSH and POP. */
  function ExecuteControl(s: CpuState, i: Instr): (r: Outcome)
    requires s.Valid()
    requires i.Jp? || i.JpHl? || i.Jr? || i.Call? || i.Ret? || i.Reti? || i.Rst? || i.Push? || i.Pop?
    ensures r.Executed? && r.state.Valid()
  {
    match i
    case Jp(cond) => Jump(s, cond)
    case JpHl => JumpHl(s)
    case Jr(cond) => JumpRelative(s, cond)
    case Call(cond) => CallRoutine(s, cond)
    case Ret(cond) => Return(s, cond)
    case Reti => ReturnEnable(s)
    case Rst(target) => Restart(s, target)
    case Push(p) => PushPair(s, p)
    case Pop(p) => PopPair(s, p)
  }

  /**
   * `executeOperation(op)` on a state whose PC has already moved past the
   * opcode: the case's state and cycle count, or `Unimplemented` for an
   * opcode without a case.
   */
  function Execute(s: CpuState, op: byte): (r: Outcome)
    requires s.Valid()
    ensures r.state.Valid()
    ensures r.Unimplemented? <==> Decode(op).Unimplemented?
    ensures r.Unimplemented? ==> r.state == s && r.opcode == op
  {
    var i := Decode(op);
    match i
    case Nop | Stop | Halt | Di | Ei | Prefix | Unimplemented => ExecuteMisc(s, i, op)
    case Ld(_, _) | LdImm(_) | LdPairImm(_) | LdSpHl | LdHlSpOffset => ExecuteLoad(s, i)
    case StoreA(_) | LoadA(_) | StoreAHigh(_) | LoadAHigh(_) | StoreAAbsolute | LoadAAbsolute | StoreSp => ExecuteTransfer(s, i)
    case AluReg(_, _) | AluImm(_) | IncReg(_) | DecReg(_) | IncPair(_) | DecPair(_) | AddHl(_) | AddSpOffset => ExecuteArithmetic(s, i)
    case RotateAcc(kind) => if kind in {Rlc, Rl, Rrc, Rr} then RotateAccumulator(s, kind) else Executed(s, 4)
    case DecimalAdjust | Complement | SetCarry | ComplementCarry => AdjustAccumulator(s, i)
    case Jp(_) | JpHl | Jr(_) | Call(_) | Ret(_) | Reti | Rst(_) | Push(_) | Pop(_) => ExecuteControl(s, i)
  }

  /** The result of `handleInterrupts`: the new state, and whether an interrupt was serviced (20 cycles) or not (-1). */
  datatype Dispatch = Dispatch(state: CpuState, serviced: bool)

  /** `IE & IF`: the interrupts both requested and enabled. */
  function Pending(s: CpuState): byte
    requires s.Valid()
  {
    s.mem.Read(IE_ADDRESS) & s.mem.Read(IF_ADDRESS)
  }

  /** The handler address of interrupt `i`: VBlank 0x40, LCD STAT 0x48, timer 0x50, serial 0x58, joypad 0x60. */
  function Vector(i: BitIndex): (v: word)
    requires i < 5
    ensures v as int == 0x40 + 8 * i
  {
    0x40 + 8 * (i as word)
  }

  /** One of bits `i`..4 of `p` is set. */
  predicate PendingFrom(p: byte, i: nat)
  {
    exists j: BitIndex :: i <= j < 5 && TestBit(p, j)
  }

  /** One of the five interrupt bits is set exactly when `p & 0x1F` is not 0. */
  lemma InterruptBits(p: byte)
    ensures p & 0x1F != 0 <==> PendingFrom(p, 0)
  {
    if p & 0x1F != 0 {
      var j: BitIndex := if TestBit(p, 0) then 0 else if TestBit(p, 1) then 1 else if TestBit(p, 2) then 2
                         else if TestBit(p, 3) then 3 else 4;
      assert TestBit(p, j);
    }
  }

  /** The first of bits `i`..4 of `p` that is set: the bit the servicing loop stops at. */
  function LowestFrom(p: byte, i: nat): (j: BitIndex)
    requires i < 5 && PendingFrom(p, i)
    ensures i <= j < 5 && TestBit(p, j)
    ensures forall k: BitIndex :: i <= k < j ==> !TestBit(p, k)
    decreases 5 - i
  {
    if TestBit(p, i) then i else LowestFrom(p, i + 1)
  }

  /**
   * Servicing interrupt `i`: IF loses bit `i`, the current PC is pushed
   * and PC jumps to the interrupt's vector.
   */
  function Service(s: CpuState, i: BitIndex): (t: CpuState)
    requires s.Valid() && i < 5
    ensures t.Valid() && t.pc == Vector(i) && t.sp == s.sp - 2
    ensures t.halted == s.halted && t.ime == s.ime
  {
    Acknowledge(s, i).Push(s.pc).(pc := Vector(i))
  }

  /** IF with bit `i` cleared: `_if & ~(1 << i)` written back to 0xFF0F. */
  function Acknowledge(s: CpuState, i: BitIndex): (t: CpuState)
    requires s.Valid()
    ensures t.Valid() && t == s.(mem := t.mem)
  {
    s.(mem := s.mem.Write(IF_ADDRESS, ClearBit(s.mem.Read(IF_ADDRESS), i)))
  }

  /**
   * `handleInterrupts` as written: any pending bit, 0-7, ends HALT, and
   * with IME set clears IME before the loop looks for one of bits 0-4.
   */
  function HandleInterruptsAsWritten(s: CpuState): (d: Dispatch)
    requires s.Valid()
    ensures d.state.Valid()
    ensures d.serviced ==> s.ime && Pending(s) & 0x1F != 0
  {
    var pending := Pending(s);
    if pending == 0 then Dispatch(s, false)
    else if !s.ime then Dispatch(s.(halted := false), false)
    else if pending & 0x1F == 0 then Dispatch(s.(halted := false, ime := false), false)
    else
      InterruptBits(pending);
      Dispatch(Service(s.(halted := false, ime := false), LowestFrom(pending, 0)), true)
  }

  /**
   * `handleInterrupts` restricted to the five interrupt sources: with
   * `IE & IF & 0x1F` not 0, HALT ends, and if IME is set it is cleared and
   * the lowest pending interrupt is serviced.
   */
  function HandleInterrupts(s: CpuState): (d: Dispatch)
    requires s.Valid()
    ensures d.state.Valid()
    ensures d.serviced <==> s.ime && Pending(s) & 0x1F != 0
    ensures !d.serviced ==> d.state == s.(halted := s.halted && Pending(s) & 0x1F == 0)
  {
    var pending := Pending(s) & 0x1F;
    if pending == 0 then Dispatch(s, false)
    else if !s.ime then Dispatch(s.(halted := false), false)
    else
      InterruptBits(pending);
      Dispatch(Service(s.(halted := false, ime := false), LowestFrom(pending, 0)), true)
  }

  /** The state `handleInterrupts` leaves when it services an interrupt. */
  lemma ServicedState(s: CpuState)
    requires s.Valid() && s.ime && Pending(s) & 0x1F != 0
    ensures PendingFrom(Pending(s) & 0x1F, 0)
    ensures HandleInterrupts(s).state == Service(s.(halted := false, ime := false), LowestFrom(Pending(s) & 0x1F, 0))
  {
    InterruptBits(Pending(s) & 0x1F);
  }

  /**
   * `executeStep`: a serviced interrupt takes 20 cycles; otherwise a
   * halted CPU burns 4; otherwise the opcode at PC is fetched, PC moves
   * past it and the opcode's case runs.
   */
  function Step(s: CpuState): (r: Outcome)
    requires s.Valid()
    ensures r.state.Valid()
  {
    Continue(HandleInterrupts(s))
  }

  /**
   * `executeStep` with `handleInterrupts` as written, testing all eight
   * bits of IE & IF: it is `Step` while bits 5-7 are clear, and a request
   * in bits 5-7 alone wakes the CPU, clears IME and runs the opcode at PC.
   */
  function StepAsWritten(s: CpuState): (r: Outcome)
    requires s.Valid()
    ensures r.state.Valid()
    ensures Pending(s) & 0xE0 == 0 ==> r == Step(s)
    ensures s.halted && Pending(s) == 0 ==> r == Executed(s, 4)
    ensures Pending(s) != 0 && Pending(s) & 0x1F == 0 ==>
              r == Execute(s.(halted := false, ime := false).Advance(1), s.mem.Read(s.pc))
  {
    var pending := Pending(s);
    assert pending & 0xE0 == 0 ==> pending & 0x1F == pending;
    Continue(HandleInterruptsAsWritten(s))
  }

  /** The rest of `executeStep` once the dispatch `d` has run. */
  function Continue(d: Dispatch): (r: Outcome)
    requires d.state.Valid()
    ensures r.state.Valid()
    ensures d.serviced ==> r == Executed(d.state, 20)
    ensures !d.serviced && d.state.halted ==> r == Executed(d.state, 4)
  {
    if d.serviced then Executed(d.state, 20)
    else if d.state.halted then Executed(d.state, 4)
    else Execute(d.state.Advance(1), d.state.Immediate8())
  }
}
