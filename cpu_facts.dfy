/**
 * Properties of the CPU specification: the stack round trip, the flag
 * rules of the instructions that keep flags, BIT, RES and SET, HALT,
 * the opcodes without a case, and interrupt dispatch.
 */
module CpuFacts {
  import opened Bits
  import opened Alu
  import opened MemoryUnit
  import opened MemoryFacts
  import opened Instructions
  import opened CpuSpec

  /** The two bytes below SP are ordinary memory. */
  predicate PlainStack(s: CpuState)
  {
    PlainAddress(s.sp - 1) && PlainAddress(s.sp - 2)
  }

  /** The bytes the first half of a push leaves where the second half reads and writes. */
  lemma PushBytes(s: CpuState, v: word)
    requires s.Valid() && PlainStack(s)
    ensures s.Push(v).mem.Read(s.sp - 2) == LowByte(v)
    ensures s.Push(v).mem.Read(s.sp - 1) == HighByte(v)
  {
    var t := s.PushByte(HighByte(v));
    WriteThenRead(s.mem, s.sp - 1, HighByte(v));
    WriteThenRead(t.mem, s.sp - 2, LowByte(v));
    WriteElsewhere(t.mem, s.sp - 2, s.sp - 1, LowByte(v));
  }

  /** After a push, the byte at SP is the low byte and the one above it the high byte. */
  lemma PushedBytes(s: CpuState, v: word)
    requires s.Valid() && PlainStack(s)
    ensures s.Push(v).StackByte() == LowByte(v)
    ensures s.Push(v).PopByte().StackByte() == HighByte(v)
  {
    var t := s.Push(v);
    PushBytes(s, v);
    assert t.PopByte().sp == s.sp - 1 && t.PopByte().mem == t.mem;
  }

  /**
   * `pop16bits` after `push16bits(v)` returns `v` and puts SP back where
   * it was, when the two stack bytes are ordinary memory.
   */
  lemma PushPopRoundTrip(s: CpuState, v: word)
    requires s.Valid() && PlainStack(s)
    ensures s.Push(v).Top() == v
    ensures s.Push(v).Popped().sp == s.sp
  {
    PushedBytes(s, v);
    WordOfBytes(v);
  }

  /** `PUSH p` then `POP q` copies pair `p` into pair `q` and leaves SP as it was. */
  lemma PushThenPop(s: CpuState, p: Pair, q: Pair)
    requires s.Valid() && PlainStack(s) && p != SP && q != SP && q != AF
    ensures var t := PopPair(PushPair(s, p).state, q).state;
            t.Get16(q) == s.Get16(p) && t.sp == s.sp
  {
    PushPopRoundTrip(s, s.Get16(p));
  }

  /** `INC rr` adds one to the pair and keeps F. */
  lemma IncrementPairKeepsFlags(s: CpuState, p: Pair)
    requires s.Valid() && p != AF
    ensures var t := IncrementPair(s, p).state;
            t.Get16(p) == s.Get16(p) + 1 && t.f == s.f && t.a == s.a
  {
  }

  /** `DEC rr` subtracts one from the pair and keeps F. */
  lemma DecrementPairKeepsFlags(s: CpuState, p: Pair)
    requires s.Valid() && p != AF
    ensures var t := DecrementPair(s, p).state;
            t.Get16(p) == s.Get16(p) - 1 && t.f == s.f && t.a == s.a
  {
  }

  /** `INC r` and `DEC r` keep the carry flag. */
  lemma IncDecKeepCarry(s: CpuState, reg: Reg)
    requires s.Valid()
    ensures CarryFlag(Increment(s, reg).state.f) == CarryFlag(s.f)
    ensures CarryFlag(Decrement(s, reg).state.f) == CarryFlag(s.f)
  {
  }

  /** `ADD HL,rr` keeps the zero flag and leaves HL = HL + rr. */
  lemma AddToHlKeepsZero(s: CpuState, p: Pair)
    requires s.Valid() && p != AF
    ensures var t := AddToHl(s, p).state;
            ZeroFlag(t.f) == ZeroFlag(s.f) && t.Get16(HL) == s.Get16(HL) + s.Get16(p)
  {
  }

  /** `CP` keeps A and sets the flags `SUB` would. */
  lemma CompareKeepsAccumulator(s: CpuState, src: Reg)
    requires s.Valid()
    ensures var t := AluRegister(s, CpA, src).state;
            t.a == s.a && t.Status() == Sub(s.a, s.Get8(src)).flags
  {
  }

  /**
   * `BIT b,r`: Z is set iff bit b of the operand is 0, N is cleared, H
   * set, C kept, and nothing but F changes.
   */
  lemma BitTest(s: CpuState, op: byte)
    requires s.Valid() && DecodeCb(op).TestBitOp?
    ensures var i := DecodeCb(op);
            var t := ExecuteCb(s, op).state;
            t == s.(f := t.f)
            && t.Status() == Flags(!TestBit(s.Get8(i.r), i.bit), false, true, CarryFlag(s.f))
  {
  }

  /**
   * `RES b,r` on a register: bit b is cleared, every other bit of the
   * register kept, and F and the memory unit unchanged.
   */
  lemma ResetBitEffect(s: CpuState, op: byte, k: BitIndex)
    requires s.Valid() && DecodeCb(op).ResetBitOp? && DecodeCb(op).r != AtHL
    ensures var i := DecodeCb(op);
            var t := ExecuteCb(s, op).state;
            !TestBit(t.Get8(i.r), i.bit)
            && (k != i.bit ==> TestBit(t.Get8(i.r), k) == TestBit(s.Get8(i.r), k))
            && t.f == s.f && t.mem == s.mem && t.pc == s.pc && t.sp == s.sp
  {
  }

  /**
   * `SET b,r` on a register: bit b is set, every other bit of the
   * register kept, and F and the memory unit unchanged.
   */
  lemma SetBitEffect(s: CpuState, op: byte, k: BitIndex)
    requires s.Valid() && DecodeCb(op).SetBitOp? && DecodeCb(op).r != AtHL
    ensures var i := DecodeCb(op);
            var t := ExecuteCb(s, op).state;
            TestBit(t.Get8(i.r), i.bit)
            && (k != i.bit ==> TestBit(t.Get8(i.r), k) == TestBit(s.Get8(i.r), k))
            && t.f == s.f && t.mem == s.mem && t.pc == s.pc && t.sp == s.sp
  {
  }

  /** The eleven opcodes of the main table without a case. */
  lemma UnimplementedOpcodes(op: byte)
    ensures Decode(op).Unimplemented? <==>
            op in {0xD3, 0xDB, 0xDD, 0xE3, 0xE4, 0xEB, 0xEC, 0xED, 0xF4, 0xFC, 0xFD}
  {
  }

  /** A halted CPU with no enabled interrupt requested burns 4 cycles and changes nothing. */
  lemma HaltedStep(s: CpuState)
    requires s.Valid() && s.halted && Pending(s) & 0x1F == 0
    ensures Step(s) == Executed(s, 4)
    ensures Pending(s) == 0 ==> StepAsWritten(s) == Executed(s, 4)
  {
  }

  /** A running CPU with no enabled interrupt requested executes the opcode at PC with PC moved past it. */
  lemma FetchStep(s: CpuState)
    requires s.Valid() && !s.halted && Pending(s) & 0x1F == 0
    ensures Step(s) == Execute(s.Advance(1), s.mem.Read(s.pc))
    ensures Pending(s) == 0 || !s.ime ==> StepAsWritten(s) == Step(s)
  {
  }

  /** An opcode without a case stops the step, with PC past the opcode and nothing else changed. */
  lemma UnimplementedStep(s: CpuState)
    requires s.Valid() && !s.halted && Pending(s) & 0x1F == 0 && s.mem.Read(s.pc) == 0xD3
    ensures Step(s) == Outcome.Unimplemented(s.Advance(1), 0xD3)
  {
    FetchStep(s);
    UnimplementedOpcodes(0xD3);
  }

  /**
   * With IME set and an enabled interrupt requested, the lowest requested
   * interrupt is serviced: IME and HALT are cleared, SP drops by two and PC
   * is its vector; the step takes 20 cycles.
   */
  lemma InterruptServiced(s: CpuState)
    requires s.Valid() && s.ime && Pending(s) & 0x1F != 0
    ensures PendingFrom(Pending(s) & 0x1F, 0)
    ensures var i := LowestFrom(Pending(s) & 0x1F, 0);
            var d := HandleInterrupts(s);
            d.serviced && d.state.pc == Vector(i) && d.state.sp == s.sp - 2 && !d.state.ime && !d.state.halted
            && Step(s) == Executed(d.state, 20)
  {
    ServicedState(s);
  }

  /** The interrupt serviced is the lowest bit of IE & IF among bits 0-4. */
  lemma LowestPending(p: byte)
    requires PendingFrom(p & 0x1F, 0)
    ensures var i := LowestFrom(p & 0x1F, 0);
            TestBit(p, i) && forall k: BitIndex :: k < i ==> !TestBit(p, k)
  {
    var i := LowestFrom(p & 0x1F, 0);
    assert TestBit(p & 0x1F, i);
    forall k: BitIndex | k < i
      ensures !TestBit(p, k)
    {
      assert !TestBit(p & 0x1F, k);
    }
  }

  /** Acknowledging interrupt `i` clears bit `i` of IF and keeps the other bits. */
  lemma AcknowledgeClears(s: CpuState, i: BitIndex)
    requires s.Valid()
    ensures Acknowledge(s, i).mem.Read(IF_ADDRESS) == ClearBit(s.mem.Read(IF_ADDRESS), i)
  {
    WriteThenRead(s.mem, IF_ADDRESS, ClearBit(s.mem.Read(IF_ADDRESS), i));
  }

  /** Service is acknowledge, push, jump; acknowledging moves neither SP nor PC. */
  lemma ServiceSteps(s: CpuState, i: BitIndex)
    requires s.Valid() && i < 5 && PlainStack(s)
    ensures PlainStack(Acknowledge(s, i)) && Service(s, i) == Acknowledge(s, i).Push(s.pc).(pc := Vector(i))
  {
  }

  /**
   * Servicing interrupt `i` clears bit `i` of IF and no other bit, when
   * the stack bytes are ordinary memory other than IF.
   */
  lemma ServiceAcknowledges(s: CpuState, i: BitIndex)
    requires s.Valid() && i < 5 && PlainStack(s)
    requires s.sp - 1 != IF_ADDRESS && s.sp - 2 != IF_ADDRESS
    ensures Service(s, i).mem.Read(IF_ADDRESS) == ClearBit(s.mem.Read(IF_ADDRESS), i)
  {
    ServiceSteps(s, i);
    AcknowledgeClears(s, i);
    PushReadsElsewhere(Acknowledge(s, i), s.pc, IF_ADDRESS);
  }

  /** Servicing an interrupt pushes the interrupted PC, which `RETI` pops again. */
  lemma ServicePushesPc(s: CpuState, i: BitIndex)
    requires s.Valid() && i < 5 && PlainStack(s)
    ensures Service(s, i).Top() == s.pc
  {
    ServiceSteps(s, i);
    PushThenJump(Acknowledge(s, i), s.pc, Vector(i));
  }

  /** A push followed by a jump: the word on top of the stack is the one pushed. */
  lemma PushThenJump(s: CpuState, v: word, target: word)
    requires s.Valid() && PlainStack(s)
    ensures s.Push(v).(pc := target).Top() == v
  {
    PushPopRoundTrip(s, v);
  }

  /** A push leaves every other ordinary address's byte as it was. */
  lemma PushReadsElsewhere(s: CpuState, v: word, x: word)
    requires s.Valid() && PlainStack(s) && x != s.sp - 1 && x != s.sp - 2
    ensures s.Push(v).mem.Read(x) == s.mem.Read(x)
  {
    var t := s.PushByte(HighByte(v));
    WriteElsewhere(s.mem, s.sp - 1, x, HighByte(v));
    WriteElsewhere(t.mem, s.sp - 2, x, LowByte(v));
  }

  /**
   * As written, a requested and enabled interrupt among bits 5-7 alone
   * clears IME (and HALT) although nothing is serviced.
   */
  lemma AsWrittenLosesIme(s: CpuState)
    requires s.Valid() && s.ime && Pending(s) != 0 && Pending(s) & 0x1F == 0
    ensures HandleInterruptsAsWritten(s) == Dispatch(s.(halted := false, ime := false), false)
  {
  }

  /** In the same state the corrected dispatch keeps IME and HALT. */
  lemma CorrectedKeepsIme(s: CpuState)
    requires s.Valid() && s.ime && Pending(s) != 0 && Pending(s) & 0x1F == 0
    ensures HandleInterrupts(s) == Dispatch(s, false)
  {
  }

  /** With bits 5-7 of IE & IF clear, the two dispatches agree. */
  lemma DispatchesAgree(s: CpuState)
    requires s.Valid() && Pending(s) & 0xE0 == 0
    ensures HandleInterruptsAsWritten(s) == HandleInterrupts(s)
  {
    var p := Pending(s);
    assert p & 0x1F == p;
  }

  /** With bits 5-7 of IE & IF clear, the step as written and the intended step agree. */
  lemma StepsAgree(s: CpuState)
    requires s.Valid() && Pending(s) & 0xE0 == 0
    ensures StepAsWritten(s) == Step(s)
  {
    DispatchesAgree(s);
  }

  /**
   * As written, a request in bits 5-7 alone still ends HALT and clears
   * IME: the CPU leaves HALT, fetches and executes the opcode at PC, with
   * IME cleared, although no interrupt is serviced.
   */
  lemma AsWrittenWakesOnHighBits(s: CpuState)
    requires s.Valid() && Pending(s) != 0 && Pending(s) & 0x1F == 0
    ensures var t := s.(halted := false, ime := false);
            StepAsWritten(s) == Execute(t.Advance(1), s.mem.Read(s.pc))
  {
  }
}
