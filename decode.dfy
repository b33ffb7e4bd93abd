/**
 * The two opcode tables of the LR35902 as the cases of `executeOperation`
 * and `executeCbOperation` arrange them. The main table is read through
 * the opcode's bit fields x (bits 7-6), y (bits 5-3) and z (bits 2-0):
 * register operands are numbered B, C, D, E, H, L, (HL), A, register
 * pairs BC, DE, HL, SP (AF in place of SP for PUSH and POP) and
 * conditions NZ, Z, NC, C, exactly as the source's cases list them.
 */
module Instructions {
  import opened Bits
  import opened Alu

  /** An 8-bit operand: a register, or the byte at address HL. */
  datatype Reg = B | C | D | E | H | L | AtHL | A

  /** A 16-bit register pair. */
  datatype Pair = BC | DE | HL | SP | AF

  /** A jump condition on the Z or C flag. */
  datatype Cond = NotZero | Zero | NoCarry | Carry

  /** The eight accumulator operations of rows 0x80-0xBF and column 6 of rows 0xC0-0xF0. */
  datatype AluKind = AddA | AdcA | SubA | SbcA | AndA | XorA | OrA | CpA

  /** The addressing of `LD (rr),A` and `LD A,(rr)`: BC, DE, HL then HL+1, HL then HL-1. */
  datatype Indirect = ViaBC | ViaDE | ViaHLInc | ViaHLDec

  datatype Instr =
    | Nop | Stop | Halt | Di | Ei | Prefix | Unimplemented
    | Ld(dst: Reg, src: Reg)
    | LdImm(dst: Reg)
    | LdPairImm(pair: Pair)
    | StoreA(via: Indirect)
    | LoadA(via: Indirect)
    | StoreAHigh(viaC: bool)
    | LoadAHigh(viaC: bool)
    | StoreAAbsolute
    | LoadAAbsolute
    | StoreSp
    | LdSpHl
    | LdHlSpOffset
    | AluReg(op: AluKind, src: Reg)
    | AluImm(op: AluKind)
    | IncReg(r: Reg)
    | DecReg(r: Reg)
    | IncPair(pair: Pair)
    | DecPair(pair: Pair)
    | AddHl(pair: Pair)
    | AddSpOffset
    | RotateAcc(kind: ShiftKind)
    | DecimalAdjust | Complement | SetCarry | ComplementCarry
    | Jp(cond: Option<Cond>)
    | JpHl
    | Jr(cond: Option<Cond>)
    | Call(cond: Option<Cond>)
    | Ret(cond: Option<Cond>)
    | Reti
    | Rst(target: word)
    | Push(pair: Pair)
    | Pop(pair: Pair)

  /** The operand numbered `n` (0-7). */
  function RegOf(n: byte): (r: Reg)
    requires n < 8
    ensures RegCode(r) == n
  {
    if n == 0 then B else if n == 1 then C else if n == 2 then D else if n == 3 then E
    else if n == 4 then H else if n == 5 then L else if n == 6 then AtHL else A
  }

  /** The number of an operand in the opcode's y and z fields. */
  function RegCode(r: Reg): byte
  {
    match r
    case B => 0 case C => 1 case D => 2 case E => 3
    case H => 4 case L => 5 case AtHL => 6 case A => 7
  }

  /** The pair numbered `n` (0-3) of the load, increment and add opcodes: BC, DE, HL, SP. */
  function PairOf(n: byte): (p: Pair)
    requires n < 4
    ensures p != AF
  {
    if n == 0 then BC else if n == 1 then DE else if n == 2 then HL else SP
  }

  /** The pair numbered `n` (0-3) of PUSH and POP: BC, DE, HL, AF. */
  function StackPairOf(n: byte): (p: Pair)
    requires n < 4
    ensures p != SP
  {
    if n == 0 then BC else if n == 1 then DE else if n == 2 then HL else AF
  }

  function CondOf(n: byte): Cond
    requires n < 4
  {
    if n == 0 then NotZero else if n == 1 then Zero else if n == 2 then NoCarry else Carry
  }

  function AluKindOf(n: byte): AluKind
    requires n < 8
  {
    if n == 0 then AddA else if n == 1 then AdcA else if n == 2 then SubA else if n == 3 then SbcA
    else if n == 4 then AndA else if n == 5 then XorA else if n == 6 then OrA else CpA
  }

  /** Column 7 of rows 0x00-0x30: RLCA, RRCA, RLA, RRA, DAA, CPL, SCF, CCF. */
  function Column7(y: byte): Instr
    requires y < 8
  {
    if y == 0 then RotateAcc(Rlc) else if y == 1 then RotateAcc(Rrc)
    else if y == 2 then RotateAcc(Rl) else if y == 3 then RotateAcc(Rr)
    else if y == 4 then DecimalAdjust else if y == 5 then Complement
    else if y == 6 then SetCarry else ComplementCarry
  }

  /** Opcodes 0x00-0x3F. */
  function DecodeBlock0(y: byte, z: byte): Instr
    requires y < 8 && z < 8
  {
    var p := y >> 1;
    var q := y & 1;
    if z == 0 then
      (if y == 0 then Nop else if y == 1 then StoreSp else if y == 2 then Stop
       else if y == 3 then Jr(None) else Jr(Some(CondOf(y - 4))))
    else if z == 1 then (if q == 0 then LdPairImm(PairOf(p)) else AddHl(PairOf(p)))
    else if z == 2 then
      (var via := if p == 0 then ViaBC else if p == 1 then ViaDE else if p == 2 then ViaHLInc else ViaHLDec;
       if q == 0 then StoreA(via) else LoadA(via))
    else if z == 3 then (if q == 0 then IncPair(PairOf(p)) else DecPair(PairOf(p)))
    else if z == 4 then IncReg(RegOf(y))
    else if z == 5 then DecReg(RegOf(y))
    else if z == 6 then LdImm(RegOf(y))
    else Column7(y)
  }

  /** Opcodes 0xC0-0xFF; the eleven opcodes without a case are `Unimplemented`. */
  function DecodeBlock3(y: byte, z: byte): Instr
    requires y < 8 && z < 8
  {
    var p := y >> 1;
    var q := y & 1;
    if z == 0 then
      (if y < 4 then Ret(Some(CondOf(y))) else if y == 4 then StoreAHigh(false)
       else if y == 5 then AddSpOffset else if y == 6 then LoadAHigh(false) else LdHlSpOffset)
    else if z == 1 then
      (if q == 0 then Pop(StackPairOf(p)) else if p == 0 then Ret(None)
       else if p == 1 then Reti else if p == 2 then JpHl else LdSpHl)
    else if z == 2 then
      (if y < 4 then Jp(Some(CondOf(y))) else if y == 4 then StoreAHigh(true)
       else if y == 5 then StoreAAbsolute else if y == 6 then LoadAHigh(true) else LoadAAbsolute)
    else if z == 3 then
      (if y == 0 then Jp(None) else if y == 1 then Prefix else if y == 6 then Di
       else if y == 7 then Ei else Unimplemented)
    else if z == 4 then (if y < 4 then Call(Some(CondOf(y))) else Unimplemented)
    else if z == 5 then
      (if q == 0 then Push(StackPairOf(p)) else if p == 0 then Call(None) else Unimplemented)
    else if z == 6 then AluImm(AluKindOf(y))
    else Rst((y as word) << 3)
  }

  /**
   * The case of the main table that handles opcode `op`: 0x76 is HALT in
   * the middle of the register-to-register loads 0x40-0x7F, 0x80-0xBF are
   * the accumulator operations on a register, 0xCB is the prefix, RST n
   * jumps to n, and exactly eleven opcodes have no case.
   */
  function Decode(op: byte): (i: Instr)
    ensures i == Halt <==> op == 0x76
    ensures 0x40 <= op < 0x80 && op != 0x76 ==> i == Ld(RegOf((op >> 3) & 7), RegOf(op & 7))
    ensures 0x80 <= op < 0xC0 ==> i == AluReg(AluKindOf((op >> 3) & 7), RegOf(op & 7))
    ensures i == Prefix <==> op == 0xCB
    ensures op & 0xC7 == 0xC7 ==> i == Rst((op & 0x38) as word)
    ensures i.Unimplemented? <==> op in {0xD3, 0xDB, 0xDD, 0xE3, 0xE4, 0xEB, 0xEC, 0xED, 0xF4, 0xFC, 0xFD}
  {
    var x := op >> 6;
    var y := (op >> 3) & 7;
    var z := op & 7;
    if x == 0 then DecodeBlock0(y, z)
    else if x == 1 then (if op == 0x76 then Halt else Ld(RegOf(y), RegOf(z)))
    else if x == 2 then AluReg(AluKindOf(y), RegOf(z))
    else DecodeBlock3(y, z)
  }

  /** A case of the CB-prefix table: a rotate or shift, BIT, RES or SET on an operand. */
  datatype CbInstr =
    | ShiftOp(kind: ShiftKind, r: Reg)
    | TestBitOp(bit: BitIndex, r: Reg)
    | ResetBitOp(bit: BitIndex, r: Reg)
    | SetBitOp(bit: BitIndex, r: Reg)

  function ShiftKindOf(n: byte): ShiftKind
    requires n < 8
  {
    if n == 0 then Rlc else if n == 1 then Rrc else if n == 2 then Rl else if n == 3 then Rr
    else if n == 4 then Sla else if n == 5 then Sra else if n == 6 then Swap else Srl
  }

  /** The case of the CB table for `op`; every one of the 256 opcodes has one. */
  function DecodeCb(op: byte): (i: CbInstr)
    ensures i.r == RegOf(op & 7)
    ensures i.ShiftOp? <==> op < 0x40
    ensures i.TestBitOp? <==> 0x40 <= op < 0x80
    ensures i.ResetBitOp? <==> 0x80 <= op < 0xC0
    ensures i.SetBitOp? <==> 0xC0 <= op
    ensures !i.ShiftOp? ==> i.bit == ((op >> 3) & 7) as int
  {
    var x := op >> 6;
    var y := (op >> 3) & 7;
    var r := RegOf(op & 7);
    if x == 0 then ShiftOp(ShiftKindOf(y), r)
    else if x == 1 then TestBitOp(y as int, r)
    else if x == 2 then ResetBitOp(y as int, r)
    else SetBitOp(y as int, r)
  }
}
