/**
 * The opcode table of the monolithic CPU (createInstructionSet in
 * gb/instructions.go). In the source the table is an array of 0x200 closures,
 * one per opcode, each returning its cycle count; only 205 slots are filled.
 * Here the closures are described by an instruction datatype: Decode maps an
 * opcode to the form of its table entry (None for an empty slot), Cycles is
 * the count the entry returns, and Opcode is an independent encoder of each
 * form, proved to be Decode's inverse.
 */
module GbIsa {
  import opened Bits
  import opened Outcomes
  import opened GbAlu

  /** The 8-bit registers, in the source's register-code order minus (HL). */
  datatype Reg8 = B | C | D | E | H | L | A

  /** An 8-bit operand: a register, the byte at (HL), or the immediate byte at PC. */
  datatype Operand = Reg(r: Reg8) | AtHL | Imm

  /** The 16-bit register pairs addressed by the table. */
  datatype Pair = BC | DE | HL | SP | AF

  /** The eight ALU operations of the 0x80-0xBF block, in encoding order. */
  datatype AluOp = Add | Adc | Sub | Sbc | And | Xor | Or | Cp

  /** The memory operand of the LD A,(x) and LD (x),A forms. */
  datatype Indirect =
    | AtBC | AtDE        // (BC), (DE)
    | AtHLInc | AtHLDec  // (HL+), (HL-)
    | HighImm | HighC    // ($FF00+a8), ($FF00+C)
    | Absolute           // (a16)

  /** The forms of the table entries. */
  datatype Instr =
    | Ld8(dst: Operand, src: Operand)   // LD r,r' / LD r,d8 / LD r,(HL) / LD (HL),r / LD (HL),d8
    | LoadA(from: Indirect)             // LD A,(x)
    | StoreA(to: Indirect)              // LD (x),A
    | Ld16Imm(p: Pair)                  // LD rr,d16
    | LdAbsSP                           // LD (a16),SP
    | Pop(p: Pair)                      // POP rr
    | Push(p: Pair)                     // PUSH rr
    | LdHLSPOffset                      // LD HL,SP+r8
    | LdSPHL                            // LD SP,HL
    | IncDec8(dst: Operand, dec: bool)  // INC r / DEC r / INC (HL) / DEC (HL)
    | Daa | Cpl | Scf | Ccf
    | Alu(op: AluOp, src: Operand)      // ADD/ADC/SUB/SBC/AND/XOR/OR/CP
    | IncDec16(p: Pair, dec: bool)      // INC rr / DEC rr
    | AddHL(p: Pair)                    // ADD HL,rr
    | AddSPOffset                       // ADD SP,r8

  /** Register code k (bits 0-2 or 3-5 of an opcode): B,C,D,E,H,L,(HL),A. */
  function OperandOf(k: Byte): (o: Operand)
    requires k < 8
    ensures o != Imm
  {
    match k
    case 0 => Reg(B) case 1 => Reg(C) case 2 => Reg(D) case 3 => Reg(E)
    case 4 => Reg(H) case 5 => Reg(L) case 6 => AtHL case _ => Reg(A)
  }

  /** ALU code k (bits 3-5 of an opcode in 0x80-0xBF). */
  function AluOf(k: Byte): AluOp
    requires k < 8
  {
    match k
    case 0 => Add case 1 => Adc case 2 => Sub case 3 => Sbc
    case 4 => And case 5 => Xor case 6 => Or case _ => Cp
  }

  /**
   * The table entry at an opcode. 0x40-0x7F (except 0x76, HALT, which has no
   * entry) and 0x80-0xBF are regular blocks; the other entries are listed
   * row by row (one row per high nibble).
   */
  function Decode(op: Byte): Option<Instr>
  {
    if 0x40 <= op < 0x80 then
      if op == 0x76 then None else Some(Ld8(OperandOf((op >> 3) & 7), OperandOf(op & 7)))
    else if 0x80 <= op < 0xC0 then
      Some(Alu(AluOf((op >> 3) & 7), OperandOf(op & 7)))
    else
      DecodeRow(op)
  }

  /** The listed entries, by row of the opcode table. */
  function DecodeRow(op: Byte): Option<Instr>
  {
    match op >> 4
    case 0x0 => Row0(op) case 0x1 => Row1(op) case 0x2 => Row2(op) case 0x3 => Row3(op)
    case 0xc => RowC(op) case 0xd => RowD(op) case 0xe => RowE(op) case 0xf => RowF(op)
    case _ => None
  }

  function Row0(op: Byte): Option<Instr>
  {
    match op
    case 0x01 => Some(Ld16Imm(BC))            case 0x02 => Some(StoreA(AtBC))
    case 0x03 => Some(IncDec16(BC, false))    case 0x04 => Some(IncDec8(Reg(B), false))
    case 0x05 => Some(IncDec8(Reg(B), true))  case 0x06 => Some(Ld8(Reg(B), Imm))
    case 0x08 => Some(LdAbsSP)                case 0x09 => Some(AddHL(BC))
    case 0x0a => Some(LoadA(AtBC))            case 0x0b => Some(IncDec16(BC, true))
    case 0x0c => Some(IncDec8(Reg(C), false))  case 0x0d => Some(IncDec8(Reg(C), true))
    case 0x0e => Some(Ld8(Reg(C), Imm))
    case _ => None
  }

  function Row1(op: Byte): Option<Instr>
  {
    match op
    case 0x11 => Some(Ld16Imm(DE))            case 0x12 => Some(StoreA(AtDE))
    case 0x13 => Some(IncDec16(DE, false))    case 0x14 => Some(IncDec8(Reg(D), false))
    case 0x15 => Some(IncDec8(Reg(D), true))  case 0x16 => Some(Ld8(Reg(D), Imm))
    case 0x19 => Some(AddHL(DE))              case 0x1a => Some(LoadA(AtDE))
    case 0x1b => Some(IncDec16(DE, true))     case 0x1c => Some(IncDec8(Reg(E), false))
    case 0x1d => Some(IncDec8(Reg(E), true))  case 0x1e => Some(Ld8(Reg(E), Imm))
    case _ => None
  }

  function Row2(op: Byte): Option<Instr>
  {
    match op
    case 0x21 => Some(Ld16Imm(HL))            case 0x22 => Some(StoreA(AtHLInc))
    case 0x23 => Some(IncDec16(HL, false))    case 0x24 => Some(IncDec8(Reg(H), false))
    case 0x25 => Some(IncDec8(Reg(H), true))  case 0x26 => Some(Ld8(Reg(H), Imm))
    case 0x27 => Some(Daa)                    case 0x29 => Some(AddHL(HL))
    case 0x2a => Some(LoadA(AtHLInc))         case 0x2b => Some(IncDec16(HL, true))
    case 0x2c => Some(IncDec8(Reg(L), false))  case 0x2d => Some(IncDec8(Reg(L), true))
    case 0x2e => Some(Ld8(Reg(L), Imm))       case 0x2f => Some(Cpl)
    case _ => None
  }

  function Row3(op: Byte): Option<Instr>
  {
    match op
    case 0x31 => Some(Ld16Imm(SP))            case 0x32 => Some(StoreA(AtHLDec))
    case 0x33 => Some(IncDec16(SP, false))    case 0x34 => Some(IncDec8(AtHL, false))
    case 0x35 => Some(IncDec8(AtHL, true))    case 0x36 => Some(Ld8(AtHL, Imm))
    case 0x37 => Some(Scf)                    case 0x39 => Some(AddHL(SP))
    case 0x3a => Some(LoadA(AtHLDec))         case 0x3b => Some(IncDec16(SP, true))
    case 0x3c => Some(IncDec8(Reg(A), false))  case 0x3d => Some(IncDec8(Reg(A), true))
    case 0x3e => Some(Ld8(Reg(A), Imm))       case 0x3f => Some(Ccf)
    case _ => None
  }

  function RowC(op: Byte): Option<Instr>
  {
    match op
    case 0xc1 => Some(Pop(BC))                case 0xc5 => Some(Push(BC))
    case 0xc6 => Some(Alu(Add, Imm))          case 0xce => Some(Alu(Adc, Imm))
    case _ => None
  }

  function RowD(op: Byte): Option<Instr>
  {
    match op
    case 0xd1 => Some(Pop(DE))                case 0xd5 => Some(Push(DE))
    case 0xd6 => Some(Alu(Sub, Imm))          case 0xde => Some(Alu(Sbc, Imm))
    case _ => None
  }

  function RowE(op: Byte): Option<Instr>
  {
    match op
    case 0xe0 => Some(StoreA(HighImm))        case 0xe1 => Some(Pop(HL))
    case 0xe2 => Some(StoreA(HighC))          case 0xe5 => Some(Push(HL))
    case 0xe6 => Some(Alu(And, Imm))          case 0xe8 => Some(AddSPOffset)
    case 0xea => Some(StoreA(Absolute))       case 0xee => Some(Alu(Xor, Imm))
    case _ => None
  }

  function RowF(op: Byte): Option<Instr>
  {
    match op
    case 0xf0 => Some(LoadA(HighImm))         case 0xf1 => Some(Pop(AF))
    case 0xf2 => Some(LoadA(HighC))           case 0xf5 => Some(Push(AF))
    case 0xf6 => Some(Alu(Or, Imm))           case 0xf8 => Some(LdHLSPOffset)
    case 0xf9 => Some(LdSPHL)                 case 0xfa => Some(LoadA(Absolute))
    case 0xfe => Some(Alu(Cp, Imm))
    case _ => None
  }

  /** The cycle count each entry returns. */
  function Cycles(i: Instr): nat
  {
    match i
    case Ld8(d, s) => 4 + (if d == AtHL then 4 else 0) + (if s.Reg? then 0 else 4)
    case LoadA(x) => IndirectCycles(x)
    case StoreA(x) => IndirectCycles(x)
    case Ld16Imm(_) => 12
    case LdAbsSP => 20
    case Pop(_) => 12
    case Push(_) => 16
    case LdHLSPOffset => 12
    case LdSPHL => 8
    case IncDec8(d, _) => if d.Reg? then 4 else 12
    case Daa => 4
    case Cpl => 4
    case Scf => 4
    case Ccf => 4
    case Alu(_, s) => if s.Reg? then 4 else 8
    case IncDec16(_, _) => 8
    case AddHL(_) => 8
    case AddSPOffset => 16
  }

  function IndirectCycles(x: Indirect): nat
  {
    match x
    case HighImm => 12
    case Absolute => 16
    case _ => 8
  }

  /** The cycle costs by instruction form, as the entries return them. */
  lemma CycleTable(i: Instr)
    requires InTable(i)
    ensures i.Ld8? && i.dst.Reg? && i.src.Reg? ==> Cycles(i) == 4
    ensures (i.Alu? && i.src.Reg?) || (i.IncDec8? && i.dst.Reg?) ==> Cycles(i) == 4
    ensures i.Alu? && !i.src.Reg? ==> Cycles(i) == 8
    ensures i.Ld8? && (i.dst == AtHL) != (i.src == Imm) ==> Cycles(i) == 8
    ensures i.Pop? ==> Cycles(i) == 12
    ensures i.Push? ==> Cycles(i) == 16
    ensures i == LdAbsSP ==> Cycles(i) == 20
    ensures i == AddSPOffset ==> Cycles(i) == 16
    ensures 4 <= Cycles(i) <= 20 && Cycles(i) % 4 == 0
  {
  }

  // ---------------------------------------------------------------------
  // An independent encoder, and the proof that it inverts Decode.

  function RegCode(r: Reg8): Byte
  {
    match r
    case B => 0 case C => 1 case D => 2 case E => 3 case H => 4 case L => 5 case A => 7
  }

  function OperandCode(o: Operand): (k: Byte)
    requires o != Imm
    ensures k < 8
  {
    if o == AtHL then 6 else RegCode(o.r)
  }

  function AluCode(k: AluOp): (c: Byte)
    ensures c < 8
  {
    match k
    case Add => 0 case Adc => 1 case Sub => 2 case Sbc => 3
    case And => 4 case Xor => 5 case Or => 6 case Cp => 7
  }

  /** Pair code of LD rr,d16, INC/DEC rr and ADD HL,rr (BC, DE, HL, SP). */
  function SPCode(p: Pair): Byte
    requires p != AF
  {
    match p
    case BC => 0 case DE => 1 case HL => 2 case _ => 3
  }

  /** Pair code of PUSH/POP (BC, DE, HL, AF). */
  function AFCode(p: Pair): Byte
    requires p != SP
  {
    match p
    case BC => 0 case DE => 1 case HL => 2 case _ => 3
  }

  function LoadACode(x: Indirect): Byte
  {
    match x
    case AtBC => 0x0a case AtDE => 0x1a case AtHLInc => 0x2a case AtHLDec => 0x3a
    case HighImm => 0xf0 case HighC => 0xf2 case Absolute => 0xfa
  }

  function StoreACode(x: Indirect): Byte
  {
    match x
    case AtBC => 0x02 case AtDE => 0x12 case AtHLInc => 0x22 case AtHLDec => 0x32
    case HighImm => 0xe0 case HighC => 0xe2 case Absolute => 0xea
  }

  /** The instruction forms that have an entry in the table. */
  predicate InTable(i: Instr)
  {
    match i
    case Ld8(d, s) => d != Imm && !(d == AtHL && s == AtHL)
    case Ld16Imm(p) => p != AF
    case Pop(p) => p != SP
    case Push(p) => p != SP
    case IncDec8(d, _) => d != Imm
    case IncDec16(p, _) => p != AF
    case AddHL(p) => p != AF
    case _ => true
  }

  /** The opcode of each form, built from its fields by the DMG encoding rules. */
  function Opcode(i: Instr): Byte
    requires InTable(i)
  {
    match i
    case Ld8(d, s) =>
      if s == Imm then 0x06 | (OperandCode(d) << 3)
      else 0x40 | (OperandCode(d) << 3) | OperandCode(s)
    case LoadA(x) => LoadACode(x)
    case StoreA(x) => StoreACode(x)
    case Ld16Imm(p) => 0x01 | (SPCode(p) << 4)
    case LdAbsSP => 0x08
    case Pop(p) => 0xc1 | (AFCode(p) << 4)
    case Push(p) => 0xc5 | (AFCode(p) << 4)
    case LdHLSPOffset => 0xf8
    case LdSPHL => 0xf9
    case IncDec8(d, dec) => 0x04 | (OperandCode(d) << 3) | (if dec then 1 else 0)
    case Daa => 0x27
    case Cpl => 0x2f
    case Scf => 0x37
    case Ccf => 0x3f
    case Alu(k, s) =>
      if s == Imm then 0xc6 | (AluCode(k) << 3)
      else 0x80 | (AluCode(k) << 3) | OperandCode(s)
    case IncDec16(p, dec) => 0x03 | (SPCode(p) << 4) | (if dec then 8 else 0)
    case AddHL(p) => 0x09 | (SPCode(p) << 4)
    case AddSPOffset => 0xe8
  }

  lemma OperandRoundTrip(o: Operand)
    requires o != Imm
    ensures OperandOf(OperandCode(o)) == o
  {
  }

  lemma CodeRoundTrip(k: Byte)
    requires k < 8
    ensures OperandCode(OperandOf(k)) == k && AluCode(AluOf(k)) == k
  {
  }

  lemma DecodeOpcodeLd8(d: Operand, src: Operand)
    requires InTable(Ld8(d, src))
    ensures Decode(Opcode(Ld8(d, src))) == Some(Ld8(d, src))
  {
    OperandRoundTrip(d);
    if src != Imm {
      var k := OperandCode(d);
      var j := OperandCode(src);
      var op := 0x40 | (k << 3) | j;
      assert (op >> 3) & 7 == k && op & 7 == j && 0x40 <= op < 0x80;
      OperandRoundTrip(src);
    }
  }

  lemma DecodeOpcodeAlu(k: AluOp, src: Operand)
    ensures Decode(Opcode(Alu(k, src))) == Some(Alu(k, src))
  {
    if src != Imm {
      var c := AluCode(k);
      var j := OperandCode(src);
      var op := 0x80 | (c << 3) | j;
      assert (op >> 3) & 7 == c && op & 7 == j && 0x80 <= op < 0xC0;
      OperandRoundTrip(src);
    }
  }

  /** Every form with an entry decodes back from its opcode. */
  lemma DecodeOpcode(i: Instr)
    requires InTable(i)
    ensures Decode(Opcode(i)) == Some(i)
  {
    match i
    case Ld8(d, s) => DecodeOpcodeLd8(d, s);
    case Alu(k, s) => DecodeOpcodeAlu(k, s);
    case LoadA(_) => DecodeOpcodeLoads(i);
    case StoreA(_) => DecodeOpcodeLoads(i);
    case Ld16Imm(_) => DecodeOpcodeLoads(i);
    case LdAbsSP => DecodeOpcodeLoads(i);
    case Pop(_) => DecodeOpcodeLoads(i);
    case Push(_) => DecodeOpcodeLoads(i);
    case LdHLSPOffset => DecodeOpcodeLoads(i);
    case LdSPHL => DecodeOpcodeLoads(i);
    case IncDec8(d, dec) => DecodeOpcodeIncDec8(d, dec);
    case IncDec16(_, _) => DecodeOpcodeWide(i);
    case AddHL(_) => DecodeOpcodeWide(i);
    case AddSPOffset => DecodeOpcodeWide(i);
    case _ => DecodeOpcodeArith(i);
  }

  lemma DecodeOpcodeIncDec8(d: Operand, dec: bool)
    requires InTable(IncDec8(d, dec))
    ensures Decode(Opcode(IncDec8(d, dec))) == Some(IncDec8(d, dec))
  {
    OperandRoundTrip(d);
  }

  /** The 16-bit arithmetic forms decode back from their opcodes. */
  lemma DecodeOpcodeWide(i: Instr)
    requires InTable(i)
    requires i.IncDec16? || i.AddHL? || i.AddSPOffset?
    ensures Decode(Opcode(i)) == Some(i)
  {
  }

  /** The loads, stores and stack forms decode back from their opcodes. */
  lemma DecodeOpcodeLoads(i: Instr)
    requires InTable(i)
    requires i.LoadA? || i.StoreA? || i.Ld16Imm? || i.LdAbsSP? || i.Pop? || i.Push? || i.LdHLSPOffset? || i.LdSPHL?
    ensures Decode(Opcode(i)) == Some(i)
  {
  }

  /** DAA, CPL, SCF and CCF decode back from their opcodes. */
  lemma DecodeOpcodeArith(i: Instr)
    requires InTable(i)
    requires i.Daa? || i.Cpl? || i.Scf? || i.Ccf?
    ensures Decode(Opcode(i)) == Some(i)
  {
  }

  /** Every listed slot is the opcode of the form it decodes to. */
  lemma OpcodeDecodeRow(op: Byte)
    requires DecodeRow(op).Some?
    ensures InTable(DecodeRow(op).value) && Opcode(DecodeRow(op).value) == op
  {
    match op >> 4
    case 0x0 => Row0RoundTrip(op);
    case 0x1 => Row1RoundTrip(op);
    case 0x2 => Row2RoundTrip(op);
    case 0x3 => Row3RoundTrip(op);
    case 0xc => RowCRoundTrip(op);
    case 0xd => RowDRoundTrip(op);
    case 0xe => RowERoundTrip(op);
    case 0xf => RowFRoundTrip(op);
  }

  lemma Row0RoundTrip(op: Byte)
    requires Row0(op).Some?
    ensures InTable(Row0(op).value) && Opcode(Row0(op).value) == op
  {
  }

  lemma Row1RoundTrip(op: Byte)
    requires Row1(op).Some?
    ensures InTable(Row1(op).value) && Opcode(Row1(op).value) == op
  {
  }

  lemma Row2RoundTrip(op: Byte)
    requires Row2(op).Some?
    ensures InTable(Row2(op).value) && Opcode(Row2(op).value) == op
  {
  }

  lemma Row3RoundTrip(op: Byte)
    requires Row3(op).Some?
    ensures InTable(Row3(op).value) && Opcode(Row3(op).value) == op
  {
  }

  lemma RowCRoundTrip(op: Byte)
    requires RowC(op).Some?
    ensures InTable(RowC(op).value) && Opcode(RowC(op).value) == op
  {
  }

  lemma RowDRoundTrip(op: Byte)
    requires RowD(op).Some?
    ensures InTable(RowD(op).value) && Opcode(RowD(op).value) == op
  {
  }

  lemma RowERoundTrip(op: Byte)
    requires RowE(op).Some?
    ensures InTable(RowE(op).value) && Opcode(RowE(op).value) == op
  {
  }

  lemma RowFRoundTrip(op: Byte)
    requires RowF(op).Some?
    ensures InTable(RowF(op).value) && Opcode(RowF(op).value) == op
  {
  }

  /** Every filled slot is the opcode of the form it decodes to. */
  lemma OpcodeDecode(op: Byte)
    requires Decode(op).Some?
    ensures InTable(Decode(op).value) && Opcode(Decode(op).value) == op
  {
    if 0x40 <= op < 0xC0 {
      var k := (op >> 3) & 7;
      var j := op & 7;
      CodeRoundTrip(k);
      CodeRoundTrip(j);
      assert op == (if op < 0x80 then 0x40 else 0x80) | (k << 3) | j;
    } else {
      OpcodeDecodeRow(op);
    }
  }

  // ---------------------------------------------------------------------
  // What the ALU entries compute.

  /**
   * The helper call of an ALU entry: ADC and SBC pass the constant 1 as the
   * carry (not the C flag), and CP's result is what the entry stores in A.
   */
  function AluResult(k: AluOp, a: Byte, v: Byte): ByteResult
  {
    match k
    case Add => OpAdd(a, v, 0)
    case Adc => OpAdd(a, v, 1)
    case Sub => OpSub(a, v, 0)
    case Sbc => OpSub(a, v, 1)
    case And => OpAnd(a, v)
    case Xor => OpXor(a, v)
    case Or => OpOr(a, v)
    case Cp => OpCp(a, v)
  }

  /** ADC always adds one more than ADD, whatever the carry flag holds. */
  lemma AdcAddsOne(a: Byte, v: Byte)
    ensures AluResult(Adc, a, v).value == AluResult(Add, a, v).value + 1
  {
  }

  /** SBC always subtracts one more than SUB, whatever the carry flag holds. */
  lemma SbcSubtractsOne(a: Byte, v: Byte)
    ensures AluResult(Sbc, a, v).value == AluResult(Sub, a, v).value - 1
  {
  }

  /** CP leaves exactly what SUB leaves, so the entry overwrites A with a - v. */
  lemma CpActsAsSub(a: Byte, v: Byte)
    ensures AluResult(Cp, a, v) == AluResult(Sub, a, v)
    ensures AluResult(Cp, a, v).value == a - v
  {
    CpIsSub(a, v);
  }
}
