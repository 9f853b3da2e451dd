/**
 The opcode switch of 65816core.c, arm by arm: which macro an opcode selects.  The
 macros that compute or store are one kind of arm: which of the accumulator, the
 direct page, memory and the flags they touch is said here, not what they compute.
 */
module Switch65816 {
  datatype Index = RegX | RegY

  /** The bits of `reg_p` that are kept there; bit 4 is also the break bit. */
  datatype PFlag = C | I | D | X | M | V

  datatype Test = Always | SignIs(on: bool) | ZeroIs(on: bool) | CarryIs(on: bool) | OverflowIs(on: bool)

  /** Bytes an instruction takes: immediate operands are as wide as their register. */
  datatype Size = Bytes(n: nat) | ByAccumulator | ByIndex

  datatype ComputeOp =
    | ADC | AND | BIT | BIT_IMM | CMP | CPX | CPY | EOR | LDA | ORA | SBC
    | ASL | DEC | INC | LSR | ROL | ROR | TRB | TSB
    | STA | STX | STY | STZ | TCD | TDC | TSC | TXA | TYA | XBA

  /** The one-byte shifts and counts work on the accumulator. */
  predicate OnAccumulator(size: Size) { size == Bytes(1) }

  predicate TouchesC(op: ComputeOp, size: Size) {
    match op
    case ADC | AND | EOR | LDA | ORA | SBC | TDC | TSC | TXA | TYA | XBA => true
    case ASL | DEC | INC | LSR | ROL | ROR => OnAccumulator(size)
    case _ => false
  }

  predicate TouchesMemory(op: ComputeOp, size: Size) {
    match op
    case STA | STX | STY | STZ | TRB | TSB => true
    case ASL | DEC | INC | LSR | ROL | ROR => !OnAccumulator(size)
    case _ => false
  }

  predicate TouchesCarry(op: ComputeOp) {
    match op
    case ADC | SBC | CMP | CPX | CPY | ASL | LSR | ROL | ROR => true
    case _ => false
  }

  predicate TouchesOverflow(op: ComputeOp) { op.ADC? || op.SBC? || op.BIT? }

  predicate TouchesSign(op: ComputeOp) {
    match op
    case BIT_IMM | TRB | TSB | STA | STX | STY | STZ | XBA => false
    case _ => true
  }

  predicate TouchesZero(op: ComputeOp) {
    match op
    case STA | STX | STY | STZ | XBA => false
    case _ => true
  }

  /** The arms, by the names of their macros. */
  datatype Arm =
    | Compute(op: ComputeOp, size: Size)
    | LDI(r: Index, size: Size) | INI(r: Index) | DEI(r: Index) | PLI(r: Index)
    | TAX | TAY | TSX | TXY | TYX | TCS | TXS
    | PHA | PHX | PHY | PHB | PHK | PHP | PEA | PEI | PER | PHD
    | PLA | PLB | PLD | PLP
    | CLEAR(f: PFlag) | SET(f: PFlag) | REP | SEP | XCE
    | BRANCH(test: Test) | BRL | JMP | JMP_IND | JMP_IND_LONG | JMP_IND_X | JMP_LONG
    | JSR | JSR_IND_X | JSR_LONG | RTS | RTL | RTI
    | NOP | WDM | WAI | STP
    | BRK | COP | IRQ | NMI | RES
    | MVN | MVP

  /** Opcodes 0x100 to 0x102 stand for the interrupts. */
  function Switch(p0: int): (a: Arm)
    requires 0 <= p0 <= 0x102
  {
    if p0 == 0x100 then IRQ
    else if p0 == 0x101 then NMI
    else if p0 == 0x102 then RES
    else
      var column := p0 % 0x10;
      match p0 / 0x10
      case 0x0 => Row0(column)
      case 0x1 => Row1(column)
      case 0x2 => Row2(column)
      case 0x3 => Row3(column)
      case 0x4 => Row4(column)
      case 0x5 => Row5(column)
      case 0x6 => Row6(column)
      case 0x7 => Row7(column)
      case 0x8 => Row8(column)
      case 0x9 => Row9(column)
      case 0xa => RowA(column)
      case 0xb => RowB(column)
      case 0xc => RowC(column)
      case 0xd => RowD(column)
      case 0xe => RowE(column)
      case _ => RowF(column)
  }

  function Row0(column: int): Arm {
    match column
    case 0x0 => BRK                                 case 0x1 => Compute(ORA, Bytes(2))
    case 0x2 => COP                                 case 0x3 => Compute(ORA, Bytes(2))
    case 0x4 => Compute(TSB, Bytes(2))              case 0x5 => Compute(ORA, Bytes(2))
    case 0x6 => Compute(ASL, Bytes(2))              case 0x7 => Compute(ORA, Bytes(2))
    case 0x8 => PHP                                 case 0x9 => Compute(ORA, ByAccumulator)
    case 0xa => Compute(ASL, Bytes(1))              case 0xb => PHD
    case 0xc => Compute(TSB, Bytes(3))              case 0xd => Compute(ORA, Bytes(3))
    case 0xe => Compute(ASL, Bytes(3))              case _ => Compute(ORA, Bytes(4))
  }

  function Row1(column: int): Arm {
    match column
    case 0x0 => BRANCH(SignIs(false))               case 0x1 => Compute(ORA, Bytes(2))
    case 0x2 => Compute(ORA, Bytes(2))              case 0x3 => Compute(ORA, Bytes(2))
    case 0x4 => Compute(TRB, Bytes(2))              case 0x5 => Compute(ORA, Bytes(2))
    case 0x6 => Compute(ASL, Bytes(2))              case 0x7 => Compute(ORA, Bytes(2))
    case 0x8 => CLEAR(C)                            case 0x9 => Compute(ORA, Bytes(3))
    case 0xa => Compute(INC, Bytes(1))              case 0xb => TCS
    case 0xc => Compute(TRB, Bytes(3))              case 0xd => Compute(ORA, Bytes(3))
    case 0xe => Compute(ASL, Bytes(3))              case _ => Compute(ORA, Bytes(4))
  }

  function Row2(column: int): Arm {
    match column
    case 0x0 => JSR                                 case 0x1 => Compute(AND, Bytes(2))
    case 0x2 => JSR_LONG                            case 0x3 => Compute(AND, Bytes(2))
    case 0x4 => Compute(BIT, Bytes(2))              case 0x5 => Compute(AND, Bytes(2))
    case 0x6 => Compute(ROL, Bytes(2))              case 0x7 => Compute(AND, Bytes(2))
    case 0x8 => PLP                                 case 0x9 => Compute(AND, ByAccumulator)
    case 0xa => Compute(ROL, Bytes(1))              case 0xb => PLD
    case 0xc => Compute(BIT, Bytes(3))              case 0xd => Compute(AND, Bytes(3))
    case 0xe => Compute(ROL, Bytes(3))              case _ => Compute(AND, Bytes(4))
  }

  function Row3(column: int): Arm {
    match column
    case 0x0 => BRANCH(SignIs(true))                case 0x1 => Compute(AND, Bytes(2))
    case 0x2 => Compute(AND, Bytes(2))              case 0x3 => Compute(AND, Bytes(2))
    case 0x4 => Compute(BIT, Bytes(2))              case 0x5 => Compute(AND, Bytes(2))
    case 0x6 => Compute(ROL, Bytes(2))              case 0x7 => Compute(AND, Bytes(2))
    case 0x8 => SET(C)                              case 0x9 => Compute(AND, Bytes(3))
    case 0xa => Compute(DEC, Bytes(1))              case 0xb => Compute(TSC, Bytes(1))
    case 0xc => Compute(BIT, Bytes(3))              case 0xd => Compute(AND, Bytes(3))
    case 0xe => Compute(ROL, Bytes(3))              case _ => Compute(AND, Bytes(4))
  }

  function Row4(column: int): Arm {
    match column
    case 0x0 => RTI                                 case 0x1 => Compute(EOR, Bytes(2))
    case 0x2 => WDM                                 case 0x3 => Compute(EOR, Bytes(2))
    case 0x4 => MVP                                 case 0x5 => Compute(EOR, Bytes(2))
    case 0x6 => Compute(LSR, Bytes(2))              case 0x7 => Compute(EOR, Bytes(2))
    case 0x8 => PHA                                 case 0x9 => Compute(EOR, ByAccumulator)
    case 0xa => Compute(LSR, Bytes(1))              case 0xb => PHK
    case 0xc => JMP                                 case 0xd => Compute(EOR, Bytes(3))
    case 0xe => Compute(LSR, Bytes(3))              case _ => Compute(EOR, Bytes(4))
  }

  function Row5(column: int): Arm {
    match column
    case 0x0 => BRANCH(OverflowIs(false))           case 0x1 => Compute(EOR, Bytes(2))
    case 0x2 => Compute(EOR, Bytes(2))              case 0x3 => Compute(EOR, Bytes(2))
    case 0x4 => MVN                                 case 0x5 => Compute(EOR, Bytes(2))
    case 0x6 => Compute(LSR, Bytes(2))              case 0x7 => Compute(EOR, Bytes(2))
    case 0x8 => CLEAR(I)                            case 0x9 => Compute(EOR, Bytes(3))
    case 0xa => PHY                                 case 0xb => Compute(TCD, Bytes(1))
    case 0xc => JMP_LONG                            case 0xd => Compute(EOR, Bytes(3))
    case 0xe => Compute(LSR, Bytes(3))              case _ => Compute(EOR, Bytes(4))
  }

  function Row6(column: int): Arm {
    match column
    case 0x0 => RTS                                 case 0x1 => Compute(ADC, Bytes(2))
    case 0x2 => PER                                 case 0x3 => Compute(ADC, Bytes(2))
    case 0x4 => Compute(STZ, Bytes(2))              case 0x5 => Compute(ADC, Bytes(2))
    case 0x6 => Compute(ROR, Bytes(2))              case 0x7 => Compute(ADC, Bytes(2))
    case 0x8 => PLA                                 case 0x9 => Compute(ADC, ByAccumulator)
    case 0xa => Compute(ROR, Bytes(1))              case 0xb => RTL
    case 0xc => JMP_IND                             case 0xd => Compute(ADC, Bytes(3))
    case 0xe => Compute(ROR, Bytes(3))              case _ => Compute(ADC, Bytes(4))
  }

  function Row7(column: int): Arm {
    match column
    case 0x0 => BRANCH(OverflowIs(true))            case 0x1 => Compute(ADC, Bytes(2))
    case 0x2 => Compute(ADC, Bytes(2))              case 0x3 => Compute(ADC, Bytes(2))
    case 0x4 => Compute(STZ, Bytes(2))              case 0x5 => Compute(ADC, Bytes(2))
    case 0x6 => Compute(ROR, Bytes(2))              case 0x7 => Compute(ADC, Bytes(2))
    case 0x8 => SET(I)                              case 0x9 => Compute(ADC, Bytes(3))
    case 0xa => PLI(RegY)                           case 0xb => Compute(TDC, Bytes(1))
    case 0xc => JMP_IND_X                           case 0xd => Compute(ADC, Bytes(3))
    case 0xe => Compute(ROR, Bytes(3))              case _ => Compute(ADC, Bytes(4))
  }

  function Row8(column: int): Arm {
    match column
    case 0x0 => BRANCH(Always)                      case 0x1 => Compute(STA, Bytes(2))
    case 0x2 => BRL                                 case 0x3 => Compute(STA, Bytes(2))
    case 0x4 => Compute(STY, Bytes(2))              case 0x5 => Compute(STA, Bytes(2))
    case 0x6 => Compute(STX, Bytes(2))              case 0x7 => Compute(STA, Bytes(2))
    case 0x8 => DEI(RegY)                           case 0x9 => Compute(BIT_IMM, ByAccumulator)
    case 0xa => Compute(TXA, Bytes(1))              case 0xb => PHB
    case 0xc => Compute(STY, Bytes(3))              case 0xd => Compute(STA, Bytes(3))
    case 0xe => Compute(STX, Bytes(3))              case _ => Compute(STA, Bytes(4))
  }

  function Row9(column: int): Arm {
    match column
    case 0x0 => BRANCH(CarryIs(false))              case 0x1 => Compute(STA, Bytes(2))
    case 0x2 => Compute(STA, Bytes(2))              case 0x3 => Compute(STA, Bytes(2))
    case 0x4 => Compute(STY, Bytes(2))              case 0x5 => Compute(STA, Bytes(2))
    case 0x6 => Compute(STX, Bytes(2))              case 0x7 => Compute(STA, Bytes(2))
    case 0x8 => Compute(TYA, Bytes(1))              case 0x9 => Compute(STA, Bytes(3))
    case 0xa => TXS                                 case 0xb => TXY
    case 0xc => Compute(STZ, Bytes(3))              case 0xd => Compute(STA, Bytes(3))
    case 0xe => Compute(STZ, Bytes(3))              case _ => Compute(STA, Bytes(4))
  }

  function RowA(column: int): Arm {
    match column
    case 0x0 => LDI(RegY, ByIndex)                  case 0x1 => Compute(LDA, Bytes(2))
    case 0x2 => LDI(RegX, ByIndex)                  case 0x3 => Compute(LDA, Bytes(2))
    case 0x4 => LDI(RegY, Bytes(2))                 case 0x5 => Compute(LDA, Bytes(2))
    case 0x6 => LDI(RegX, Bytes(2))                 case 0x7 => Compute(LDA, Bytes(2))
    case 0x8 => TAY                                 case 0x9 => Compute(LDA, ByAccumulator)
    case 0xa => TAX                                 case 0xb => PLB
    case 0xc => LDI(RegY, Bytes(3))                 case 0xd => Compute(LDA, Bytes(3))
    case 0xe => LDI(RegX, Bytes(3))                 case _ => Compute(LDA, Bytes(4))
  }

  function RowB(column: int): Arm {
    match column
    case 0x0 => BRANCH(CarryIs(true))               case 0x1 => Compute(LDA, Bytes(2))
    case 0x2 => Compute(LDA, Bytes(2))              case 0x3 => Compute(LDA, Bytes(2))
    case 0x4 => LDI(RegY, Bytes(2))                 case 0x5 => Compute(LDA, Bytes(2))
    case 0x6 => LDI(RegX, Bytes(2))                 case 0x7 => Compute(LDA, Bytes(2))
    case 0x8 => CLEAR(V)                            case 0x9 => Compute(LDA, Bytes(3))
    case 0xa => TSX                                 case 0xb => TYX
    case 0xc => LDI(RegY, Bytes(3))                 case 0xd => Compute(LDA, Bytes(3))
    case 0xe => LDI(RegX, Bytes(3))                 case _ => Compute(LDA, Bytes(4))
  }

  function RowC(column: int): Arm {
    match column
    case 0x0 => Compute(CPY, ByIndex)               case 0x1 => Compute(CMP, Bytes(2))
    case 0x2 => REP                                 case 0x3 => Compute(CMP, Bytes(2))
    case 0x4 => Compute(CPY, Bytes(2))              case 0x5 => Compute(CMP, Bytes(2))
    case 0x6 => Compute(DEC, Bytes(2))              case 0x7 => Compute(CMP, Bytes(2))
    case 0x8 => INI(RegY)                           case 0x9 => Compute(CMP, ByAccumulator)
    case 0xa => DEI(RegX)                           case 0xb => WAI
    case 0xc => Compute(CPY, Bytes(3))              case 0xd => Compute(CMP, Bytes(3))
    case 0xe => Compute(DEC, Bytes(3))              case _ => Compute(CMP, Bytes(4))
  }

  function RowD(column: int): Arm {
    match column
    case 0x0 => BRANCH(ZeroIs(false))               case 0x1 => Compute(CMP, Bytes(2))
    case 0x2 => Compute(CMP, Bytes(2))              case 0x3 => Compute(CMP, Bytes(2))
    case 0x4 => PEI                                 case 0x5 => Compute(CMP, Bytes(2))
    case 0x6 => Compute(DEC, Bytes(2))              case 0x7 => Compute(CMP, Bytes(2))
    case 0x8 => CLEAR(D)                            case 0x9 => Compute(CMP, Bytes(3))
    case 0xa => PHX                                 case 0xb => STP
    case 0xc => JMP_IND_LONG                        case 0xd => Compute(CMP, Bytes(3))
    case 0xe => Compute(DEC, Bytes(3))              case _ => Compute(CMP, Bytes(4))
  }

  function RowE(column: int): Arm {
    match column
    case 0x0 => Compute(CPX, ByIndex)               case 0x1 => Compute(SBC, Bytes(2))
    case 0x2 => SEP                                 case 0x3 => Compute(SBC, Bytes(2))
    case 0x4 => Compute(CPX, Bytes(2))              case 0x5 => Compute(SBC, Bytes(2))
    case 0x6 => Compute(INC, Bytes(2))              case 0x7 => Compute(SBC, Bytes(2))
    case 0x8 => INI(RegX)                           case 0x9 => Compute(SBC, ByAccumulator)
    case 0xa => NOP                                 case 0xb => Compute(XBA, Bytes(1))
    case 0xc => Compute(CPX, Bytes(3))              case 0xd => Compute(SBC, Bytes(3))
    case 0xe => Compute(INC, Bytes(3))              case _ => Compute(SBC, Bytes(4))
  }

  function RowF(column: int): Arm {
    match column
    case 0x0 => BRANCH(ZeroIs(true))                case 0x1 => Compute(SBC, Bytes(2))
    case 0x2 => Compute(SBC, Bytes(2))              case 0x3 => Compute(SBC, Bytes(2))
    case 0x4 => PEA                                 case 0x5 => Compute(SBC, Bytes(2))
    case 0x6 => Compute(INC, Bytes(2))              case 0x7 => Compute(SBC, Bytes(2))
    case 0x8 => SET(D)                              case 0x9 => Compute(SBC, Bytes(3))
    case 0xa => PLI(RegX)                           case 0xb => XCE
    case 0xc => JSR_IND_X                           case 0xd => Compute(SBC, Bytes(3))
    case 0xe => Compute(INC, Bytes(3))              case _ => Compute(SBC, Bytes(4))
  }
}
