/**
 The opcode switch of 6510dtvcore.c, each arm as the macro it applies and the
 arguments it passes.
 */
module SwitchDtv {
  import opened CpuModel

  datatype GetFn =
    | GetImm | GetZero | GetZeroX | GetZeroY | GetAbs | GetAbsX | GetAbsY | GetIndX | GetIndY
    | GetAbsXRmw | GetAbsYRmw | GetIndYRmw

  datatype SetFn =
    | SetZero | SetZeroX | SetZeroY | SetAbs | SetAbsX | SetAbsY | SetIndX | SetIndY
    | SetZeroRmw | SetZeroXRmw | SetAbsRmw | SetAbsXRmw | SetAbsYRmw | SetIndRmw

  datatype Arm =
    | ReadArm(rop: ReadOp, get: GetFn, pcInc: nat)
    | WriteArm(wop: WriteOp, set_: SetFn, pcInc: nat)
    | ShAbs(sop: ShOp)
    | ShaIndY
    | ModifyArm(mop: ModifyOp, get: GetFn, set_: SetFn, pcInc: nat)
    | ImpliedArm(iop: ImpliedOp)
    | BranchArm(cond: Condition)
    | FlowArm(fop: FlowOp)
    | Jam

  function Row0(column: int): Arm {
    match column
    case 0x0 => FlowArm(BRK)                             case 0x1 => ReadArm(ORA, GetIndX, 2)
    case 0x2 => Jam                                      case 0x3 => ModifyArm(SLO, GetIndX, SetIndRmw, 2)
    case 0x4 => ReadArm(NOOP, GetZero, 2)                case 0x5 => ReadArm(ORA, GetZero, 2)
    case 0x6 => ModifyArm(ASL, GetZero, SetZeroRmw, 2)   case 0x7 => ModifyArm(SLO, GetZero, SetZeroRmw, 2)
    case 0x8 => FlowArm(PHP)                             case 0x9 => ReadArm(ORA, GetImm, 2)
    case 0xa => ImpliedArm(ASL_A)                        case 0xb => ReadArm(ANC, GetImm, 2)
    case 0xc => ReadArm(NOOP, GetAbs, 3)                 case 0xd => ReadArm(ORA, GetAbs, 3)
    case 0xe => ModifyArm(ASL, GetAbs, SetAbsRmw, 3)     case _ => ModifyArm(SLO, GetAbs, SetAbsRmw, 3)
  }

  function Row1(column: int): Arm {
    match column
    case 0x0 => BranchArm(BPL)                           case 0x1 => ReadArm(ORA, GetIndY, 2)
    case 0x2 => Jam                                      case 0x3 => ModifyArm(SLO, GetIndYRmw, SetIndRmw, 2)
    case 0x4 => ReadArm(NOOP, GetZeroX, 2)               case 0x5 => ReadArm(ORA, GetZeroX, 2)
    case 0x6 => ModifyArm(ASL, GetZeroX, SetZeroXRmw, 2) case 0x7 => ModifyArm(SLO, GetZeroX, SetZeroXRmw, 2)
    case 0x8 => ImpliedArm(CLC)                          case 0x9 => ReadArm(ORA, GetAbsY, 3)
    case 0xa => ImpliedArm(NOP)                          case 0xb => ModifyArm(SLO, GetAbsYRmw, SetAbsYRmw, 3)
    case 0xc => ReadArm(NOOP, GetAbsX, 3)                case 0xd => ReadArm(ORA, GetAbsX, 3)
    case 0xe => ModifyArm(ASL, GetAbsXRmw, SetAbsXRmw, 3) case _ => ModifyArm(SLO, GetAbsXRmw, SetAbsXRmw, 3)
  }

  function Row2(column: int): Arm {
    match column
    case 0x0 => FlowArm(JSR)                             case 0x1 => ReadArm(AND, GetIndX, 2)
    case 0x2 => Jam                                      case 0x3 => ModifyArm(RLA, GetIndX, SetIndRmw, 2)
    case 0x4 => ReadArm(BIT, GetZero, 2)                 case 0x5 => ReadArm(AND, GetZero, 2)
    case 0x6 => ModifyArm(ROL, GetZero, SetZeroRmw, 2)   case 0x7 => ModifyArm(RLA, GetZero, SetZeroRmw, 2)
    case 0x8 => FlowArm(PLP)                             case 0x9 => ReadArm(AND, GetImm, 2)
    case 0xa => ImpliedArm(ROL_A)                        case 0xb => ReadArm(ANC, GetImm, 2)
    case 0xc => ReadArm(BIT, GetAbs, 3)                  case 0xd => ReadArm(AND, GetAbs, 3)
    case 0xe => ModifyArm(ROL, GetAbs, SetAbsRmw, 3)     case _ => ModifyArm(RLA, GetAbs, SetAbsRmw, 3)
  }

  function Row3(column: int): Arm {
    match column
    case 0x0 => BranchArm(BMI)                           case 0x1 => ReadArm(AND, GetIndY, 2)
    case 0x2 => Jam                                      case 0x3 => ModifyArm(RLA, GetIndYRmw, SetIndRmw, 2)
    case 0x4 => ReadArm(NOOP, GetZeroX, 2)               case 0x5 => ReadArm(AND, GetZeroX, 2)
    case 0x6 => ModifyArm(ROL, GetZeroX, SetZeroXRmw, 2) case 0x7 => ModifyArm(RLA, GetZeroX, SetZeroXRmw, 2)
    case 0x8 => ImpliedArm(SEC)                          case 0x9 => ReadArm(AND, GetAbsY, 3)
    case 0xa => ImpliedArm(NOP)                          case 0xb => ModifyArm(RLA, GetAbsYRmw, SetAbsYRmw, 3)
    case 0xc => ReadArm(NOOP, GetAbsX, 3)                case 0xd => ReadArm(AND, GetAbsX, 3)
    case 0xe => ModifyArm(ROL, GetAbsXRmw, SetAbsXRmw, 3) case _ => ModifyArm(RLA, GetAbsXRmw, SetAbsXRmw, 3)
  }

  function Row4(column: int): Arm {
    match column
    case 0x0 => FlowArm(RTI)                             case 0x1 => ReadArm(EOR, GetIndX, 2)
    case 0x2 => Jam                                      case 0x3 => ModifyArm(SRE, GetIndX, SetIndRmw, 2)
    case 0x4 => ReadArm(NOOP, GetZero, 2)                case 0x5 => ReadArm(EOR, GetZero, 2)
    case 0x6 => ModifyArm(LSR, GetZero, SetZeroRmw, 2)   case 0x7 => ModifyArm(SRE, GetZero, SetZeroRmw, 2)
    case 0x8 => FlowArm(PHA)                             case 0x9 => ReadArm(EOR, GetImm, 2)
    case 0xa => ImpliedArm(LSR_A)                        case 0xb => ReadArm(ASR, GetImm, 2)
    case 0xc => FlowArm(JMP)                             case 0xd => ReadArm(EOR, GetAbs, 3)
    case 0xe => ModifyArm(LSR, GetAbs, SetAbsRmw, 3)     case _ => ModifyArm(SRE, GetAbs, SetAbsRmw, 3)
  }

  function Row5(column: int): Arm {
    match column
    case 0x0 => BranchArm(BVC)                           case 0x1 => ReadArm(EOR, GetIndY, 2)
    case 0x2 => Jam                                      case 0x3 => ModifyArm(SRE, GetIndYRmw, SetIndRmw, 2)
    case 0x4 => ReadArm(NOOP, GetZeroX, 2)               case 0x5 => ReadArm(EOR, GetZeroX, 2)
    case 0x6 => ModifyArm(LSR, GetZeroX, SetZeroXRmw, 2) case 0x7 => ModifyArm(SRE, GetZeroX, SetZeroXRmw, 2)
    case 0x8 => ImpliedArm(CLI)                          case 0x9 => ReadArm(EOR, GetAbsY, 3)
    case 0xa => ImpliedArm(NOP)                          case 0xb => ModifyArm(SRE, GetAbsYRmw, SetAbsYRmw, 3)
    case 0xc => ReadArm(NOOP, GetAbsX, 3)                case 0xd => ReadArm(EOR, GetAbsX, 3)
    case 0xe => ModifyArm(LSR, GetAbsXRmw, SetAbsXRmw, 3) case _ => ModifyArm(SRE, GetAbsXRmw, SetAbsXRmw, 3)
  }

  function Row6(column: int): Arm {
    match column
    case 0x0 => FlowArm(RTS)                             case 0x1 => ReadArm(ADC, GetIndX, 2)
    case 0x2 => Jam                                      case 0x3 => ModifyArm(RRA, GetIndX, SetIndRmw, 2)
    case 0x4 => ReadArm(NOOP, GetZero, 2)                case 0x5 => ReadArm(ADC, GetZero, 2)
    case 0x6 => ModifyArm(ROR, GetZero, SetZeroRmw, 2)   case 0x7 => ModifyArm(RRA, GetZero, SetZeroRmw, 2)
    case 0x8 => FlowArm(PLA)                             case 0x9 => ReadArm(ADC, GetImm, 2)
    case 0xa => ImpliedArm(ROR_A)                        case 0xb => ReadArm(ARR, GetImm, 2)
    case 0xc => FlowArm(JMP_IND)                         case 0xd => ReadArm(ADC, GetAbs, 3)
    case 0xe => ModifyArm(ROR, GetAbs, SetAbsRmw, 3)     case _ => ModifyArm(RRA, GetAbs, SetAbsRmw, 3)
  }

  function Row7(column: int): Arm {
    match column
    case 0x0 => BranchArm(BVS)                           case 0x1 => ReadArm(ADC, GetIndY, 2)
    case 0x2 => Jam                                      case 0x3 => ModifyArm(RRA, GetIndYRmw, SetIndRmw, 2)
    case 0x4 => ReadArm(NOOP, GetZeroX, 2)               case 0x5 => ReadArm(ADC, GetZeroX, 2)
    case 0x6 => ModifyArm(ROR, GetZeroX, SetZeroXRmw, 2) case 0x7 => ModifyArm(RRA, GetZeroX, SetZeroXRmw, 2)
    case 0x8 => ImpliedArm(SEI)                          case 0x9 => ReadArm(ADC, GetAbsY, 3)
    case 0xa => ImpliedArm(NOP)                          case 0xb => ModifyArm(RRA, GetAbsYRmw, SetAbsYRmw, 3)
    case 0xc => ReadArm(NOOP, GetAbsX, 3)                case 0xd => ReadArm(ADC, GetAbsX, 3)
    case 0xe => ModifyArm(ROR, GetAbsXRmw, SetAbsXRmw, 3) case _ => ModifyArm(RRA, GetAbsXRmw, SetAbsXRmw, 3)
  }

  function Row8(column: int): Arm {
    match column
    case 0x0 => ReadArm(NOOP, GetImm, 2)                 case 0x1 => WriteArm(STA, SetIndX, 2)
    case 0x2 => ReadArm(NOOP, GetImm, 2)                 case 0x3 => WriteArm(SAX, SetIndX, 2)
    case 0x4 => WriteArm(STY, SetZero, 2)                case 0x5 => WriteArm(STA, SetZero, 2)
    case 0x6 => WriteArm(STX, SetZero, 2)                case 0x7 => WriteArm(SAX, SetZero, 2)
    case 0x8 => ImpliedArm(DEY)                          case 0x9 => ReadArm(NOOP, GetImm, 2)
    case 0xa => ImpliedArm(TXA)                          case 0xb => ReadArm(ANE, GetImm, 2)
    case 0xc => WriteArm(STY, SetAbs, 3)                 case 0xd => WriteArm(STA, SetAbs, 3)
    case 0xe => WriteArm(STX, SetAbs, 3)                 case _ => WriteArm(SAX, SetAbs, 3)
  }

  function Row9(column: int): Arm {
    match column
    case 0x0 => BranchArm(BCC)                           case 0x1 => WriteArm(STA, SetIndY, 2)
    case 0x2 => Jam                                      case 0x3 => ShaIndY
    case 0x4 => WriteArm(STY, SetZeroX, 2)               case 0x5 => WriteArm(STA, SetZeroX, 2)
    case 0x6 => WriteArm(STX, SetZeroY, 2)               case 0x7 => WriteArm(SAX, SetZeroY, 2)
    case 0x8 => ImpliedArm(TYA)                          case 0x9 => WriteArm(STA, SetAbsY, 3)
    case 0xa => ImpliedArm(TXS)                          case 0xb => ShAbs(SHS)
    case 0xc => ShAbs(SHY)                               case 0xd => WriteArm(STA, SetAbsX, 3)
    case 0xe => ShAbs(SHX)                               case _ => ShAbs(SHA)
  }

  function RowA(column: int): Arm {
    match column
    case 0x0 => ReadArm(LDY, GetImm, 2)                  case 0x1 => ReadArm(LDA, GetIndX, 2)
    case 0x2 => ReadArm(LDX, GetImm, 2)                  case 0x3 => ReadArm(LAX, GetIndX, 2)
    case 0x4 => ReadArm(LDY, GetZero, 2)                 case 0x5 => ReadArm(LDA, GetZero, 2)
    case 0x6 => ReadArm(LDX, GetZero, 2)                 case 0x7 => ReadArm(LAX, GetZero, 2)
    case 0x8 => ImpliedArm(TAY)                          case 0x9 => ReadArm(LDA, GetImm, 2)
    case 0xa => ImpliedArm(TAX)                          case 0xb => ReadArm(LXA, GetImm, 2)
    case 0xc => ReadArm(LDY, GetAbs, 3)                  case 0xd => ReadArm(LDA, GetAbs, 3)
    case 0xe => ReadArm(LDX, GetAbs, 3)                  case _ => ReadArm(LAX, GetAbs, 3)
  }

  function RowB(column: int): Arm {
    match column
    case 0x0 => BranchArm(BCS)                           case 0x1 => ReadArm(LDA, GetIndY, 2)
    case 0x2 => Jam                                      case 0x3 => ReadArm(LAX, GetIndY, 2)
    case 0x4 => ReadArm(LDY, GetZeroX, 2)                case 0x5 => ReadArm(LDA, GetZeroX, 2)
    case 0x6 => ReadArm(LDX, GetZeroY, 2)                case 0x7 => ReadArm(LAX, GetZeroY, 2)
    case 0x8 => ImpliedArm(CLV)                          case 0x9 => ReadArm(LDA, GetAbsY, 3)
    case 0xa => ImpliedArm(TSX)                          case 0xb => ReadArm(LAS, GetAbsY, 3)
    case 0xc => ReadArm(LDY, GetAbsX, 3)                 case 0xd => ReadArm(LDA, GetAbsX, 3)
    case 0xe => ReadArm(LDX, GetAbsY, 3)                 case _ => ReadArm(LAX, GetAbsY, 3)
  }

  function RowC(column: int): Arm {
    match column
    case 0x0 => ReadArm(CPY, GetImm, 2)                  case 0x1 => ReadArm(CMP, GetIndX, 2)
    case 0x2 => ReadArm(NOOP, GetImm, 2)                 case 0x3 => ModifyArm(DCP, GetIndX, SetIndRmw, 2)
    case 0x4 => ReadArm(CPY, GetZero, 2)                 case 0x5 => ReadArm(CMP, GetZero, 2)
    case 0x6 => ModifyArm(DEC, GetZero, SetZeroRmw, 2)   case 0x7 => ModifyArm(DCP, GetZero, SetZeroRmw, 2)
    case 0x8 => ImpliedArm(INY)                          case 0x9 => ReadArm(CMP, GetImm, 2)
    case 0xa => ImpliedArm(DEX)                          case 0xb => ReadArm(SBX, GetImm, 2)
    case 0xc => ReadArm(CPY, GetAbs, 3)                  case 0xd => ReadArm(CMP, GetAbs, 3)
    case 0xe => ModifyArm(DEC, GetAbs, SetAbsRmw, 3)     case _ => ModifyArm(DCP, GetAbs, SetAbsRmw, 3)
  }

  function RowD(column: int): Arm {
    match column
    case 0x0 => BranchArm(BNE)                           case 0x1 => ReadArm(CMP, GetIndY, 2)
    case 0x2 => Jam                                      case 0x3 => ModifyArm(DCP, GetIndYRmw, SetIndRmw, 2)
    case 0x4 => ReadArm(NOOP, GetZeroX, 2)               case 0x5 => ReadArm(CMP, GetZeroX, 2)
    case 0x6 => ModifyArm(DEC, GetZeroX, SetZeroXRmw, 2) case 0x7 => ModifyArm(DCP, GetZeroX, SetZeroXRmw, 2)
    case 0x8 => ImpliedArm(CLD)                          case 0x9 => ReadArm(CMP, GetAbsY, 3)
    case 0xa => ImpliedArm(NOP)                          case 0xb => ModifyArm(DCP, GetAbsYRmw, SetAbsYRmw, 3)
    case 0xc => ReadArm(NOOP, GetAbsX, 3)                case 0xd => ReadArm(CMP, GetAbsX, 3)
    case 0xe => ModifyArm(DEC, GetAbsXRmw, SetAbsXRmw, 3) case _ => ModifyArm(DCP, GetAbsXRmw, SetAbsXRmw, 3)
  }

  function RowE(column: int): Arm {
    match column
    case 0x0 => ReadArm(CPX, GetImm, 2)                  case 0x1 => ReadArm(SBC, GetIndX, 2)
    case 0x2 => ReadArm(NOOP, GetImm, 2)                 case 0x3 => ModifyArm(ISB, GetIndX, SetIndRmw, 2)
    case 0x4 => ReadArm(CPX, GetZero, 2)                 case 0x5 => ReadArm(SBC, GetZero, 2)
    case 0x6 => ModifyArm(INC, GetZero, SetZeroRmw, 2)   case 0x7 => ModifyArm(ISB, GetZero, SetZeroRmw, 2)
    case 0x8 => ImpliedArm(INX)                          case 0x9 => ReadArm(SBC, GetImm, 2)
    case 0xa => ImpliedArm(NOP)                          case 0xb => ReadArm(SBC, GetImm, 2)
    case 0xc => ReadArm(CPX, GetAbs, 3)                  case 0xd => ReadArm(SBC, GetAbs, 3)
    case 0xe => ModifyArm(INC, GetAbs, SetAbsRmw, 3)     case _ => ModifyArm(ISB, GetAbs, SetAbsRmw, 3)
  }

  function RowF(column: int): Arm {
    match column
    case 0x0 => BranchArm(BEQ)                           case 0x1 => ReadArm(SBC, GetIndY, 2)
    case 0x2 => Jam                                      case 0x3 => ModifyArm(ISB, GetIndYRmw, SetIndRmw, 2)
    case 0x4 => ReadArm(NOOP, GetZeroX, 2)               case 0x5 => ReadArm(SBC, GetZeroX, 2)
    case 0x6 => ModifyArm(INC, GetZeroX, SetZeroXRmw, 2) case 0x7 => ModifyArm(ISB, GetZeroX, SetZeroXRmw, 2)
    case 0x8 => ImpliedArm(SED)                          case 0x9 => ReadArm(SBC, GetAbsY, 3)
    case 0xa => ImpliedArm(NOP)                          case 0xb => ModifyArm(ISB, GetAbsYRmw, SetAbsYRmw, 3)
    case 0xc => ReadArm(NOOP, GetAbsX, 3)                case 0xd => ReadArm(SBC, GetAbsX, 3)
    case 0xe => ModifyArm(INC, GetAbsXRmw, SetAbsXRmw, 3) case _ => ModifyArm(ISB, GetAbsXRmw, SetAbsXRmw, 3)
  }

  /** The arm of the opcode switch an opcode selects. */
  function Switch(opcode: byte): Arm {
    var column := opcode % 0x10;
    match opcode / 0x10
    case 0 => Row0(column) case 1 => Row1(column) case 2 => Row2(column) case 3 => Row3(column)
    case 4 => Row4(column) case 5 => Row5(column) case 6 => Row6(column) case 7 => Row7(column)
    case 8 => Row8(column) case 9 => Row9(column) case 10 => RowA(column) case 11 => RowB(column)
    case 12 => RowC(column) case 13 => RowD(column) case 14 => RowE(column) case _ => RowF(column)
  }

  // ------------------------------------------------------ what an arm means

  function ReadMode(get: GetFn): MaybeMode {
    match get
    case GetImm => In(Imm)
    case GetZero => In(Zp) case GetZeroX => In(ZpX) case GetZeroY => In(ZpY)
    case GetAbs => In(Abs) case GetAbsX => In(AbsX) case GetAbsY => In(AbsY)
    case GetIndX => In(IndX) case GetIndY => In(IndY)
    case GetAbsXRmw | GetAbsYRmw | GetIndYRmw => NoMode
  }

  function WriteMode(set_: SetFn): MaybeMode {
    match set_
    case SetZero => In(Zp) case SetZeroX => In(ZpX) case SetZeroY => In(ZpY)
    case SetAbs => In(Abs) case SetAbsX => In(AbsX) case SetAbsY => In(AbsY)
    case SetIndX => In(IndX) case SetIndY => In(IndY)
    case SetZeroRmw | SetZeroXRmw | SetAbsRmw | SetAbsXRmw | SetAbsYRmw | SetIndRmw => NoMode
  }

  function ModifyMode(get: GetFn, set_: SetFn): MaybeMode {
    match set_
    case SetZeroRmw => if get.GetZero? then In(Zp) else NoMode
    case SetZeroXRmw => if get.GetZeroX? then In(ZpX) else NoMode
    case SetAbsRmw => if get.GetAbs? then In(Abs) else NoMode
    case SetAbsXRmw => if get.GetAbsXRmw? then In(AbsX) else NoMode
    case SetAbsYRmw => if get.GetAbsYRmw? then In(AbsY) else NoMode
    case SetIndRmw => if get.GetIndX? then In(IndX) else if get.GetIndYRmw? then In(IndY) else NoMode
    case SetZero | SetZeroX | SetZeroY | SetAbs | SetAbsX | SetAbsY | SetIndX | SetIndY => NoMode
  }

  predicate Sized(mode: MaybeMode, pcInc: nat) { mode.In? && pcInc == Size(mode.mode) }

  /** The instruction an arm carries out, provided it advances past it. */
  function Meaning(arm: Arm): Decoded {
    match arm
    case ReadArm(op, get, pcInc) =>
      var mode := ReadMode(get);
      if Sized(mode, pcInc) then Does(Read(op, mode.mode)) else Jams
    case WriteArm(op, set_, pcInc) =>
      var mode := WriteMode(set_);
      if Sized(mode, pcInc) then Does(Write(op, mode.mode)) else Jams
    case ModifyArm(op, get, set_, pcInc) =>
      var mode := ModifyMode(get, set_);
      if Sized(mode, pcInc) then Does(Modify(op, mode.mode)) else Jams
    case ShAbs(op) => Does(WriteHigh(op, if op.SHY? then AbsX else AbsY))
    case ShaIndY => Does(WriteHigh(SHA, IndY))
    case ImpliedArm(op) => Does(Implied(op))
    case BranchArm(cond) => Does(Branch(cond))
    case FlowArm(op) => Does(Flow(op))
    case Jam => Jams
  }
}
