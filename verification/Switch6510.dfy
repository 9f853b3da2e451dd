/**
 The opcode switch of 6510core.c, each arm as the macro it applies and the
 arguments it passes.
 */
module Switch6510 {
  import opened CpuModel

  /** Where an operand is loaded from; indexing, page crossings and the cycles of
      indirection are handled by the load itself. */
  datatype LoadFn =
    | Immediate | LoadZero | LoadZeroX | LoadZeroY | LoadAbs | LoadAbsX | LoadAbsY | LoadIndX | LoadIndY

  /** An address argument; the masked ones wrap in the zero page. */
  datatype AddrArg = P1 | P1X | P1Y | P1XMasked | P1YMasked | P2 | ZeroIndX

  datatype ModifyLoad = FromZero | FromAbs | FromAbsX | FromAbsY

  datatype StoreFn = StoreZero | StoreAbs | StoreAbsX | StoreAbsY | StoreAbsXRmw | StoreAbsYRmw

  datatype Arm =
    | ReadArm(rop: ReadOp, load: LoadFn, clkInc: nat, pcInc: nat)
    | WriteArm(wop: WriteOp, addr: AddrArg, clkInc1: nat, store: StoreFn, clkInc2: nat, pcInc: nat)
    | StaIndY
    | ShAbs(sop: ShOp)
    | ShaIndY
    | ModifyArm(mop: ModifyOp, addr: AddrArg, clkInc1: nat, from: ModifyLoad, store: StoreFn, clkInc2: nat, pcInc: nat)
    | ModifyIndY(mop: ModifyOp)
    | ImpliedArm(iop: ImpliedOp)
    | BranchArm(cond: Condition)
    | FlowArm(fop: FlowOp)
    | Jam

  function Row0(column: int): Arm {
    match column
    case 0x0 => FlowArm(BRK)                             case 0x1 => ReadArm(ORA, LoadIndX, 1, 2)
    case 0x2 => Jam
    case 0x3 => ModifyArm(SLO, ZeroIndX, 3, FromAbs, StoreAbs, 3, 2)
    case 0x4 => ReadArm(NOOP, LoadZero, 1, 2)            case 0x5 => ReadArm(ORA, LoadZero, 1, 2)
    case 0x6 => ModifyArm(ASL, P1, 0, FromZero, StoreAbs, 3, 2)
    case 0x7 => ModifyArm(SLO, P1, 0, FromZero, StoreAbs, 3, 2)
    case 0x8 => FlowArm(PHP)                             case 0x9 => ReadArm(ORA, Immediate, 0, 2)
    case 0xa => ImpliedArm(ASL_A)                        case 0xb => ReadArm(ANC, Immediate, 0, 2)
    case 0xc => ReadArm(NOOP, LoadAbs, 1, 3)             case 0xd => ReadArm(ORA, LoadAbs, 1, 3)
    case 0xe => ModifyArm(ASL, P2, 0, FromAbs, StoreAbs, 3, 3)
    case _ => ModifyArm(SLO, P2, 0, FromAbs, StoreAbs, 3, 3)
  }

  function Row1(column: int): Arm {
    match column
    case 0x0 => BranchArm(BPL)                           case 0x1 => ReadArm(ORA, LoadIndY, 1, 2)
    case 0x2 => Jam                                      case 0x3 => ModifyIndY(SLO)
    case 0x4 => ReadArm(NOOP, LoadZeroX, 2, 2)           case 0x5 => ReadArm(ORA, LoadZeroX, 2, 2)
    case 0x6 => ModifyArm(ASL, P1XMasked, 0, FromZero, StoreAbs, 4, 2)
    case 0x7 => ModifyArm(SLO, P1XMasked, 0, FromZero, StoreAbs, 4, 2)
    case 0x8 => ImpliedArm(CLC)                          case 0x9 => ReadArm(ORA, LoadAbsY, 1, 3)
    case 0xa => ImpliedArm(NOP)
    case 0xb => ModifyArm(SLO, P2, 0, FromAbsY, StoreAbsYRmw, 3, 3)
    case 0xc => ReadArm(NOOP, LoadAbsX, 1, 3)            case 0xd => ReadArm(ORA, LoadAbsX, 1, 3)
    case 0xe => ModifyArm(ASL, P2, 0, FromAbsX, StoreAbsXRmw, 3, 3)
    case _ => ModifyArm(SLO, P2, 0, FromAbsX, StoreAbsXRmw, 3, 3)
  }

  function Row2(column: int): Arm {
    match column
    case 0x0 => FlowArm(JSR)                             case 0x1 => ReadArm(AND, LoadIndX, 1, 2)
    case 0x2 => Jam
    case 0x3 => ModifyArm(RLA, ZeroIndX, 3, FromAbs, StoreAbs, 3, 2)
    case 0x4 => ReadArm(BIT, LoadZero, 1, 2)             case 0x5 => ReadArm(AND, LoadZero, 1, 2)
    case 0x6 => ModifyArm(ROL, P1, 0, FromZero, StoreAbs, 3, 2)
    case 0x7 => ModifyArm(RLA, P1, 0, FromZero, StoreAbs, 3, 2)
    case 0x8 => FlowArm(PLP)                             case 0x9 => ReadArm(AND, Immediate, 0, 2)
    case 0xa => ImpliedArm(ROL_A)                        case 0xb => ReadArm(ANC, Immediate, 0, 2)
    case 0xc => ReadArm(BIT, LoadAbs, 1, 3)              case 0xd => ReadArm(AND, LoadAbs, 1, 3)
    case 0xe => ModifyArm(ROL, P2, 0, FromAbs, StoreAbs, 3, 3)
    case _ => ModifyArm(RLA, P2, 0, FromAbs, StoreAbs, 3, 3)
  }

  function Row3(column: int): Arm {
    match column
    case 0x0 => BranchArm(BMI)                           case 0x1 => ReadArm(AND, LoadIndY, 1, 2)
    case 0x2 => Jam                                      case 0x3 => ModifyIndY(RLA)
    case 0x4 => ReadArm(NOOP, LoadZeroX, 2, 2)           case 0x5 => ReadArm(AND, LoadZeroX, 2, 2)
    case 0x6 => ModifyArm(ROL, P1XMasked, 0, FromZero, StoreAbs, 4, 2)
    case 0x7 => ModifyArm(RLA, P1XMasked, 0, FromZero, StoreAbs, 4, 2)
    case 0x8 => ImpliedArm(SEC)                          case 0x9 => ReadArm(AND, LoadAbsY, 1, 3)
    case 0xa => ImpliedArm(NOP)
    case 0xb => ModifyArm(RLA, P2, 0, FromAbsY, StoreAbsYRmw, 3, 3)
    case 0xc => ReadArm(NOOP, LoadAbsX, 1, 3)            case 0xd => ReadArm(AND, LoadAbsX, 1, 3)
    case 0xe => ModifyArm(ROL, P2, 0, FromAbsX, StoreAbsXRmw, 3, 3)
    case _ => ModifyArm(RLA, P2, 0, FromAbsX, StoreAbsXRmw, 3, 3)
  }

  function Row4(column: int): Arm {
    match column
    case 0x0 => FlowArm(RTI)                             case 0x1 => ReadArm(EOR, LoadIndX, 1, 2)
    case 0x2 => Jam
    case 0x3 => ModifyArm(SRE, ZeroIndX, 3, FromAbs, StoreAbs, 3, 2)
    case 0x4 => ReadArm(NOOP, LoadZero, 1, 2)            case 0x5 => ReadArm(EOR, LoadZero, 1, 2)
    case 0x6 => ModifyArm(LSR, P1, 0, FromZero, StoreAbs, 3, 2)
    case 0x7 => ModifyArm(SRE, P1, 0, FromZero, StoreAbs, 3, 2)
    case 0x8 => FlowArm(PHA)                             case 0x9 => ReadArm(EOR, Immediate, 0, 2)
    case 0xa => ImpliedArm(LSR_A)                        case 0xb => ReadArm(ASR, Immediate, 0, 2)
    case 0xc => FlowArm(JMP)                             case 0xd => ReadArm(EOR, LoadAbs, 1, 3)
    case 0xe => ModifyArm(LSR, P2, 0, FromAbs, StoreAbs, 3, 3)
    case _ => ModifyArm(SRE, P2, 0, FromAbs, StoreAbs, 3, 3)
  }

  function Row5(column: int): Arm {
    match column
    case 0x0 => BranchArm(BVC)                           case 0x1 => ReadArm(EOR, LoadIndY, 1, 2)
    case 0x2 => Jam                                      case 0x3 => ModifyIndY(SRE)
    case 0x4 => ReadArm(NOOP, LoadZeroX, 2, 2)           case 0x5 => ReadArm(EOR, LoadZeroX, 2, 2)
    case 0x6 => ModifyArm(LSR, P1XMasked, 0, FromZero, StoreAbs, 4, 2)
    case 0x7 => ModifyArm(SRE, P1XMasked, 0, FromZero, StoreAbs, 4, 2)
    case 0x8 => ImpliedArm(CLI)                          case 0x9 => ReadArm(EOR, LoadAbsY, 1, 3)
    case 0xa => ImpliedArm(NOP)
    case 0xb => ModifyArm(SRE, P2, 0, FromAbsY, StoreAbsYRmw, 3, 3)
    case 0xc => ReadArm(NOOP, LoadAbsX, 1, 3)            case 0xd => ReadArm(EOR, LoadAbsX, 1, 3)
    case 0xe => ModifyArm(LSR, P2, 0, FromAbsX, StoreAbsXRmw, 3, 3)
    case _ => ModifyArm(SRE, P2, 0, FromAbsX, StoreAbsXRmw, 3, 3)
  }

  function Row6(column: int): Arm {
    match column
    case 0x0 => FlowArm(RTS)                             case 0x1 => ReadArm(ADC, LoadIndX, 1, 2)
    case 0x2 => Jam
    case 0x3 => ModifyArm(RRA, ZeroIndX, 3, FromAbs, StoreAbs, 3, 2)
    case 0x4 => ReadArm(NOOP, LoadZero, 1, 2)            case 0x5 => ReadArm(ADC, LoadZero, 1, 2)
    case 0x6 => ModifyArm(ROR, P1, 0, FromZero, StoreAbs, 3, 2)
    case 0x7 => ModifyArm(RRA, P1, 0, FromZero, StoreAbs, 3, 2)
    case 0x8 => FlowArm(PLA)                             case 0x9 => ReadArm(ADC, Immediate, 0, 2)
    case 0xa => ImpliedArm(ROR_A)                        case 0xb => ReadArm(ARR, Immediate, 0, 2)
    case 0xc => FlowArm(JMP_IND)                         case 0xd => ReadArm(ADC, LoadAbs, 1, 3)
    case 0xe => ModifyArm(ROR, P2, 0, FromAbs, StoreAbs, 3, 3)
    case _ => ModifyArm(RRA, P2, 0, FromAbs, StoreAbs, 3, 3)
  }

  function Row7(column: int): Arm {
    match column
    case 0x0 => BranchArm(BVS)                           case 0x1 => ReadArm(ADC, LoadIndY, 1, 2)
    case 0x2 => Jam                                      case 0x3 => ModifyIndY(RRA)
    case 0x4 => ReadArm(NOOP, LoadZeroX, 2, 2)           case 0x5 => ReadArm(ADC, LoadZeroX, 2, 2)
    case 0x6 => ModifyArm(ROR, P1XMasked, 0, FromZero, StoreAbs, 4, 2)
    case 0x7 => ModifyArm(RRA, P1XMasked, 0, FromZero, StoreAbs, 4, 2)
    case 0x8 => ImpliedArm(SEI)                          case 0x9 => ReadArm(ADC, LoadAbsY, 1, 3)
    case 0xa => ImpliedArm(NOP)
    case 0xb => ModifyArm(RRA, P2, 0, FromAbsY, StoreAbsYRmw, 3, 3)
    case 0xc => ReadArm(NOOP, LoadAbsX, 1, 3)            case 0xd => ReadArm(ADC, LoadAbsX, 1, 3)
    case 0xe => ModifyArm(ROR, P2, 0, FromAbsX, StoreAbsXRmw, 3, 3)
    case _ => ModifyArm(RRA, P2, 0, FromAbsX, StoreAbsXRmw, 3, 3)
  }

  function Row8(column: int): Arm {
    match column
    case 0x0 => ReadArm(NOOP, Immediate, 0, 2)           case 0x1 => WriteArm(STA, ZeroIndX, 3, StoreAbs, 1, 2)
    case 0x2 => ReadArm(NOOP, Immediate, 0, 2)           case 0x3 => WriteArm(SAX, ZeroIndX, 3, StoreAbs, 1, 2)
    case 0x4 => WriteArm(STY, P1, 0, StoreZero, 1, 2)    case 0x5 => WriteArm(STA, P1, 0, StoreZero, 1, 2)
    case 0x6 => WriteArm(STX, P1, 0, StoreZero, 1, 2)    case 0x7 => WriteArm(SAX, P1, 0, StoreZero, 1, 2)
    case 0x8 => ImpliedArm(DEY)                          case 0x9 => ReadArm(NOOP, Immediate, 0, 2)
    case 0xa => ImpliedArm(TXA)                          case 0xb => ReadArm(ANE, Immediate, 0, 2)
    case 0xc => WriteArm(STY, P2, 0, StoreAbs, 1, 3)     case 0xd => WriteArm(STA, P2, 0, StoreAbs, 1, 3)
    case 0xe => WriteArm(STX, P2, 0, StoreAbs, 1, 3)     case _ => WriteArm(SAX, P2, 0, StoreAbs, 1, 3)
  }

  function Row9(column: int): Arm {
    match column
    case 0x0 => BranchArm(BCC)                           case 0x1 => StaIndY
    case 0x2 => Jam                                      case 0x3 => ShaIndY
    case 0x4 => WriteArm(STY, P1X, 0, StoreZero, 2, 2)   case 0x5 => WriteArm(STA, P1X, 0, StoreZero, 2, 2)
    case 0x6 => WriteArm(STX, P1Y, 0, StoreZero, 2, 2)   case 0x7 => WriteArm(SAX, P1YMasked, 0, StoreAbs, 2, 2)
    case 0x8 => ImpliedArm(TYA)                          case 0x9 => WriteArm(STA, P2, 0, StoreAbsY, 2, 3)
    case 0xa => ImpliedArm(TXS)                          case 0xb => ShAbs(SHS)
    case 0xc => ShAbs(SHY)                               case 0xd => WriteArm(STA, P2, 0, StoreAbsX, 2, 3)
    case 0xe => ShAbs(SHX)                               case _ => ShAbs(SHA)
  }

  function RowA(column: int): Arm {
    match column
    case 0x0 => ReadArm(LDY, Immediate, 0, 2)            case 0x1 => ReadArm(LDA, LoadIndX, 1, 2)
    case 0x2 => ReadArm(LDX, Immediate, 0, 2)            case 0x3 => ReadArm(LAX, LoadIndX, 1, 2)
    case 0x4 => ReadArm(LDY, LoadZero, 1, 2)             case 0x5 => ReadArm(LDA, LoadZero, 1, 2)
    case 0x6 => ReadArm(LDX, LoadZero, 1, 2)             case 0x7 => ReadArm(LAX, LoadZero, 1, 2)
    case 0x8 => ImpliedArm(TAY)                          case 0x9 => ReadArm(LDA, Immediate, 0, 2)
    case 0xa => ImpliedArm(TAX)                          case 0xb => ReadArm(LXA, Immediate, 0, 2)
    case 0xc => ReadArm(LDY, LoadAbs, 1, 3)              case 0xd => ReadArm(LDA, LoadAbs, 1, 3)
    case 0xe => ReadArm(LDX, LoadAbs, 1, 3)              case _ => ReadArm(LAX, LoadAbs, 1, 3)
  }

  function RowB(column: int): Arm {
    match column
    case 0x0 => BranchArm(BCS)                           case 0x1 => ReadArm(LDA, LoadIndY, 1, 2)
    case 0x2 => Jam                                      case 0x3 => ReadArm(LAX, LoadIndY, 1, 2)
    case 0x4 => ReadArm(LDY, LoadZeroX, 2, 2)            case 0x5 => ReadArm(LDA, LoadZeroX, 2, 2)
    case 0x6 => ReadArm(LDX, LoadZeroY, 2, 2)            case 0x7 => ReadArm(LAX, LoadZeroY, 2, 2)
    case 0x8 => ImpliedArm(CLV)                          case 0x9 => ReadArm(LDA, LoadAbsY, 1, 3)
    case 0xa => ImpliedArm(TSX)                          case 0xb => ReadArm(LAS, LoadAbsY, 1, 3)
    case 0xc => ReadArm(LDY, LoadAbsX, 1, 3)             case 0xd => ReadArm(LDA, LoadAbsX, 1, 3)
    case 0xe => ReadArm(LDX, LoadAbsY, 1, 3)             case _ => ReadArm(LAX, LoadAbsY, 1, 3)
  }

  function RowC(column: int): Arm {
    match column
    case 0x0 => ReadArm(CPY, Immediate, 0, 2)            case 0x1 => ReadArm(CMP, LoadIndX, 1, 2)
    case 0x2 => ReadArm(NOOP, Immediate, 0, 2)
    case 0x3 => ModifyArm(DCP, ZeroIndX, 3, FromAbs, StoreAbs, 3, 2)
    case 0x4 => ReadArm(CPY, LoadZero, 1, 2)             case 0x5 => ReadArm(CMP, LoadZero, 1, 2)
    case 0x6 => ModifyArm(DEC, P1, 0, FromZero, StoreAbs, 3, 2)
    case 0x7 => ModifyArm(DCP, P1, 0, FromZero, StoreAbs, 3, 2)
    case 0x8 => ImpliedArm(INY)                          case 0x9 => ReadArm(CMP, Immediate, 0, 2)
    case 0xa => ImpliedArm(DEX)                          case 0xb => ReadArm(SBX, Immediate, 0, 2)
    case 0xc => ReadArm(CPY, LoadAbs, 1, 3)              case 0xd => ReadArm(CMP, LoadAbs, 1, 3)
    case 0xe => ModifyArm(DEC, P2, 0, FromAbs, StoreAbs, 3, 3)
    case _ => ModifyArm(DCP, P2, 0, FromAbs, StoreAbs, 3, 3)
  }

  function RowD(column: int): Arm {
    match column
    case 0x0 => BranchArm(BNE)                           case 0x1 => ReadArm(CMP, LoadIndY, 1, 2)
    case 0x2 => Jam                                      case 0x3 => ModifyIndY(DCP)
    case 0x4 => ReadArm(NOOP, LoadZeroX, 2, 2)           case 0x5 => ReadArm(CMP, LoadZeroX, 2, 2)
    case 0x6 => ModifyArm(DEC, P1XMasked, 0, FromAbs, StoreAbs, 4, 2)
    case 0x7 => ModifyArm(DCP, P1XMasked, 0, FromAbs, StoreAbs, 4, 2)
    case 0x8 => ImpliedArm(CLD)                          case 0x9 => ReadArm(CMP, LoadAbsY, 1, 3)
    case 0xa => ImpliedArm(NOP)
    case 0xb => ModifyArm(DCP, P2, 0, FromAbsY, StoreAbsYRmw, 3, 3)
    case 0xc => ReadArm(NOOP, LoadAbsX, 1, 3)            case 0xd => ReadArm(CMP, LoadAbsX, 1, 3)
    case 0xe => ModifyArm(DEC, P2, 0, FromAbsX, StoreAbsXRmw, 3, 3)
    case _ => ModifyArm(DCP, P2, 0, FromAbsX, StoreAbsXRmw, 3, 3)
  }

  function RowE(column: int): Arm {
    match column
    case 0x0 => ReadArm(CPX, Immediate, 0, 2)            case 0x1 => ReadArm(SBC, LoadIndX, 1, 2)
    case 0x2 => ReadArm(NOOP, Immediate, 0, 2)
    case 0x3 => ModifyArm(ISB, ZeroIndX, 3, FromAbs, StoreAbs, 3, 2)
    case 0x4 => ReadArm(CPX, LoadZero, 1, 2)             case 0x5 => ReadArm(SBC, LoadZero, 1, 2)
    case 0x6 => ModifyArm(INC, P1, 0, FromZero, StoreAbs, 3, 2)
    case 0x7 => ModifyArm(ISB, P1, 0, FromZero, StoreAbs, 3, 2)
    case 0x8 => ImpliedArm(INX)                          case 0x9 => ReadArm(SBC, Immediate, 0, 2)
    case 0xa => ImpliedArm(NOP)                          case 0xb => ReadArm(SBC, Immediate, 0, 2)
    case 0xc => ReadArm(CPX, LoadAbs, 1, 3)              case 0xd => ReadArm(SBC, LoadAbs, 1, 3)
    case 0xe => ModifyArm(INC, P2, 0, FromAbs, StoreAbs, 3, 3)
    case _ => ModifyArm(ISB, P2, 0, FromAbs, StoreAbs, 3, 3)
  }

  function RowF(column: int): Arm {
    match column
    case 0x0 => BranchArm(BEQ)                           case 0x1 => ReadArm(SBC, LoadIndY, 1, 2)
    case 0x2 => Jam                                      case 0x3 => ModifyIndY(ISB)
    case 0x4 => ReadArm(NOOP, LoadZeroX, 2, 2)           case 0x5 => ReadArm(SBC, LoadZeroX, 2, 2)
    case 0x6 => ModifyArm(INC, P1XMasked, 0, FromZero, StoreAbs, 4, 2)
    case 0x7 => ModifyArm(ISB, P1XMasked, 0, FromZero, StoreAbs, 4, 2)
    case 0x8 => ImpliedArm(SED)                          case 0x9 => ReadArm(SBC, LoadAbsY, 1, 3)
    case 0xa => ImpliedArm(NOP)
    case 0xb => ModifyArm(ISB, P2, 0, FromAbsY, StoreAbsYRmw, 3, 3)
    case 0xc => ReadArm(NOOP, LoadAbsX, 1, 3)            case 0xd => ReadArm(SBC, LoadAbsX, 1, 3)
    case 0xe => ModifyArm(INC, P2, 0, FromAbsX, StoreAbsXRmw, 3, 3)
    case _ => ModifyArm(ISB, P2, 0, FromAbsX, StoreAbsXRmw, 3, 3)
  }

  /** The arm of the opcode switch an opcode selects. */
  function Switch(opcode: byte): Arm {
    var column := opcode % 0x10;
    match opcode / 0x10
    case 0 => Row0(column) case 1 => Row1(column) case 2 => Row2(column) case 3 => Row3(column)
    case 4 => Row4(column) case 5 => Row5(column) case 6 => Row6(column) case 7 => Row7(column)
    case 8 => Row8(column) case 9 => Row9(column) case 10 => RowA(column) case 11 => RowB(column)
    case 12 => RowC(column) case 13 => RowD(column) case 14 => RowE(column) case _ => RowF(column)
  }

  // ------------------------------------------------------ what an arm means

  function ReadMode(load: LoadFn): Mode {
    match load
    case Immediate => Imm
    case LoadZero => Zp case LoadZeroX => ZpX case LoadZeroY => ZpY
    case LoadAbs => Abs case LoadAbsX => AbsX case LoadAbsY => AbsY
    case LoadIndX => IndX case LoadIndY => IndY
  }

  /** The cycles a load leaves for the arm to charge. */
  function ReadClkInc(mode: Mode): nat {
    match mode case Imm => 0 case ZpX | ZpY => 2 case _ => 1
  }

  function WriteMode(addr: AddrArg, store: StoreFn): MaybeMode {
    match addr
    case P1 => if store.StoreZero? then In(Zp) else NoMode
    case P1X => if store.StoreZero? then In(ZpX) else NoMode
    case P1Y => if store.StoreZero? then In(ZpY) else NoMode
    case P1XMasked => NoMode
    case P1YMasked => if store.StoreAbs? then In(ZpY) else NoMode
    case P2 => (match store
                case StoreAbs => In(Abs) case StoreAbsX => In(AbsX) case StoreAbsY => In(AbsY) case _ => NoMode)
    case ZeroIndX => if store.StoreAbs? then In(IndX) else NoMode
  }

  function ModifyMode(addr: AddrArg, from: ModifyLoad, store: StoreFn): MaybeMode {
    match addr
    case P1 => if from.FromZero? && store.StoreAbs? then In(Zp) else NoMode
    case P1XMasked => if (from.FromZero? || from.FromAbs?) && store.StoreAbs? then In(ZpX) else NoMode
    case ZeroIndX => if from.FromAbs? && store.StoreAbs? then In(IndX) else NoMode
    case P2 =>
      if from.FromAbs? && store.StoreAbs? then In(Abs)
      else if from.FromAbsX? && store.StoreAbsXRmw? then In(AbsX)
      else if from.FromAbsY? && store.StoreAbsYRmw? then In(AbsY)
      else NoMode
    case P1X | P1Y | P1YMasked => NoMode
  }

  /** The cycles charged for indirection, and those charged at the store. */
  function IndirectClk(mode: Mode): nat { match mode case IndX => 3 case _ => 0 }

  function WriteClk(mode: Mode): nat { match mode case Zp | Abs | IndX => 1 case _ => 2 }

  function ModifyClk(mode: Mode): nat { match mode case ZpX => 4 case _ => 3 }

  /** They make up what the instruction takes. */
  lemma ClkAddsUp(addr: AddrArg, from: ModifyLoad, store: StoreFn)
    ensures var mode := WriteMode(addr, store);
            mode.In? ==> IndirectClk(mode.mode) + WriteClk(mode.mode) == WriteCycles(mode.mode)
    ensures var mode := ModifyMode(addr, from, store);
            mode.In? ==> IndirectClk(mode.mode) + LoadCycle(from) + ModifyClk(mode.mode) == ModifyCycles(mode.mode)
  {
  }

  /** The cycle an indexed load of a read-modify-write charges itself. */
  function LoadCycle(from: ModifyLoad): nat { if from.FromAbsX? || from.FromAbsY? then 1 else 0 }

  /** The instruction an arm carries out, provided its cycle and size arguments
      are the right ones for it. */
  function Meaning(arm: Arm): Decoded {
    match arm
    case ReadArm(op, load, clkInc, pcInc) =>
      var mode := ReadMode(load);
      if clkInc == ReadClkInc(mode) && pcInc == Size(mode) then Does(Read(op, mode)) else Jams
    case WriteArm(op, addr, clkInc1, store, clkInc2, pcInc) =>
      var mode := WriteMode(addr, store);
      if mode.In? && clkInc1 == IndirectClk(mode.mode) && clkInc2 == WriteClk(mode.mode) && pcInc == Size(mode.mode)
      then Does(Write(op, mode.mode)) else Jams
    case StaIndY => Does(Write(STA, IndY))
    case ShAbs(op) => Does(WriteHigh(op, if op.SHY? then AbsX else AbsY))
    case ShaIndY => Does(WriteHigh(SHA, IndY))
    case ModifyArm(op, addr, clkInc1, from, store, clkInc2, pcInc) =>
      var mode := ModifyMode(addr, from, store);
      if mode.In? && clkInc1 == IndirectClk(mode.mode) && clkInc2 == ModifyClk(mode.mode) && pcInc == Size(mode.mode)
      then Does(Modify(op, mode.mode)) else Jams
    case ModifyIndY(op) => Does(Modify(op, IndY))
    case ImpliedArm(op) => Does(Implied(op))
    case BranchArm(cond) => Does(Branch(cond))
    case FlowArm(op) => Does(Flow(op))
    case Jam => Jams
  }

  // ------------------------------------------------------ addresses

  function ArgumentOf(addr: AddrArg, x: byte, y: byte, ram: Ram, p1: byte, p2: word): int {
    match addr
    case P1 => p1
    case P1X => p1 + x
    case P1Y => p1 + y
    case P1XMasked => Low(p1 + x)
    case P1YMasked => Low(p1 + y)
    case P2 => p2
    case ZeroIndX => PeekZeroWord(ram, p1 + x)
  }

  /** Where a store function puts its value, given its argument. */
  function Target(store: StoreFn, n: int, x: byte, y: byte): int {
    match store
    case StoreZero => Low(n)
    case StoreAbs => n
    case StoreAbsX | StoreAbsXRmw => n + x
    case StoreAbsY | StoreAbsYRmw => n + y
  }

  function Source(from: ModifyLoad, n: int, x: byte, y: byte): int {
    match from
    case FromZero => Low(n)
    case FromAbs => n
    case FromAbsX => n + x
    case FromAbsY => n + y
  }

  lemma WriteTarget(addr: AddrArg, store: StoreFn, s: Cpu, p1: byte, p2: word)
    requires WriteMode(addr, store).In?
    ensures Target(store, ArgumentOf(addr, s.x, s.y, s.ram, p1, p2), s.x, s.y) == Address(WriteMode(addr, store).mode, s, p1, p2)
  {
    hide Peek, Low, Join;
  }

  lemma ModifyTarget(addr: AddrArg, from: ModifyLoad, store: StoreFn, s: Cpu, p1: byte, p2: word)
    requires ModifyMode(addr, from, store).In?
    ensures var n := ArgumentOf(addr, s.x, s.y, s.ram, p1, p2);
            var mode := ModifyMode(addr, from, store).mode;
            Target(store, n, s.x, s.y) == Address(mode, s, p1, p2) == Source(from, n, s.x, s.y)
  {
    hide Peek, Join;
  }
}
