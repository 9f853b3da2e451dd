/**
 The 6510's opcodes by their bits aaabbbcc: which instruction the columns and rows of
 the opcode matrix stand for, undocumented ones included.
 */
module OpcodeBits {
  import opened CpuModel

  /** The eight instructions of the opcodes ending in 01, by their highest three bits. */
  function Accumulator(aaa: int): ReadOp {
    match aaa case 0 => ORA case 1 => AND case 2 => EOR case 3 => ADC case 5 => LDA case 6 => CMP case _ => SBC
  }

  /** Those ending in 10, and what those ending in 11 do to memory before. */
  function Shift(aaa: int): ModifyOp {
    match aaa case 0 => ASL case 1 => ROL case 2 => LSR case 3 => ROR case 6 => DEC case _ => INC
  }

  function Both(aaa: int): ModifyOp {
    match aaa case 0 => SLO case 1 => RLA case 2 => SRE case 3 => RRA case 6 => DCP case _ => ISB
  }

  /** The addressing mode of the odd opcodes, by their middle three bits. */
  function OddMode(bbb: int): Mode {
    match bbb
    case 0 => IndX case 1 => Zp case 2 => Imm case 3 => Abs
    case 4 => IndY case 5 => ZpX case 6 => AbsY case _ => AbsX
  }

  /** Of the even ones in the columns that have one. */
  function EvenMode(bbb: int): Mode {
    match bbb case 1 => Zp case 3 => Abs case 5 => ZpX case 7 => AbsX case _ => Imm
  }

  /** Instructions that work on X index with Y. */
  function OnX(mode: Mode): Mode { match mode case ZpX => ZpY case AbsX => AbsY case _ => mode }

  function ByBits(op: int): Decoded
    requires 0 <= op < 0x100
  {
    var aaa, bbb := op / 0x20, op / 4 % 8;
    match op % 4
    case 0 => Column0(aaa, bbb)
    case 1 =>
      if aaa == 4 then Does(if bbb == 2 then Read(NOOP, Imm) else Write(STA, OddMode(bbb)))
      else Does(Read(Accumulator(aaa), OddMode(bbb)))
    case 2 => Column2(aaa, bbb)
    case _ => Column3(aaa, bbb)
  }

  function Column0(aaa: int, bbb: int): Decoded {
    match bbb
    case 2 => (match aaa
               case 0 => Does(Flow(PHP)) case 1 => Does(Flow(PLP)) case 2 => Does(Flow(PHA)) case 3 => Does(Flow(PLA))
               case 4 => Does(Implied(DEY)) case 5 => Does(Implied(TAY)) case 6 => Does(Implied(INY))
               case _ => Does(Implied(INX)))
    case 4 => Does(Branch(match aaa
                          case 0 => BPL case 1 => BMI case 2 => BVC case 3 => BVS
                          case 4 => BCC case 5 => BCS case 6 => BNE case _ => BEQ))
    case 6 => Does(Implied(match aaa
                           case 0 => CLC case 1 => SEC case 2 => CLI case 3 => SEI
                           case 4 => TYA case 5 => CLV case 6 => CLD case _ => SED))
    case _ =>
      var mode := EvenMode(bbb);
      match aaa
      case 0 => Does(if bbb == 0 then Flow(BRK) else Read(NOOP, mode))
      case 1 => Does(if bbb == 0 then Flow(JSR) else Read(if bbb < 4 then BIT else NOOP, mode))
      case 2 => Does(if bbb == 0 then Flow(RTI) else if bbb == 3 then Flow(JMP) else Read(NOOP, mode))
      case 3 => Does(if bbb == 0 then Flow(RTS) else if bbb == 3 then Flow(JMP_IND) else Read(NOOP, mode))
      case 4 => Does(if bbb == 0 then Read(NOOP, Imm) else if bbb == 7 then WriteHigh(SHY, AbsX) else Write(STY, mode))
      case 5 => Does(Read(LDY, mode))
      case 6 => Does(Read(if bbb < 4 then CPY else NOOP, mode))
      case _ => Does(Read(if bbb < 4 then CPX else NOOP, mode))
  }

  function Column2(aaa: int, bbb: int): Decoded {
    match bbb
    case 0 => if aaa < 4 then Jams else Does(Read(if aaa == 5 then LDX else NOOP, Imm))
    case 2 => Does(Implied(match aaa
                           case 0 => ASL_A case 1 => ROL_A case 2 => LSR_A case 3 => ROR_A
                           case 4 => TXA case 5 => TAX case 6 => DEX case _ => NOP))
    case 4 => Jams
    case 6 => Does(Implied(if aaa == 4 then TXS else if aaa == 5 then TSX else NOP))
    case _ =>
      var mode := EvenMode(bbb);
      if aaa == 4 then Does(if bbb == 7 then WriteHigh(SHX, AbsY) else Write(STX, OnX(mode)))
      else if aaa == 5 then Does(Read(LDX, OnX(mode)))
      else Does(Modify(Shift(aaa), mode))
  }

  function Column3(aaa: int, bbb: int): Decoded {
    var mode := OddMode(bbb);
    if bbb == 2 then
      Does(Read(match aaa
                case 0 => ANC case 1 => ANC case 2 => ASR case 3 => ARR
                case 4 => ANE case 5 => LXA case 6 => SBX case _ => SBC, Imm))
    else if aaa == 4 then
      Does(if bbb == 6 then WriteHigh(SHS, AbsY) else if bbb == 7 then WriteHigh(SHA, AbsY)
           else if bbb == 4 then WriteHigh(SHA, IndY) else Write(SAX, OnX(mode)))
    else if aaa == 5 then Does(if bbb == 6 then Read(LAS, AbsY) else Read(LAX, OnX(mode)))
    else Does(Modify(Both(aaa), mode))
  }
}

/** The opcode switch follows the bits, eight opcodes at a time. */
module OpcodeRows {
  import opened CpuModel
  import opened OpcodeBits
  import A = Switch6510

  lemma Bits0Low(c: int)
    requires 0 <= c < 8
    ensures A.Meaning(A.Row0(c)) == ByBits(0x00 + c)
  {
  }

  lemma Bits0High(c: int)
    requires 8 <= c < 16
    ensures A.Meaning(A.Row0(c)) == ByBits(0x00 + c)
  {
  }

  lemma Bits1Low(c: int)
    requires 0 <= c < 8
    ensures A.Meaning(A.Row1(c)) == ByBits(0x10 + c)
  {
  }

  lemma Bits1High(c: int)
    requires 8 <= c < 16
    ensures A.Meaning(A.Row1(c)) == ByBits(0x10 + c)
  {
  }

  lemma Bits2Low(c: int)
    requires 0 <= c < 8
    ensures A.Meaning(A.Row2(c)) == ByBits(0x20 + c)
  {
  }

  lemma Bits2High(c: int)
    requires 8 <= c < 16
    ensures A.Meaning(A.Row2(c)) == ByBits(0x20 + c)
  {
  }

  lemma Bits3Low(c: int)
    requires 0 <= c < 8
    ensures A.Meaning(A.Row3(c)) == ByBits(0x30 + c)
  {
  }

  lemma Bits3High(c: int)
    requires 8 <= c < 16
    ensures A.Meaning(A.Row3(c)) == ByBits(0x30 + c)
  {
  }

  lemma Bits4Low(c: int)
    requires 0 <= c < 8
    ensures A.Meaning(A.Row4(c)) == ByBits(0x40 + c)
  {
  }

  lemma Bits4High(c: int)
    requires 8 <= c < 16
    ensures A.Meaning(A.Row4(c)) == ByBits(0x40 + c)
  {
  }

  lemma Bits5Low(c: int)
    requires 0 <= c < 8
    ensures A.Meaning(A.Row5(c)) == ByBits(0x50 + c)
  {
  }

  lemma Bits5High(c: int)
    requires 8 <= c < 16
    ensures A.Meaning(A.Row5(c)) == ByBits(0x50 + c)
  {
  }

  lemma Bits6Low(c: int)
    requires 0 <= c < 8
    ensures A.Meaning(A.Row6(c)) == ByBits(0x60 + c)
  {
  }

  lemma Bits6High(c: int)
    requires 8 <= c < 16
    ensures A.Meaning(A.Row6(c)) == ByBits(0x60 + c)
  {
  }

  lemma Bits7Low(c: int)
    requires 0 <= c < 8
    ensures A.Meaning(A.Row7(c)) == ByBits(0x70 + c)
  {
  }

  lemma Bits7High(c: int)
    requires 8 <= c < 16
    ensures A.Meaning(A.Row7(c)) == ByBits(0x70 + c)
  {
  }

  lemma Bits8Low(c: int)
    requires 0 <= c < 8
    ensures A.Meaning(A.Row8(c)) == ByBits(0x80 + c)
  {
  }

  lemma Bits8High(c: int)
    requires 8 <= c < 16
    ensures A.Meaning(A.Row8(c)) == ByBits(0x80 + c)
  {
  }

  lemma Bits9Low(c: int)
    requires 0 <= c < 8
    ensures A.Meaning(A.Row9(c)) == ByBits(0x90 + c)
  {
  }

  lemma Bits9High(c: int)
    requires 8 <= c < 16
    ensures A.Meaning(A.Row9(c)) == ByBits(0x90 + c)
  {
  }

  lemma BitsALow(c: int)
    requires 0 <= c < 8
    ensures A.Meaning(A.RowA(c)) == ByBits(0xa0 + c)
  {
  }

  lemma BitsAHigh(c: int)
    requires 8 <= c < 16
    ensures A.Meaning(A.RowA(c)) == ByBits(0xa0 + c)
  {
  }

  lemma BitsBLow(c: int)
    requires 0 <= c < 8
    ensures A.Meaning(A.RowB(c)) == ByBits(0xb0 + c)
  {
  }

  lemma BitsBHigh(c: int)
    requires 8 <= c < 16
    ensures A.Meaning(A.RowB(c)) == ByBits(0xb0 + c)
  {
  }

  lemma BitsCLow(c: int)
    requires 0 <= c < 8
    ensures A.Meaning(A.RowC(c)) == ByBits(0xc0 + c)
  {
  }

  lemma BitsCHigh(c: int)
    requires 8 <= c < 16
    ensures A.Meaning(A.RowC(c)) == ByBits(0xc0 + c)
  {
  }

  lemma BitsDLow(c: int)
    requires 0 <= c < 8
    ensures A.Meaning(A.RowD(c)) == ByBits(0xd0 + c)
  {
  }

  lemma BitsDHigh(c: int)
    requires 8 <= c < 16
    ensures A.Meaning(A.RowD(c)) == ByBits(0xd0 + c)
  {
  }

  lemma BitsELow(c: int)
    requires 0 <= c < 8
    ensures A.Meaning(A.RowE(c)) == ByBits(0xe0 + c)
  {
  }

  lemma BitsEHigh(c: int)
    requires 8 <= c < 16
    ensures A.Meaning(A.RowE(c)) == ByBits(0xe0 + c)
  {
  }

  lemma BitsFLow(c: int)
    requires 0 <= c < 8
    ensures A.Meaning(A.RowF(c)) == ByBits(0xf0 + c)
  {
  }

  lemma BitsFHigh(c: int)
    requires 8 <= c < 16
    ensures A.Meaning(A.RowF(c)) == ByBits(0xf0 + c)
  {
  }

  /** All 256 opcodes. */
  lemma SwitchFollowsBits(opcode: byte)
    ensures A.Meaning(A.Switch(opcode)) == ByBits(opcode)
  {
    hide A.Meaning, ByBits;
    var c := opcode % 0x10;
    match opcode / 0x10 {
      case 0 => if c < 8 { Bits0Low(c); } else { Bits0High(c); }
      case 1 => if c < 8 { Bits1Low(c); } else { Bits1High(c); }
      case 2 => if c < 8 { Bits2Low(c); } else { Bits2High(c); }
      case 3 => if c < 8 { Bits3Low(c); } else { Bits3High(c); }
      case 4 => if c < 8 { Bits4Low(c); } else { Bits4High(c); }
      case 5 => if c < 8 { Bits5Low(c); } else { Bits5High(c); }
      case 6 => if c < 8 { Bits6Low(c); } else { Bits6High(c); }
      case 7 => if c < 8 { Bits7Low(c); } else { Bits7High(c); }
      case 8 => if c < 8 { Bits8Low(c); } else { Bits8High(c); }
      case 9 => if c < 8 { Bits9Low(c); } else { Bits9High(c); }
      case 10 => if c < 8 { BitsALow(c); } else { BitsAHigh(c); }
      case 11 => if c < 8 { BitsBLow(c); } else { BitsBHigh(c); }
      case 12 => if c < 8 { BitsCLow(c); } else { BitsCHigh(c); }
      case 13 => if c < 8 { BitsDLow(c); } else { BitsDHigh(c); }
      case 14 => if c < 8 { BitsELow(c); } else { BitsEHigh(c); }
      case _ => if c < 8 { BitsFLow(c); } else { BitsFHigh(c); }
    }
  }
}
