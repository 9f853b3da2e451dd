/**
 The two opcode switches select the same instruction for every opcode, and never
 one that needs an operand byte the fetch leaves out.
 */
module SwitchTables {
  import opened CpuModel
  import A = Switch6510
  import B = SwitchDtv

  /** fetch_tab: whether a third byte is fetched. */
  predicate FetchesThird(opcode: byte) {
    ThirdInRow(opcode / 0x10 % 2 == 1, opcode % 0x10)
  }

  predicate ThirdInRow(odd: bool, column: int) {
    column >= 0xc || (odd && (column == 0x9 || column == 0xb))
  }

  /** Whether an instruction looks at the high operand byte. */
  predicate UsesThird(i: Instruction) {
    match i
    case Read(_, mode) => Size(mode) == 3
    case Write(_, mode) => Size(mode) == 3
    case WriteHigh(_, mode) => Size(mode) == 3
    case Modify(_, mode) => Size(mode) == 3
    case Flow(op) => op.JMP? || op.JMP_IND?
    case _ => false
  }

  predicate Same(i: Instruction, j: Instruction) {
    match i
    case Read(op, mode) => j.Read? && j.rop == op && j.mode == mode
    case Write(op, mode) => j.Write? && j.wop == op && j.mode == mode
    case WriteHigh(op, mode) => j.WriteHigh? && j.sop == op && j.mode == mode
    case Modify(op, mode) => j.Modify? && j.mop == op && j.mode == mode
    case Implied(op) => j.Implied? && j.iop == op
    case Branch(cond) => j.Branch? && j.cond == cond
    case Flow(op) => j.Flow? && j.fop == op
  }

  lemma SameIsEqual(i: Instruction, j: Instruction)
    requires Same(i, j)
    ensures i == j
  {
  }

  /** The two arms mean the same instruction, or both jam; `third` exactly if it needs the third byte. */
  predicate SameArm(a: A.Arm, b: B.Arm, third: bool) {
    var i, j := A.Meaning(a), B.Meaning(b);
    && (i.Does? <==> j.Does?) && (i.Does? ==> Same(i.instruction, j.instruction))
    && (i.Jams? <==> a.Jam?)
    && (i.Does? && UsesThird(i.instruction) <==> third)
  }
}

/** All 256 opcodes, eight at a time. */
module SwitchRows {
  import opened CpuModel
  import opened SwitchTables
  import A = Switch6510
  import B = SwitchDtv

  lemma Row0Low(c: int)
    requires 0 <= c < 8
    ensures SameArm(A.Row0(c), B.Row0(c), ThirdInRow(false, c))
  {
  }

  lemma Row0High(c: int)
    requires 8 <= c < 16
    ensures SameArm(A.Row0(c), B.Row0(c), ThirdInRow(false, c))
  {
  }

  lemma Row1Low(c: int)
    requires 0 <= c < 8
    ensures SameArm(A.Row1(c), B.Row1(c), ThirdInRow(true, c))
  {
  }

  lemma Row1High(c: int)
    requires 8 <= c < 16
    ensures SameArm(A.Row1(c), B.Row1(c), ThirdInRow(true, c))
  {
  }

  lemma Row2Low(c: int)
    requires 0 <= c < 8
    ensures SameArm(A.Row2(c), B.Row2(c), ThirdInRow(false, c))
  {
  }

  lemma Row2High(c: int)
    requires 8 <= c < 16
    ensures SameArm(A.Row2(c), B.Row2(c), ThirdInRow(false, c))
  {
  }

  lemma Row3Low(c: int)
    requires 0 <= c < 8
    ensures SameArm(A.Row3(c), B.Row3(c), ThirdInRow(true, c))
  {
  }

  lemma Row3High(c: int)
    requires 8 <= c < 16
    ensures SameArm(A.Row3(c), B.Row3(c), ThirdInRow(true, c))
  {
  }

  lemma Row4Low(c: int)
    requires 0 <= c < 8
    ensures SameArm(A.Row4(c), B.Row4(c), ThirdInRow(false, c))
  {
  }

  lemma Row4High(c: int)
    requires 8 <= c < 16
    ensures SameArm(A.Row4(c), B.Row4(c), ThirdInRow(false, c))
  {
  }

  lemma Row5Low(c: int)
    requires 0 <= c < 8
    ensures SameArm(A.Row5(c), B.Row5(c), ThirdInRow(true, c))
  {
  }

  lemma Row5High(c: int)
    requires 8 <= c < 16
    ensures SameArm(A.Row5(c), B.Row5(c), ThirdInRow(true, c))
  {
  }

  lemma Row6Low(c: int)
    requires 0 <= c < 8
    ensures SameArm(A.Row6(c), B.Row6(c), ThirdInRow(false, c))
  {
  }

  lemma Row6High(c: int)
    requires 8 <= c < 16
    ensures SameArm(A.Row6(c), B.Row6(c), ThirdInRow(false, c))
  {
  }

  lemma Row7Low(c: int)
    requires 0 <= c < 8
    ensures SameArm(A.Row7(c), B.Row7(c), ThirdInRow(true, c))
  {
  }

  lemma Row7High(c: int)
    requires 8 <= c < 16
    ensures SameArm(A.Row7(c), B.Row7(c), ThirdInRow(true, c))
  {
  }

  lemma Row8Low(c: int)
    requires 0 <= c < 8
    ensures SameArm(A.Row8(c), B.Row8(c), ThirdInRow(false, c))
  {
  }

  lemma Row8High(c: int)
    requires 8 <= c < 16
    ensures SameArm(A.Row8(c), B.Row8(c), ThirdInRow(false, c))
  {
  }

  lemma Row9Low(c: int)
    requires 0 <= c < 8
    ensures SameArm(A.Row9(c), B.Row9(c), ThirdInRow(true, c))
  {
  }

  lemma Row9High(c: int)
    requires 8 <= c < 16
    ensures SameArm(A.Row9(c), B.Row9(c), ThirdInRow(true, c))
  {
  }

  lemma RowALow(c: int)
    requires 0 <= c < 8
    ensures SameArm(A.RowA(c), B.RowA(c), ThirdInRow(false, c))
  {
  }

  lemma RowAHigh(c: int)
    requires 8 <= c < 16
    ensures SameArm(A.RowA(c), B.RowA(c), ThirdInRow(false, c))
  {
  }

  lemma RowBLow(c: int)
    requires 0 <= c < 8
    ensures SameArm(A.RowB(c), B.RowB(c), ThirdInRow(true, c))
  {
  }

  lemma RowBHigh(c: int)
    requires 8 <= c < 16
    ensures SameArm(A.RowB(c), B.RowB(c), ThirdInRow(true, c))
  {
  }

  lemma RowCLow(c: int)
    requires 0 <= c < 8
    ensures SameArm(A.RowC(c), B.RowC(c), ThirdInRow(false, c))
  {
  }

  lemma RowCHigh(c: int)
    requires 8 <= c < 16
    ensures SameArm(A.RowC(c), B.RowC(c), ThirdInRow(false, c))
  {
  }

  lemma RowDLow(c: int)
    requires 0 <= c < 8
    ensures SameArm(A.RowD(c), B.RowD(c), ThirdInRow(true, c))
  {
  }

  lemma RowDHigh(c: int)
    requires 8 <= c < 16
    ensures SameArm(A.RowD(c), B.RowD(c), ThirdInRow(true, c))
  {
  }

  lemma RowELow(c: int)
    requires 0 <= c < 8
    ensures SameArm(A.RowE(c), B.RowE(c), ThirdInRow(false, c))
  {
  }

  lemma RowEHigh(c: int)
    requires 8 <= c < 16
    ensures SameArm(A.RowE(c), B.RowE(c), ThirdInRow(false, c))
  {
  }

  lemma RowFLow(c: int)
    requires 0 <= c < 8
    ensures SameArm(A.RowF(c), B.RowF(c), ThirdInRow(true, c))
  {
  }

  lemma RowFHigh(c: int)
    requires 8 <= c < 16
    ensures SameArm(A.RowF(c), B.RowF(c), ThirdInRow(true, c))
  {
  }

  /** All 256 opcodes. */
  lemma SwitchesAgree(opcode: byte)
    ensures SameArm(A.Switch(opcode), B.Switch(opcode), FetchesThird(opcode))
    ensures A.Meaning(A.Switch(opcode)) == B.Meaning(B.Switch(opcode))
    ensures var i := A.Meaning(A.Switch(opcode));
            FetchesThird(opcode) <==> i.Does? && UsesThird(i.instruction)
  {
    hide A.Switch, B.Switch, A.Meaning, B.Meaning, Same, FetchesThird;
    ArmsAgree(opcode);
    var i, j := A.Meaning(A.Switch(opcode)), B.Meaning(B.Switch(opcode));
    if i.Does? {
      SameIsEqual(i.instruction, j.instruction);
    }
  }

  lemma ArmsAgree(opcode: byte)
    ensures SameArm(A.Switch(opcode), B.Switch(opcode), FetchesThird(opcode))
  {
    hide SameArm, ThirdInRow;
    var c := opcode % 0x10;
    match opcode / 0x10 {
      case 0 => if c < 8 { Row0Low(c); } else { Row0High(c); }
      case 1 => if c < 8 { Row1Low(c); } else { Row1High(c); }
      case 2 => if c < 8 { Row2Low(c); } else { Row2High(c); }
      case 3 => if c < 8 { Row3Low(c); } else { Row3High(c); }
      case 4 => if c < 8 { Row4Low(c); } else { Row4High(c); }
      case 5 => if c < 8 { Row5Low(c); } else { Row5High(c); }
      case 6 => if c < 8 { Row6Low(c); } else { Row6High(c); }
      case 7 => if c < 8 { Row7Low(c); } else { Row7High(c); }
      case 8 => if c < 8 { Row8Low(c); } else { Row8High(c); }
      case 9 => if c < 8 { Row9Low(c); } else { Row9High(c); }
      case 10 => if c < 8 { RowALow(c); } else { RowAHigh(c); }
      case 11 => if c < 8 { RowBLow(c); } else { RowBHigh(c); }
      case 12 => if c < 8 { RowCLow(c); } else { RowCHigh(c); }
      case 13 => if c < 8 { RowDLow(c); } else { RowDHigh(c); }
      case 14 => if c < 8 { RowELow(c); } else { RowEHigh(c); }
      case _ => if c < 8 { RowFLow(c); } else { RowFHigh(c); }
    }
  }
}
