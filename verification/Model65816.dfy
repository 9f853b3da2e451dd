/**
 What one 65816 instruction, interrupt or block move round does, with the flags kept
 whole: the reference the core is compared with.  What an instruction computes or
 loads into an index register is left open.
 */
module Model65816 {
  import opened CpuModel
  import opened BlockMoves
  import opened Switch65816

  datatype Flags16 = Flags16(n: bool, v: bool, m: bool, x: bool, d: bool, i: bool, z: bool, c: bool)

  datatype Cpu16 = Cpu16(c: word, x: word, y: word, sp: word, dpr: word, pbr: byte, dbr: byte, pc: word,
                         emul: bool, f: Flags16, mem: Memory)

  /** What an instruction loads or computes, which is left open: the value for an
      index register, and the new accumulator, memory and flags. */
  datatype Outcome = Outcome(operand: word, c: word, mem: Memory, n: byte, z: byte, carry: bool, overflow: bool)

  /** What can happen between two instructions. */
  datatype Event = Instruction(o: Outcome) | Irq(o: Outcome) | Nmi(o: Outcome) | Reset(o: Outcome)

  predicate NarrowX(s: Cpu16) { s.emul || s.f.x }

  predicate NarrowM(s: Cpu16) { s.emul || s.f.m }

  function IndexWidth(s: Cpu16): int { if NarrowX(s) then 0x100 else 0x10000 }

  function Flagged(f: Flags16, flag: PFlag, on: bool): Flags16 {
    match flag
    case C => f.(c := on) case I => f.(i := on) case D => f.(d := on)
    case X => f.(x := on) case M => f.(m := on) case V => f.(v := on)
  }

  function FlaggedIf(f: Flags16, selected: bool, flag: PFlag, on: bool): Flags16 {
    if selected then Flagged(f, flag, on) else f
  }

  function Signs16(s: Cpu16, v: word, bits8: bool): Cpu16 {
    s.(f := s.f.(n := (if bits8 then Low(v) else High(v)) >= 0x80, z := if bits8 then Low(v) == 0 else v == 0))
  }

  function Went(s: Cpu16, n: nat): Cpu16 { s.(pc := Word(s.pc + n)) }

  // ------------------------------------------------------------------- the stack

  /** PUSH and PULL stay in page one in emulation mode. */
  function Down(emul: bool, sp: word): word { if emul then 0x100 + Low(sp - 1) else Word(sp - 1) }

  function Up(emul: bool, sp: word): word { if emul then 0x100 + Low(sp + 1) else Word(sp + 1) }

  /** The new instructions fix the stack pointer only at the end. */
  function Fixed(emul: bool, sp: word): word { if emul then 0x100 + Low(sp) else sp }

  function Pushed(s: Cpu16, v: byte): Cpu16 { s.(mem := s.mem[At(0, s.sp) := v], sp := Down(s.emul, s.sp)) }

  /** A store below that may leave page one. */
  function Dropped(s: Cpu16, v: byte): Cpu16 { s.(mem := s.mem[At(0, s.sp) := v], sp := Word(s.sp - 1)) }

  function PushedWide(s: Cpu16, w: word): Cpu16 { Pushed(Pushed(s, High(w)), Low(w)) }

  function PushedRaw(s: Cpu16, w: word): Cpu16 { Pushed(Dropped(s, High(w)), Low(w)) }

  function Popped(s: Cpu16): Cpu16 { s.(sp := Up(s.emul, s.sp)) }

  function Head(s: Cpu16): byte { s.mem[At(0, Up(s.emul, s.sp))] }

  function HeadWide(s: Cpu16): word { Join(Head(s), Head(Popped(s))) }

  /** The status byte: N V M X D I Z C, with bit 5 always set in emulation mode. */
  function StatusOf(s: Cpu16): byte {
    0x80 * One(s.f.n) + 0x40 * One(s.f.v) + 0x20 * One(NarrowM(s)) + 0x10 * One(s.f.x)
    + 0x08 * One(s.f.d) + 0x04 * One(s.f.i) + 0x02 * One(s.f.z) + One(s.f.c)
  }

  /** With the bit that tells BRK and PHP from interrupts. */
  function Broken(s: Cpu16): Cpu16 { s.(f := s.f.(x := true)) }

  function FlagsOf(v: byte): Flags16 {
    Flags16(Bit(v, 0x80), Bit(v, 0x40), Bit(v, 0x20), Bit(v, 0x10),
            Bit(v, 0x08), Bit(v, 0x04), Bit(v, 0x02), Bit(v, 0x01))
  }

  /** Narrow indices lose their high bytes. */
  function Narrowed(s: Cpu16): Cpu16 { if NarrowX(s) then s.(x := Low(s.x), y := Low(s.y)) else s }

  function PushEffect(arm: Arm, s: Cpu16): Cpu16 {
    match arm
    case PHA => OnStack(s, s.c, NarrowM(s))
    case PHX => OnStack(s, s.x, NarrowX(s))
    case PHY => OnStack(s, s.y, NarrowX(s))
    case PHB => OnStack(s, s.dbr, true)
    case PHK => OnStack(s, s.pbr, true)
    case PHP => OnStack(s, StatusOf(if s.emul then Broken(s) else s), true)
    case PEA => PushedRaw(Went(s, 3), Operand(s))
    case PEI => PushedRaw(Went(s, 2), WordAt(s.mem, 0, Param(s, 1) as int + s.dpr))
    case PER => PushedRaw(Went(s, 3), Word(s.pc + 3 + Operand(s)))
    case _ => PushedRaw(Went(s, 1), s.dpr)
  }

  function OnStack(s: Cpu16, v: word, bits8: bool): Cpu16 {
    if bits8 then Pushed(Went(s, 1), Low(v)) else PushedWide(Went(s, 1), v)
  }

  /** With a narrow accumulator its high byte stays. */
  function PlaOf(s: Cpu16): Cpu16 {
    var t := Went(s, 1);
    if NarrowM(s) then Signs16(Popped(t).(c := Join(Head(s), High(s.c))), Head(s), true)
    else Signs16(Popped(Popped(t)).(c := HeadWide(s)), HeadWide(s), false)
  }

  function PlbOf(s: Cpu16): Cpu16 { Signs16(Popped(Went(s, 1)).(dbr := Head(s)), Head(s), true) }

  /** Two bytes from wherever the stack pointer leads, then the fix. */
  function PldOf(s: Cpu16): Cpu16 {
    var s1 := Word(s.sp + 1);
    var v := Join(s.mem[At(0, s1)], s.mem[At(0, Word(s1 + 1))]);
    Signs16(Went(s, 1).(sp := Fixed(s.emul, Word(s1 + 1)), dpr := v), v, false)
  }

  function PlpOf(s: Cpu16): Cpu16 { Narrowed(Popped(Went(s, 1)).(f := FlagsOf(Head(s)))) }

  function PullEffect(arm: Arm, s: Cpu16): Cpu16 {
    match arm case PLA => PlaOf(s) case PLB => PlbOf(s) case PLD => PldOf(s) case _ => PlpOf(s)
  }

  // ----------------------------------------------------------- index registers

  function IndexOf(s: Cpu16, r: Index): word { if r.RegX? then s.x else s.y }

  function Loaded(s: Cpu16, r: Index, v: word): Cpu16 {
    Signs16(if r.RegX? then s.(x := v) else s.(y := v), v, NarrowX(s))
  }

  /** A value as wide as the index registers are. */
  function Fit(s: Cpu16, v: int): word { if NarrowX(s) then Low(v) else Word(v) }

  function LdiOf(s: Cpu16, r: Index, size: Size, operand: word): Cpu16 {
    Loaded(Went(s, Length(size, s)), r, Fit(s, operand))
  }

  function StepOf(s: Cpu16, r: Index, up: bool): Cpu16 {
    Loaded(Went(s, 1), r, Fit(s, if up then IndexOf(s, r) + 1 else IndexOf(s, r) - 1))
  }

  function PliOf(s: Cpu16, r: Index): Cpu16 {
    if NarrowX(s) then Loaded(Popped(Went(s, 1)), r, Head(s))
    else Loaded(Popped(Popped(Went(s, 1))), r, HeadWide(s))
  }

  function IndexEffect(arm: Arm, s: Cpu16, o: Outcome): Cpu16 {
    match arm
    case LDI(r, size) => LdiOf(s, r, size, o.operand)
    case INI(r) => StepOf(s, r, true)
    case DEI(r) => StepOf(s, r, false)
    case PLI(r) => PliOf(s, r)
    case _ => s
  }

  function Length(size: Size, s: Cpu16): nat {
    match size
    case Bytes(n) => n
    case ByAccumulator => if NarrowM(s) then 2 else 3
    case ByIndex => if NarrowX(s) then 2 else 3
  }

  /** Into an index register; TXY and TYX do not look at its width. */
  function TransferOf(s: Cpu16, r: Index, v: word): Cpu16 { Loaded(Went(s, 1), r, v) }

  function ToStack(s: Cpu16, v: word): Cpu16 { Went(s, 1).(sp := Fixed(s.emul, v)) }

  function TransferEffect(arm: Arm, s: Cpu16): Cpu16 {
    match arm
    case TAX => TransferOf(s, RegX, Fit(s, s.c))
    case TAY => TransferOf(s, RegY, Fit(s, s.c))
    case TSX => TransferOf(s, RegX, Fit(s, s.sp))
    case TXY => TransferOf(s, RegY, s.x)
    case TYX => TransferOf(s, RegX, s.y)
    case TCS => ToStack(s, s.c)
    case _ => ToStack(s, s.x)
  }

  // ------------------------------------------------------------------ the flags

  /** CLC, CLD, CLI, CLV, SEC, SED, SEI */
  function ChangedOf(s: Cpu16, f: PFlag, on: bool): Cpu16 {
    Went(s, 1).(f := if f.X? || f.M? then s.f else Flagged(s.f, f, on))
  }

  /** The flags that the operand of REP or SEP names; not the width flags in
      emulation mode. */
  function Named(f: Flags16, v: byte, on: bool, emul: bool): Flags16 {
    Flags16(if Bit(v, 0x80) then on else f.n, if Bit(v, 0x40) then on else f.v,
            if Bit(v, 0x20) && !emul then on else f.m, if Bit(v, 0x10) && !emul then on else f.x,
            if Bit(v, 0x08) then on else f.d, if Bit(v, 0x04) then on else f.i,
            if Bit(v, 0x02) then on else f.z, if Bit(v, 0x01) then on else f.c)
  }

  function RepSepOf(s: Cpu16, v: byte, on: bool): Cpu16 {
    var narrows := Bit(v, 0x10) && !s.emul && on;
    Went(s, 2).(f := Named(s.f, v, on, s.emul),
                x := if narrows then Low(s.x) else s.x, y := if narrows then Low(s.y) else s.y)
  }

  function Emulated(s: Cpu16): Cpu16 { s.(emul := true, x := Low(s.x), y := Low(s.y), sp := 0x100 + Low(s.sp)) }

  function XceOf(s: Cpu16): Cpu16 {
    var t := Went(s, 1);
    if s.f.c == s.emul then t
    else if s.f.c then Emulated(t).(f := s.f.(c := false, x := false))
    else t.(emul := false, f := s.f.(c := true, m := true, x := true))
  }

  function FlagEffect(arm: Arm, s: Cpu16): Cpu16 {
    match arm
    case CLEAR(f) => ChangedOf(s, f, false)
    case SET(f) => ChangedOf(s, f, true)
    case REP => RepSepOf(s, Param(s, 1), false)
    case SEP => RepSepOf(s, Param(s, 1), true)
    case XCE => XceOf(s)
    case _ => s
  }

  // ------------------------------------------------------------- flow of control

  /** The k-th byte of the instruction; PC wraps in its bank. */
  function Param(s: Cpu16, k: nat): byte { s.mem[At(s.pbr, Word(s.pc + k))] }

  function Operand(s: Cpu16): word { Join(Param(s, 1), Param(s, 2)) }

  /** A word at `ea` of a bank, both addresses taken modulo its size. */
  function WordAt(m: Memory, bank: byte, ea: int): word { Join(m[At(bank, Word(ea))], m[At(bank, Word(ea + 1))]) }

  function SignedByte(v: byte): int { if v < 0x80 then v else v - 0x100 }

  predicate Passes(test: Test, f: Flags16) {
    match test
    case Always => true
    case SignIs(on) => f.n == on
    case ZeroIs(on) => f.z == on
    case CarryIs(on) => f.c == on
    case OverflowIs(on) => f.v == on
  }

  function BranchOf(s: Cpu16, test: Test): Cpu16 {
    s.(pc := if Passes(test, s.f) then Word(s.pc + 2 + SignedByte(Param(s, 1))) else Word(s.pc + 2))
  }

  function GoEffect(arm: Arm, s: Cpu16): Cpu16 {
    var ea := Operand(s);
    match arm
    case BRANCH(test) => BranchOf(s, test)
    case BRL => s.(pc := Word(s.pc + 3 + ea))
    case JMP => s.(pc := ea)
    case JMP_IND => s.(pc := WordAt(s.mem, 0, ea))
    case JMP_IND_LONG => s.(pc := WordAt(s.mem, 0, ea), pbr := s.mem[At(0, Word(ea + 2))])
    case JMP_IND_X => s.(pc := WordAt(s.mem, s.pbr, ea + s.x))
    case JMP_LONG => s.(pc := ea, pbr := Param(s, 3))
    case WDM => Went(s, 2)
    case _ => Went(s, 1)
  }

  function JsrOf(s: Cpu16): Cpu16 { PushedWide(s, Word(s.pc + 2)).(pc := Operand(s)) }

  /** JSR (a,X): the high byte of the vector's address is fetched after both stores. */
  function JsrIndXOf(s: Cpu16): Cpu16 {
    var t := PushedRaw(s, Word(s.pc + 2));
    t.(pc := WordAt(t.mem, s.pbr, Join(Param(s, 1), t.mem[At(s.pbr, Word(s.pc + 2))]) as int + s.x))
  }

  /** JSL: the new bank is fetched after the first store. */
  function JslOf(s: Cpu16): Cpu16 {
    var t := Dropped(s, s.pbr);
    PushedRaw(t, Word(s.pc + 3)).(pc := Operand(s), pbr := t.mem[At(s.pbr, Word(s.pc + 3))])
  }

  function RtsOf(s: Cpu16): Cpu16 { Popped(Popped(s)).(pc := Word(HeadWide(s) + 1)) }

  /** Three bytes from wherever the stack pointer leads, then the fix. */
  function RtlOf(s: Cpu16): Cpu16 {
    var s1 := Word(s.sp + 1);
    var s2 := Word(s1 + 1);
    s.(sp := Fixed(s.emul, Word(s2 + 1)), pc := Word(Join(s.mem[At(0, s1)], s.mem[At(0, s2)]) + 1),
       pbr := s.mem[At(0, Word(s2 + 1))])
  }

  function RtiOf(s: Cpu16): Cpu16 {
    var t := Popped(s);
    var u := Popped(Popped(Narrowed(t.(f := FlagsOf(Head(s)))))).(pc := HeadWide(t));
    if s.emul then u else Popped(u).(pbr := Head(u))
  }

  function CallEffect(arm: Arm, s: Cpu16): Cpu16 {
    match arm
    case JSR => JsrOf(s)
    case JSR_IND_X => JsrIndXOf(s)
    case JSR_LONG => JslOf(s)
    case RTS => RtsOf(s)
    case RTL => RtlOf(s)
    case _ => RtiOf(s)
  }

  // ----------------------------------------------------------------- interrupts

  function FramePushed(s: Cpu16): Cpu16 { Pushed(PushedWide(s, s.pc), StatusOf(s)) }

  /** Interrupts off, decimal mode off, and on through a vector in bank 0. */
  function Handling(s: Cpu16, vector: word): Cpu16 {
    s.(f := s.f.(i := true, d := false), pc := WordAt(s.mem, 0, vector), pbr := 0)
  }

  /** BRK and COP (`software`), IRQ and NMI */
  function InterruptOf(s: Cpu16, software: bool, emulVector: word, nativeVector: word): Cpu16 {
    var s := if software then Went(s, 2) else s;
    var t := FramePushed(if s.emul then s.(f := Flagged(s.f, X, software)) else Pushed(s, s.pbr));
    Handling(t, if s.emul then emulVector else nativeVector)
  }

  function ResetOf(s: Cpu16): Cpu16 {
    var t := Emulated(s);
    Handling(t.(f := s.f.(x := false), sp := Down(true, Down(true, Down(true, t.sp))), dpr := 0, dbr := 0), 0xfffc)
  }

  function VectorEffect(arm: Arm, s: Cpu16): Cpu16 {
    match arm
    case BRK => InterruptOf(s, true, 0xfffe, 0xffe6)
    case COP => InterruptOf(s, true, 0xfff4, 0xffe4)
    case IRQ => InterruptOf(s, false, 0xfffe, 0xffee)
    case NMI => InterruptOf(s, false, 0xfffa, 0xffea)
    case RES => ResetOf(s)
    case _ => s
  }

  // ------------------------------------------------------ moving and computing

  /** The k-th byte from PC on, running into the next bank. */
  function Ahead(s: Cpu16, k: nat): byte { s.mem[(At(s.pbr, s.pc) + k) % 0x1000000] }

  /** One round of a block move; PC moves on, wrapping in its bank, in the last one. */
  function MoveOf(s: Cpu16, up: bool): Cpu16 {
    var last := s.c == 0;
    var dst := if last then Param(s, 1) else Ahead(s, 1);
    var src := if last then Param(s, 2) else Ahead(s, 2);
    s.(mem := s.mem[At(dst, s.y) := s.mem[At(src, s.x)]], dbr := dst, c := Word(s.c - 1),
       x := Stepped(s.x, up, 1, IndexWidth(s)), y := Stepped(s.y, up, 1, IndexWidth(s)),
       pc := if last then Word(s.pc + 3) else s.pc)
  }

  /** Only the flags that the macro touches. */
  function Touched(f: Flags16, op: ComputeOp, o: Outcome): Flags16 {
    f.(n := if TouchesSign(op) then o.n >= 0x80 else f.n, z := if TouchesZero(op) then o.z == 0 else f.z,
       c := if TouchesCarry(op) then o.carry else f.c, v := if TouchesOverflow(op) then o.overflow else f.v)
  }

  /** Only what the macro touches. */
  function ComputeOf(op: ComputeOp, size: Size, s: Cpu16, o: Outcome): Cpu16 {
    Went(s, Length(size, s)).(f := Touched(s.f, op, o), c := if TouchesC(op, size) then o.c else s.c,
                              mem := if TouchesMemory(op, size) then o.mem else s.mem,
                              dpr := if op.TCD? then s.c else s.dpr)
  }

  // ------------------------------------------------------------------- any arm

  predicate Calls(arm: Arm) { arm.JSR? || arm.JSR_IND_X? || arm.JSR_LONG? || arm.RTS? || arm.RTL? || arm.RTI? }

  predicate WorksOnIndex(arm: Arm) { arm.LDI? || arm.INI? || arm.DEI? || arm.PLI? }

  predicate Interrupts(arm: Arm) { arm.BRK? || arm.COP? || arm.IRQ? || arm.NMI? || arm.RES? }

  predicate Pushes(arm: Arm) {
    match arm
    case PHA | PHX | PHY | PHB | PHK | PHP | PEA | PEI | PER | PHD => true
    case _ => false
  }

  predicate Pulls(arm: Arm) { arm.PLA? || arm.PLB? || arm.PLD? || arm.PLP? }

  predicate UsesStack(arm: Arm) { Calls(arm) || Interrupts(arm) || Pushes(arm) || Pulls(arm) }

  predicate SetsFlags(arm: Arm) { arm.CLEAR? || arm.SET? || arm.REP? || arm.SEP? || arm.XCE? }

  predicate Transfers(arm: Arm) {
    match arm
    case TAX | TAY | TSX | TXY | TYX | TCS | TXS => true
    case _ => false
  }

  function StackEffect(arm: Arm, s: Cpu16): Cpu16 {
    if Calls(arm) then CallEffect(arm, s)
    else if Interrupts(arm) then VectorEffect(arm, s)
    else if Pushes(arm) then PushEffect(arm, s)
    else PullEffect(arm, s)
  }

  function Effect(arm: Arm, s: Cpu16, o: Outcome): Cpu16 {
    if arm.Compute? then ComputeOf(arm.op, arm.size, s, o)
    else if arm.MVN? || arm.MVP? then MoveOf(s, arm.MVN?)
    else if UsesStack(arm) then StackEffect(arm, s)
    else if SetsFlags(arm) then FlagEffect(arm, s)
    else if Transfers(arm) then TransferEffect(arm, s)
    else if WorksOnIndex(arm) then IndexEffect(arm, s, o)
    else GoEffect(arm, s)
  }

  lemma CallKeepsMode(arm: Arm, s: Cpu16)
    ensures CallEffect(arm, s).emul == s.emul
  {
    hide RtsOf, RtlOf, RtiOf, JslOf, JsrOf, JsrIndXOf;
    CallsKeepMode(s);
    ReturnsKeepMode(s);
  }

  lemma CallsKeepMode(s: Cpu16)
    ensures JsrOf(s).emul == s.emul && JsrIndXOf(s).emul == s.emul && JslOf(s).emul == s.emul
  {
    hide Word, At, Low, High, Join, Down, WordAt, Param, Operand;
  }

  lemma ReturnsKeepMode(s: Cpu16)
    ensures RtsOf(s).emul == s.emul && RtlOf(s).emul == s.emul && RtiOf(s).emul == s.emul
  {
    hide Word, At, Low, High, Join, Up, FlagsOf, Fixed, Head, HeadWide;
  }

  lemma PushKeepsMode(arm: Arm, s: Cpu16)
    ensures PushEffect(arm, s).emul == s.emul && PushEffect(arm, s).f == s.f
  {
    hide Word, WordAt, StatusOf, NarrowM, NarrowX, Param, Operand, Broken, OnStack, PushedRaw;
    StackedKeepsMode();
  }

  lemma StackedKeepsMode()
    ensures forall s, v, bits8 :: OnStack(s, v, bits8).emul == s.emul && OnStack(s, v, bits8).f == s.f
    ensures forall s, v :: PushedRaw(s, v).emul == s.emul && PushedRaw(s, v).f == s.f
  {
    hide Word, At, Low, High, Down;
  }

  lemma PullKeepsMode(arm: Arm, s: Cpu16)
    ensures PullEffect(arm, s).emul == s.emul
  {
    hide Word, At, Low, High, Join, Up, FlagsOf, Fixed, NarrowM, NarrowX, Head, HeadWide;
  }

  lemma VectorKeepsMode(arm: Arm, s: Cpu16)
    ensures !arm.RES? ==> VectorEffect(arm, s).emul == s.emul
  {
    hide Word, At, Low, High, Join, Down, StatusOf, WordAt, Flagged;
  }

  lemma StackKeepsMode(arm: Arm, s: Cpu16)
    requires UsesStack(arm) && !arm.RES?
    ensures StackEffect(arm, s).emul == s.emul
  {
    hide CallEffect, VectorEffect, PushEffect, PullEffect, Calls, Interrupts, Pushes, Pulls;
    CallKeepsMode(arm, s);
    PushKeepsMode(arm, s);
    PullKeepsMode(arm, s);
    VectorKeepsMode(arm, s);
  }

  /** Only XCE and a reset leave or enter emulation mode. */
  lemma ModeChanges(arm: Arm, s: Cpu16, o: Outcome)
    ensures Effect(arm, s, o).emul == s.emul || arm.XCE? || arm.RES?
  {
    hide StackEffect, Word, At, Low, High, Join, Down, Up, FlagsOf, Bit, Stepped, Touched, Named, TouchesC,
         TouchesMemory, TouchesSign, TouchesZero, TouchesCarry, TouchesOverflow;
    if UsesStack(arm) && !arm.RES? {
      StackKeepsMode(arm, s);
    }
  }

  /** One event: the opcode at PC, or an interrupt in its place. */
  function After(e: Event, s: Cpu16): Cpu16 {
    match e
    case Instruction(o) => Effect(Switch(Param(s, 0)), s, o)
    case Irq(o) => Effect(IRQ, s, o)
    case Nmi(o) => Effect(NMI, s, o)
    case Reset(o) => Effect(RES, s, o)
  }

  function RunOf(es: seq<Event>, s: Cpu16): Cpu16 {
    if es == [] then s else RunOf(es[1..], After(es[0], s))
  }
}
