/**
 What each 65816 opcode does to the modes, the flags, the index registers, the stack
 and the flow of control, in plain arithmetic: the terms of a programmer's manual
 rather than those of the core or of its reference.
 */
module Laws65816 {
  import opened BlockMoves
  import opened CpuModel
  import opened Model65816
  import opened Switch65816

  /** The k-th byte of the instruction; PC wraps in its bank. */
  function Code(s: Cpu16, k: nat): byte { s.mem[0x10000 * s.pbr + (s.pc + k) % 0x10000] }

  /** Its 16-bit operand. */
  function Code16(s: Cpu16): word { Code(s, 1) + 0x100 * Code(s, 2) as int }

  /** The word at an address of a bank, wrapping in it. */
  function Wide(m: Memory, bank: byte, a: int): word {
    m[0x10000 * bank + a % 0x10000] + 0x100 * m[0x10000 * bank + (a + 1) % 0x10000] as int
  }

  function Next(s: Cpu16, bytes: nat): Cpu16 { s.(pc := (s.pc + bytes) % 0x10000) }

  /** N and Z of a value of 8 or 16 bits. */
  function Signed(s: Cpu16, v: word, width: int): Cpu16
    requires width == 0x100 || width == 0x10000
  {
    s.(f := s.f.(n := v % width >= width / 2, z := v % width == 0))
  }

  predicate Wide16(s: Cpu16) { !s.emul && !s.f.m }

  /** Values that fit the index registers. */
  function Span(s: Cpu16): int { if s.emul || s.f.x then 0x100 else 0x10000 }

  /** The opcode at PC is fetched from its bank. */
  lemma FetchLaw(s: Cpu16, o: Outcome)
    ensures After(Instruction(o), s) == Effect(Switch(Code(s, 0)), s, o)
    ensures forall k: nat :: Param(s, k) == Code(s, k)
    ensures Model65816.Operand(s) == Code16(s)
  {
    hide Effect, Switch;
    forall k: nat ensures Param(s, k) == Code(s, k) {
    }
  }

  // ---------------------------------------------- from the opcode to its effect

  lemma RunsFlags(s: Cpu16, o: Outcome, arm: Arm)
    requires Switch(Code(s, 0)) == arm && SetsFlags(arm)
    ensures After(Instruction(o), s) == FlagEffect(arm, s)
    ensures Param(s, 1) == Code(s, 1)
  {
    hide Switch, After, Code, Param;
    hide MoveOf, ComputeOf, StackEffect, FlagEffect, TransferEffect, IndexEffect, GoEffect;
    FetchLaw(s, o);
  }

  lemma RunsIndex(s: Cpu16, o: Outcome, arm: Arm)
    requires Switch(Code(s, 0)) == arm && WorksOnIndex(arm)
    ensures After(Instruction(o), s) == IndexEffect(arm, s, o)
  {
    hide Switch, After, Code, Param;
    hide MoveOf, ComputeOf, StackEffect, FlagEffect, TransferEffect, IndexEffect, GoEffect;
    FetchLaw(s, o);
  }

  lemma RunsTransfer(s: Cpu16, o: Outcome, arm: Arm)
    requires Switch(Code(s, 0)) == arm && Transfers(arm)
    ensures After(Instruction(o), s) == TransferEffect(arm, s)
  {
    hide Switch, After, Code, Param;
    hide MoveOf, ComputeOf, StackEffect, FlagEffect, TransferEffect, IndexEffect, GoEffect;
    FetchLaw(s, o);
  }

  lemma RunsStack(s: Cpu16, o: Outcome, arm: Arm)
    requires Switch(Code(s, 0)) == arm && UsesStack(arm)
    ensures After(Instruction(o), s) == StackEffect(arm, s)
    ensures forall k: nat :: Param(s, k) == Code(s, k)
    ensures Model65816.Operand(s) == Code16(s)
  {
    hide Switch, After, Code, Param;
    hide MoveOf, ComputeOf, StackEffect, FlagEffect, TransferEffect, IndexEffect, GoEffect;
    FetchLaw(s, o);
  }

  lemma RunsPush(s: Cpu16, o: Outcome, arm: Arm)
    requires Switch(Code(s, 0)) == arm && Pushes(arm)
    ensures After(Instruction(o), s) == PushEffect(arm, s)
    ensures forall k: nat :: Param(s, k) == Code(s, k)
    ensures Model65816.Operand(s) == Code16(s)
  {
    hide Switch, After, Code, Code16, Param, Model65816.Operand, CallEffect, VectorEffect, PushEffect, PullEffect;
    RunsStack(s, o, arm);
  }

  lemma RunsPull(s: Cpu16, o: Outcome, arm: Arm)
    requires Switch(Code(s, 0)) == arm && Pulls(arm)
    ensures After(Instruction(o), s) == PullEffect(arm, s)
    ensures forall k: nat :: Param(s, k) == Code(s, k)
    ensures Model65816.Operand(s) == Code16(s)
  {
    hide Switch, After, Code, Code16, Param, Model65816.Operand, CallEffect, VectorEffect, PushEffect, PullEffect;
    RunsStack(s, o, arm);
  }

  lemma RunsCall(s: Cpu16, o: Outcome, arm: Arm)
    requires Switch(Code(s, 0)) == arm && Calls(arm)
    ensures After(Instruction(o), s) == CallEffect(arm, s)
    ensures forall k: nat :: Param(s, k) == Code(s, k)
    ensures Model65816.Operand(s) == Code16(s)
  {
    hide Switch, After, Code, Code16, Param, Model65816.Operand, CallEffect, VectorEffect, PushEffect, PullEffect;
    RunsStack(s, o, arm);
  }

  lemma RunsGo(s: Cpu16, o: Outcome, arm: Arm)
    requires Switch(Code(s, 0)) == arm && Goes(arm)
    ensures After(Instruction(o), s) == GoEffect(arm, s)
    ensures forall k: nat :: Param(s, k) == Code(s, k)
    ensures Model65816.Operand(s) == Code16(s)
  {
    hide Switch, After, Code, Param;
    hide MoveOf, ComputeOf, StackEffect, FlagEffect, TransferEffect, IndexEffect, GoEffect;
    FetchLaw(s, o);
  }

  predicate Goes(arm: Arm) {
    match arm
    case BRANCH(_) | BRL | JMP | JMP_IND | JMP_IND_LONG | JMP_IND_X | JMP_LONG | NOP | WDM | WAI | STP => true
    case _ => false
  }

  // ------------------------------------------------------------- modes and flags

  /** REP (0xc2) clears and SEP (0xe2) sets the flags whose bits the operand has, but
      not M and X in emulation mode; setting X truncates the index registers. */
  lemma ModeLaw(s: Cpu16, o: Outcome)
    requires Code(s, 0) == 0xc2 || Code(s, 0) == 0xe2
    ensures var on := Code(s, 0) == 0xe2;
            var v := Code(s, 1);
            var t := After(Instruction(o), s);
            && t.f.n == (if v / 0x80 % 2 == 1 then on else s.f.n)
            && t.f.v == (if v / 0x40 % 2 == 1 then on else s.f.v)
            && t.f.m == (if v / 0x20 % 2 == 1 && !s.emul then on else s.f.m)
            && t.f.x == (if v / 0x10 % 2 == 1 && !s.emul then on else s.f.x)
            && t.f.d == (if v / 0x08 % 2 == 1 then on else s.f.d)
            && t.f.i == (if v / 0x04 % 2 == 1 then on else s.f.i)
            && t.f.z == (if v / 0x02 % 2 == 1 then on else s.f.z)
            && t.f.c == (if v % 2 == 1 then on else s.f.c)
            && t.x == (if on && v / 0x10 % 2 == 1 && !s.emul then s.x % 0x100 else s.x)
            && t.y == (if on && v / 0x10 % 2 == 1 && !s.emul then s.y % 0x100 else s.y)
            && t == Next(s, 2).(f := t.f, x := t.x, y := t.y)
  {
    hide Code, Switch, After, Param;
    SwitchModes();
    RunsFlags(s, o, if Code(s, 0) == 0xc2 then REP else SEP);
  }

  lemma SwitchModes()
    ensures Switch(0xc2) == REP && Switch(0xe2) == SEP && Switch(0xfb) == XCE
    ensures Switch(0x18) == CLEAR(C) && Switch(0x58) == CLEAR(I) && Switch(0xd8) == CLEAR(D) && Switch(0xb8) == CLEAR(V)
    ensures Switch(0x38) == SET(C) && Switch(0x78) == SET(I) && Switch(0xf8) == SET(D)
  {
  }

  lemma FlagLaw(s: Cpu16, o: Outcome)
    requires Code(s, 0) in {0x18, 0x38, 0x58, 0x78, 0xb8, 0xd8, 0xf8}
    ensures After(Instruction(o), s) == Next(s, 1).(f := match Code(s, 0)
                                                         case 0x18 => s.f.(c := false)
                                                         case 0x38 => s.f.(c := true)
                                                         case 0x58 => s.f.(i := false)
                                                         case 0x78 => s.f.(i := true)
                                                         case 0xb8 => s.f.(v := false)
                                                         case 0xd8 => s.f.(d := false)
                                                         case _ => s.f.(d := true))
  {
    hide Code, Switch, After, Param, ChangedOf, Next, FlagEffect;
    SwitchModes();
    var arm := Switch(Code(s, 0));
    RunsFlags(s, o, arm);
    ChangedArm(arm, s);
    ChangedLaw(s, arm.SET?);
  }

  lemma ChangedArm(arm: Arm, s: Cpu16)
    requires arm.CLEAR? || arm.SET?
    ensures FlagEffect(arm, s) == ChangedOf(s, arm.f, arm.SET?)
  {
    hide ChangedOf;
  }

  lemma ChangedLaw(s: Cpu16, on: bool)
    ensures ChangedOf(s, C, on) == Next(s, 1).(f := s.f.(c := on)) && ChangedOf(s, I, on) == Next(s, 1).(f := s.f.(i := on))
    ensures ChangedOf(s, D, on) == Next(s, 1).(f := s.f.(d := on)) && ChangedOf(s, V, on) == Next(s, 1).(f := s.f.(v := on))
  {
  }

  /** XCE swaps the carry and the emulation bit.  Entering emulation mode narrows the
      registers and clears the break bit; leaving it starts with all registers narrow. */
  lemma ExchangeLaw(s: Cpu16, o: Outcome)
    requires Code(s, 0) == 0xfb
    ensures After(Instruction(o), s)
            == var t := Next(s, 1).(emul := s.f.c, f := s.f.(c := s.emul));
               if s.f.c && !s.emul then
                 t.(f := t.f.(x := false), x := s.x % 0x100, y := s.y % 0x100, sp := 0x100 + s.sp % 0x100)
               else if s.emul && !s.f.c then t.(f := t.f.(m := true, x := true))
               else t
  {
    hide Code, Switch, After, Param;
    SwitchModes();
    RunsFlags(s, o, XCE);
  }

  // ------------------------------------------------------------- index registers

  predicate LoadsX(p0: byte) { p0 in {0xa2, 0xa6, 0xae, 0xb6, 0xbe} }

  predicate LoadsY(p0: byte) { p0 in {0xa0, 0xa4, 0xac, 0xb4, 0xbc} }

  /** The bytes of LDX and LDY: an immediate operand is as wide as the register. */
  function LoadLength(s: Cpu16): nat {
    var p0 := Code(s, 0);
    if p0 == 0xa0 || p0 == 0xa2 then (if Span(s) == 0x100 then 2 else 3) else if p0 % 0x10 < 8 then 2 else 3
  }

  lemma LoadLaw(s: Cpu16, o: Outcome)
    requires LoadsX(Code(s, 0)) || LoadsY(Code(s, 0))
    ensures var v := o.operand % Span(s);
            var t := Signed(Next(s, LoadLength(s)), v, Span(s));
            After(Instruction(o), s) == if LoadsX(Code(s, 0)) then t.(x := v) else t.(y := v)
  {
    hide Code, Switch, After, High;
    SwitchLoads(Code(s, 0));
    RunsIndex(s, o, Switch(Code(s, 0)));
    NarrowSigns(o.operand);
  }

  lemma SwitchLoads(p0: byte)
    requires LoadsX(p0) || LoadsY(p0)
    ensures Switch(p0) == LDI(if LoadsX(p0) then RegX else RegY,
                              if p0 < 0xa3 then ByIndex else if p0 % 0x10 < 8 then Bytes(2) else Bytes(3))
  {
    hide Switch;
    LoadSwitches();
  }

  lemma LoadSwitches()
    ensures Switch(0xa2) == LDI(RegX, ByIndex) && Switch(0xa6) == LDI(RegX, Bytes(2)) && Switch(0xae) == LDI(RegX, Bytes(3))
    ensures Switch(0xb6) == LDI(RegX, Bytes(2)) && Switch(0xbe) == LDI(RegX, Bytes(3))
    ensures Switch(0xa0) == LDI(RegY, ByIndex) && Switch(0xa4) == LDI(RegY, Bytes(2)) && Switch(0xac) == LDI(RegY, Bytes(3))
    ensures Switch(0xb4) == LDI(RegY, Bytes(2)) && Switch(0xbc) == LDI(RegY, Bytes(3))
  {
  }

  lemma NarrowSigns(v: word)
    ensures v % 0x10000 == v && (High(v) >= 0x80 <==> v >= 0x8000) && v % 0x100 % 0x100 == v % 0x100
  {
  }

  lemma StepLaw(s: Cpu16, r: Index, up: bool)
    ensures var i := if r.RegX? then s.x else s.y;
            var v := (if up then i + 1 else i - 1) % Span(s);
            StepOf(s, r, up) == Signed(if r.RegX? then Next(s, 1).(x := v) else Next(s, 1).(y := v), v, Span(s))
  {
    hide High;
    var v := if up then IndexOf(s, r) + 1 else IndexOf(s, r) - 1;
    NarrowSigns(Word(v));
  }

  /** Counts wrap at the width of the registers. */
  lemma CountLaw(s: Cpu16, o: Outcome)
    requires Code(s, 0) in {0xe8, 0xc8, 0xca, 0x88}
    ensures var v := (match Code(s, 0) case 0xe8 => s.x + 1 case 0xca => s.x - 1 case 0xc8 => s.y + 1 case _ => s.y - 1)
                     % Span(s);
            var t := Signed(Next(s, 1), v, Span(s));
            After(Instruction(o), s) == if Code(s, 0) == 0xe8 || Code(s, 0) == 0xca then t.(x := v) else t.(y := v)
  {
    hide Code, Switch, After, StepOf;
    SwitchCounts();
    RunsIndex(s, o, Switch(Code(s, 0)));
    var onX, up := Code(s, 0) == 0xe8 || Code(s, 0) == 0xca, Code(s, 0) == 0xe8 || Code(s, 0) == 0xc8;
    StepLaw(s, if onX then RegX else RegY, up);
  }

  lemma SwitchCounts()
    ensures Switch(0xe8) == INI(RegX) && Switch(0xc8) == INI(RegY)
    ensures Switch(0xca) == DEI(RegX) && Switch(0x88) == DEI(RegY)
  {
  }

  /** TXY and TYX copy as they are: both registers have the same width. */
  lemma TransferLaw(s: Cpu16, o: Outcome)
    requires Code(s, 0) in {0xaa, 0xa8, 0xba, 0x9b, 0xbb}
    ensures var p0 := Code(s, 0);
            var from := if p0 == 0xaa || p0 == 0xa8 then s.c % Span(s) else if p0 == 0xba then s.sp % Span(s)
                        else if p0 == 0x9b then s.x else s.y;
            var t := Signed(Next(s, 1), from, Span(s));
            After(Instruction(o), s) == if p0 == 0xa8 || p0 == 0x9b then t.(y := from) else t.(x := from)
  {
    hide Code, Switch, After, High;
    SwitchTransfers();
    RunsTransfer(s, o, Switch(Code(s, 0)));
    NarrowSigns(s.c);
    NarrowSigns(s.sp);
    NarrowSigns(s.x);
    NarrowSigns(s.y);
  }

  lemma SwitchTransfers()
    ensures Switch(0xaa) == Arm.TAX && Switch(0xa8) == Arm.TAY && Switch(0xba) == Arm.TSX
    ensures Switch(0x9b) == TXY && Switch(0xbb) == TYX && Switch(0x1b) == TCS && Switch(0x9a) == Arm.TXS
  {
  }

  /** TCS and TXS set no flag, and keep page one in emulation mode. */
  lemma ToStackLaw(s: Cpu16, o: Outcome)
    requires Code(s, 0) == 0x1b || Code(s, 0) == 0x9a
    ensures var from := if Code(s, 0) == 0x1b then s.c else s.x;
            After(Instruction(o), s) == Next(s, 1).(sp := if s.emul then 0x100 + from % 0x100 else from)
  {
    hide Code, Switch, After, High;
    SwitchTransfers();
    RunsTransfer(s, o, Switch(Code(s, 0)));
  }

  // ------------------------------------------------------------------- the stack

  /** Where the stack pointer is after k pushes; it wraps in page one in emulation
      mode, in bank 0 otherwise. */
  function Below(s: Cpu16, k: nat): word {
    if s.emul then 0x100 + (s.sp - k) % 0x100 else (s.sp - k) % 0x10000
  }

  function Above(s: Cpu16, k: nat): word {
    if s.emul then 0x100 + (s.sp + k) % 0x100 else (s.sp + k) % 0x10000
  }

  /** The k-th byte pulled from now on. */
  function Pulled(s: Cpu16, k: nat): byte { s.mem[Above(s, k)] }

  function Put1(s: Cpu16, v: byte): Cpu16 { s.(mem := s.mem[s.sp as int := v], sp := Below(s, 1)) }

  /** High byte first. */
  function Put2(s: Cpu16, w: word): Cpu16 { Put1(Put1(s, w / 0x100), w % 0x100) }

  /** The instructions that the 6502 does not have leave page one between the bytes. */
  function Put2Raw(s: Cpu16, w: word): Cpu16 {
    s.(mem := s.mem[s.sp as int := w / 0x100][(s.sp - 1) % 0x10000 := w % 0x100], sp := Below(s, 2))
  }

  lemma PutLaw(s: Cpu16, v: byte)
    ensures Pushed(s, v) == Put1(s, v)
  {
    hide Word, At, Down;
    BelowLaw(s.emul, s.sp);
    BankZero(s.sp);
  }

  lemma PutRawLaw(s: Cpu16, w: word)
    ensures PushedRaw(s, w) == Put2Raw(s, w)
  {
    hide At, Down;
    BelowLaw(s.emul, s.sp);
    BankZero(s.sp);
    BankZero(Word(s.sp - 1));
  }

  lemma BelowLaw(emul: bool, sp: word)
    ensures Down(emul, sp) == if emul then 0x100 + (sp - 1) % 0x100 else (sp - 1) % 0x10000
    ensures Down(emul, Word(sp - 1)) == if emul then 0x100 + (sp - 2) % 0x100 else (sp - 2) % 0x10000
  {
  }

  lemma BankZero(a: word)
    ensures At(0, a) == a
  {
  }

  lemma AboveLaw(s: Cpu16, k: nat)
    ensures Up(s.emul, Above(s, k)) == Above(s, k + 1) && At(0, Above(s, k)) == Above(s, k)
  {
    StepWraps(s.sp + k);
  }

  lemma StepWraps(n: int)
    ensures (0x100 + n % 0x100 + 1) % 0x100 == (n + 1) % 0x100
    ensures (n % 0x10000 + 1) % 0x10000 == (n + 1) % 0x10000
  {
    StepInPage(n);
    StepInBank(n);
  }

  lemma StepInPage(n: int)
    ensures (0x100 + n % 0x100 + 1) % 0x100 == (n + 1) % 0x100
  {
    var q := n / 0x100;
    if n % 0x100 == 0xff {
      assert n + 1 == 0x100 * (q + 1);
    } else {
      assert n + 1 == 0x100 * q + (n % 0x100 + 1);
    }
  }

  lemma StepInBank(n: int)
    ensures (n % 0x10000 + 1) % 0x10000 == (n + 1) % 0x10000
  {
  }

  // ----------------------------------------------------------- pushes and pulls

  /** N V M X D I Z C; bit 5 is always set in emulation mode. */
  function Packed(s: Cpu16): byte {
    (if s.f.n then 0x80 else 0) + (if s.f.v then 0x40 else 0) + (if s.emul || s.f.m then 0x20 else 0)
    + (if s.f.x then 0x10 else 0) + (if s.f.d then 8 else 0) + (if s.f.i then 4 else 0)
    + (if s.f.z then 2 else 0) + if s.f.c then 1 else 0
  }

  function Unpacked(v: byte): Flags16 {
    Flags16(v >= 0x80, v / 0x40 % 2 == 1, v / 0x20 % 2 == 1, v / 0x10 % 2 == 1,
            v / 8 % 2 == 1, v / 4 % 2 == 1, v / 2 % 2 == 1, v % 2 == 1)
  }

  lemma PackedLaw(s: Cpu16)
    ensures StatusOf(s) == Packed(s)
  {
  }

  lemma UnpackedLaw(v: byte)
    ensures FlagsOf(v) == Unpacked(v)
  {
  }

  lemma PutWideLaw(s: Cpu16, w: word)
    ensures PushedWide(s, w) == Put2(s, w)
  {
    hide Put1, Pushed;
    PutLaw(s, w / 0x100);
    PutLaw(Put1(s, w / 0x100), w % 0x100);
  }

  /** PHA, PHX and PHY by the width of their register; PHB, PHK and PHP one byte, the
      last with the break bit set in emulation mode. */
  lemma PushLaw(s: Cpu16, o: Outcome)
    requires Code(s, 0) in {0x48, 0xda, 0x5a, 0x8b, 0x4b, 0x08}
    ensures var t := Next(s, 1);
            After(Instruction(o), s) == match Code(s, 0)
                                        case 0x48 => if Wide16(s) then Put2(t, s.c) else Put1(t, s.c % 0x100)
                                        case 0xda => if Span(s) == 0x100 then Put1(t, s.x % 0x100) else Put2(t, s.x)
                                        case 0x5a => if Span(s) == 0x100 then Put1(t, s.y % 0x100) else Put2(t, s.y)
                                        case 0x8b => Put1(t, s.dbr)
                                        case 0x4b => Put1(t, s.pbr)
                                        case _ => Put1(t, Packed(if s.emul then s.(f := s.f.(x := true)) else s))
  {
    hide Code, Switch, After, Put1, Put2, Pushed, PushedWide, StatusOf, Packed, Param, StackEffect;
    SwitchPushes();
    RunsPush(s, o, Switch(Code(s, 0)));
    var t := Next(s, 1);
    Puts(t, s.c);
    Puts(t, s.x);
    Puts(t, s.y);
    Puts(t, s.dbr);
    Puts(t, s.pbr);
    PackedLaw(if s.emul then Broken(s) else s);
    PutLaw(t, Packed(if s.emul then Broken(s) else s));
  }

  lemma Puts(s: Cpu16, w: word)
    ensures Pushed(s, Low(w)) == Put1(s, w % 0x100) && PushedWide(s, w) == Put2(s, w)
  {
    hide Put1, Put2, Pushed, PushedWide;
    PutLaw(s, w % 0x100);
    PutWideLaw(s, w);
  }

  lemma SwitchPushes()
    ensures Switch(0x48) == Arm.PHA && Switch(0xda) == PHX && Switch(0x5a) == PHY
    ensures Switch(0x8b) == PHB && Switch(0x4b) == PHK && Switch(0x08) == Arm.PHP
    ensures Switch(0xf4) == PEA && Switch(0xd4) == PEI && Switch(0x62) == PER && Switch(0x0b) == PHD
  {
  }

  /** PEA pushes its operand, PEI a word of the direct page, PER an address relative to
      the next instruction and PHD the direct page register. */
  lemma PushRawLaw(s: Cpu16, o: Outcome)
    requires Code(s, 0) in {0xf4, 0xd4, 0x62, 0x0b}
    ensures After(Instruction(o), s) == match Code(s, 0)
                                        case 0xf4 => Put2Raw(Next(s, 3), Code16(s))
                                        case 0xd4 => Put2Raw(Next(s, 2), Wide(s.mem, 0, Code(s, 1) as int + s.dpr))
                                        case 0x62 => Put2Raw(Next(s, 3), (s.pc + 3 + Code16(s)) % 0x10000)
                                        case _ => Put2Raw(Next(s, 1), s.dpr)
  {
    hide Code, Switch, After, Put2Raw, PushedRaw, WordAt, Wide, Code16, Param, Model65816.Operand, StackEffect;
    SwitchPushes();
    RunsPush(s, o, Switch(Code(s, 0)));
    WideLaw(s.mem, 0, Code(s, 1) as int + s.dpr);
    PutRawLaw(Next(s, 3), Code16(s));
    PutRawLaw(Next(s, 2), Wide(s.mem, 0, Code(s, 1) as int + s.dpr));
    PutRawLaw(Next(s, 3), (s.pc + 3 + Code16(s)) % 0x10000);
    PutRawLaw(Next(s, 1), s.dpr);
  }

  lemma WideLaw(m: Memory, bank: byte, a: int)
    ensures WordAt(m, bank, a) == Wide(m, bank, a)
  {
    hide At;
    InBank(bank, Word(a));
    InBank(bank, Word(a + 1));
  }

  lemma InBank(bank: byte, a: word)
    ensures At(bank, a) == 0x10000 * bank + a
  {
  }

  /** PLA by the width of the accumulator, whose high byte a narrow pull leaves; PLX
      and PLY by theirs; PLB one byte; PLD two, leaving page one. */
  lemma PullLaw(s: Cpu16, o: Outcome)
    requires Code(s, 0) in {0x68, 0xab}
    ensures var one := Signed(Next(s, 1).(sp := Above(s, 1)), Pulled(s, 1), 0x100);
            var both: word := Pulled(s, 1) + 0x100 * Pulled(s, 2) as int;
            var two := Signed(Next(s, 1).(sp := Above(s, 2), c := both), both, 0x10000);
            After(Instruction(o), s) == if Code(s, 0) == 0xab then one.(dbr := Pulled(s, 1))
                                        else if Wide16(s) then two
                                        else one.(c := s.c / 0x100 * 0x100 + Pulled(s, 1))
  {
    hide Code, Switch, After, PlaOf, PlbOf, Pulled, Above, Signed;
    SwitchPulls();
    RunsPull(s, o, Switch(Code(s, 0)));
    PlaLaw(s);
  }

  lemma PlaLaw(s: Cpu16)
    ensures var one := Signed(Next(s, 1).(sp := Above(s, 1)), Pulled(s, 1), 0x100);
            var both: word := Pulled(s, 1) + 0x100 * Pulled(s, 2) as int;
            var two := Signed(Next(s, 1).(sp := Above(s, 2), c := both), both, 0x10000);
            PlbOf(s) == one.(dbr := Pulled(s, 1))
            && PlaOf(s) == if Wide16(s) then two else one.(c := s.c / 0x100 * 0x100 + Pulled(s, 1))
  {
    hide Head, HeadWide, Pulled, Above, Up, High, Went, Signed, Signs16, Word;
    WentLaw(s, 1);
    HeadLaw(s);
    var t := Next(s, 1).(sp := Above(s, 1));
    ByteSigns(t.(dbr := Pulled(s, 1)), Pulled(s, 1));
    ByteSigns(t.(c := Join(Pulled(s, 1), High(s.c))), Pulled(s, 1));
    WideSigns(Next(s, 1).(sp := Above(s, 2), c := HeadWide(s)), HeadWide(s));
    SignedKeeps(t, Pulled(s, 1));
    HighLaw(s.c);
  }

  lemma HighLaw(w: word)
    ensures 0x100 * High(w) as int == w / 0x100 * 0x100
  {
  }

  lemma ByteSigns(s: Cpu16, v: byte)
    ensures Signs16(s, v, true) == Signed(s, v, 0x100)
  {
  }

  lemma SignedKeeps(s: Cpu16, v: byte)
    ensures forall b: byte :: Signed(s.(dbr := b), v, 0x100) == Signed(s, v, 0x100).(dbr := b)
    ensures forall c: word :: Signed(s.(c := c), v, 0x100) == Signed(s, v, 0x100).(c := c)
  {
  }

  lemma HeadLaw(s: Cpu16)
    ensures Head(s) == Pulled(s, 1) && HeadWide(s) == Pulled(s, 1) + 0x100 * Pulled(s, 2) as int
    ensures Up(s.emul, s.sp) == Above(s, 1) && Up(s.emul, Above(s, 1)) == Above(s, 2)
  {
    hide At, Up, Above;
    UpLaw(s);
  }

  lemma SwitchPulls()
    ensures Switch(0x68) == Arm.PLA && Switch(0xab) == PLB && Switch(0x2b) == PLD && Switch(0x28) == Arm.PLP
    ensures Switch(0xfa) == PLI(RegX) && Switch(0x7a) == PLI(RegY)
  {
  }

  lemma PullIndexLaw(s: Cpu16, o: Outcome)
    requires Code(s, 0) == 0xfa || Code(s, 0) == 0x7a
    ensures var narrow := Span(s) == 0x100;
            var v: word := if narrow then Pulled(s, 1) else Pulled(s, 1) + 0x100 * Pulled(s, 2) as int;
            var t := Signed(Next(s, 1).(sp := Above(s, if narrow then 1 else 2)), v, Span(s));
            After(Instruction(o), s) == if Code(s, 0) == 0xfa then t.(x := v) else t.(y := v)
  {
    hide Code, Switch, After, Head, HeadWide, Pulled, Above, Up, High;
    SwitchPulls();
    RunsIndex(s, o, Switch(Code(s, 0)));
    HeadLaw(s);
    NarrowSigns(HeadWide(s));
  }

  /** PLD reads two bytes above the stack pointer wherever that leads. */
  lemma PullDirectLaw(s: Cpu16, o: Outcome)
    requires Code(s, 0) == 0x2b
    ensures After(Instruction(o), s) == var v := Wide(s.mem, 0, s.sp + 1);
                                        Signed(Next(s, 1).(sp := Above(s, 2), dpr := v), v, 0x10000)
  {
    hide Code, Switch, After, Wide, Above, PldOf, Signed;
    SwitchPulls();
    RunsPull(s, o, PLD);
    PldLaw(s);
  }

  lemma PldLaw(s: Cpu16)
    ensures PldOf(s) == var v := Wide(s.mem, 0, s.sp + 1);
                        Signed(Next(s, 1).(sp := Above(s, 2), dpr := v), v, 0x10000)
  {
    hide Wide, Above, Word, Went, Next, Signs16, Signed, Join, At, Fixed;
    AstrayLaw(s);
    WideSigns(Next(s, 1).(sp := Above(s, 2), dpr := Wide(s.mem, 0, s.sp + 1)), Wide(s.mem, 0, s.sp + 1));
    WentLaw(s, 1);
  }

  lemma WideSigns(s: Cpu16, v: word)
    ensures Signs16(s, v, false) == Signed(s, v, 0x10000)
  {
    hide High;
    NarrowSigns(v);
  }

  lemma WentLaw(s: Cpu16, n: nat)
    ensures Went(s, n) == Next(s, n)
  {
  }

  lemma AstrayLaw(s: Cpu16)
    ensures var s1 := Word(s.sp + 1);
            Join(s.mem[At(0, s1)], s.mem[At(0, Word(s1 + 1))]) == Wide(s.mem, 0, s.sp + 1)
    ensures Fixed(s.emul, Word(Word(s.sp + 1) + 1)) == Above(s, 2)
  {
    hide At, Join, Wide, Word;
    WideLaw(s.mem, 0, s.sp + 1);
    TwoUp(s.sp);
    LowOfWord(s.sp + 2);
  }

  lemma TwoUp(sp: word)
    ensures Word(Word(sp + 1) + 1) == Word(sp + 1 + 1) == (sp + 2) % 0x10000
  {
  }

  /** PLP sets all eight flags; setting X truncates the index registers. */
  lemma PullFlagsLaw(s: Cpu16, o: Outcome)
    requires Code(s, 0) == 0x28
    ensures var t := Next(s, 1).(sp := Above(s, 1), f := Unpacked(Pulled(s, 1)));
            After(Instruction(o), s) == t.(x := if Span(t) == 0x100 then s.x % 0x100 else s.x,
                                           y := if Span(t) == 0x100 then s.y % 0x100 else s.y)
  {
    hide Code, Switch, After, Head, HeadWide, Pulled, Above, Up, FlagsOf, Unpacked;
    SwitchPulls();
    RunsPull(s, o, Arm.PLP);
    HeadLaw(s);
    UnpackedLaw(Pulled(s, 1));
  }

  // ------------------------------------------------------------- flow of control

  predicate Branches(p0: byte) { p0 in {0x10, 0x30, 0x50, 0x70, 0x80, 0x90, 0xb0, 0xd0, 0xf0} }

  /** BPL, BMI, BVC, BVS, BRA, BCC, BCS, BNE, BEQ: a signed byte from the next
      instruction on, wrapping in the bank. */
  lemma BranchLaw(s: Cpu16, o: Outcome)
    requires Branches(Code(s, 0))
    ensures var taken := match Code(s, 0)
                         case 0x10 => !s.f.n case 0x30 => s.f.n case 0x50 => !s.f.v case 0x70 => s.f.v
                         case 0x90 => !s.f.c case 0xb0 => s.f.c case 0xd0 => !s.f.z case 0xf0 => s.f.z case _ => true;
            var p1 := Code(s, 1);
            After(Instruction(o), s)
            == s.(pc := if !taken then (s.pc + 2) % 0x10000
                        else if p1 < 0x80 then (s.pc + 2 + p1) % 0x10000 else (s.pc + 2 + p1 - 0x100) % 0x10000)
  {
    hide Code, Switch, After, BranchOf;
    SwitchBranches();
    RunsGo(s, o, Switch(Code(s, 0)));
    BranchOfLaw(s, Switch(Code(s, 0)).test);
  }

  lemma BranchOfLaw(s: Cpu16, test: Test)
    ensures var p1 := Code(s, 1);
            var taken := match test
                         case Always => true
                         case SignIs(on) => s.f.n == on
                         case ZeroIs(on) => s.f.z == on
                         case CarryIs(on) => s.f.c == on
                         case OverflowIs(on) => s.f.v == on;
            BranchOf(s, test) == s.(pc := if !taken then (s.pc + 2) % 0x10000
                                          else if p1 < 0x80 then (s.pc + 2 + p1) % 0x10000
                                          else (s.pc + 2 + p1 - 0x100) % 0x10000)
  {
    hide Code, Param;
    CodeLaw(s, 1);
  }

  lemma SwitchBranches()
    ensures Switch(0x10) == BRANCH(SignIs(false)) && Switch(0x30) == BRANCH(SignIs(true))
    ensures Switch(0x50) == BRANCH(OverflowIs(false)) && Switch(0x70) == BRANCH(OverflowIs(true))
    ensures Switch(0x90) == BRANCH(CarryIs(false)) && Switch(0xb0) == BRANCH(CarryIs(true))
    ensures Switch(0xd0) == BRANCH(ZeroIs(false)) && Switch(0xf0) == BRANCH(ZeroIs(true))
    ensures Switch(0x80) == BRANCH(Always)
  {
  }

  /** BRL, JMP a, JMP (a), JMP [a], JMP (a,X) and JMP al; NOP, WAI and STP do nothing
      but move on, and WDM skips a byte. */
  lemma JumpLaw(s: Cpu16, o: Outcome)
    requires Code(s, 0) in {0x82, 0x4c, 0x6c, 0xdc, 0x7c, 0x5c, 0xea, 0xcb, 0xdb, 0x42}
    ensures var a := Code16(s);
            After(Instruction(o), s) == match Code(s, 0)
                                        case 0x82 => s.(pc := (s.pc + 3 + a) % 0x10000)
                                        case 0x4c => s.(pc := a)
                                        case 0x6c => s.(pc := Wide(s.mem, 0, a))
                                        case 0xdc => s.(pc := Wide(s.mem, 0, a), pbr := s.mem[(a + 2) % 0x10000])
                                        case 0x7c => s.(pc := Wide(s.mem, s.pbr, a + s.x))
                                        case 0x5c => s.(pc := a, pbr := Code(s, 3))
                                        case 0x42 => Next(s, 2)
                                        case _ => Next(s, 1)
  {
    hide Code, Code16, Switch, After, WordAt, Wide;
    hide At;
    SwitchJumps();
    RunsGo(s, o, Switch(Code(s, 0)));
    WideLaw(s.mem, 0, Code16(s));
    WideLaw(s.mem, s.pbr, Code16(s) + s.x);
    BankZero(Word(Code16(s) + 2));
  }

  lemma SwitchJumps()
    ensures Switch(0x82) == BRL && Switch(0x4c) == Arm.JMP && Switch(0x6c) == Arm.JMP_IND
    ensures Switch(0xdc) == JMP_IND_LONG && Switch(0x7c) == JMP_IND_X && Switch(0x5c) == JMP_LONG
    ensures Switch(0xea) == Arm.NOP && Switch(0x42) == WDM
    ensures Switch(0xcb) == WAI && Switch(0xdb) == STP
  {
  }

  /** JSR stores the address of its last byte. */
  lemma CallLaw(s: Cpu16, o: Outcome)
    requires Code(s, 0) == 0x20
    ensures After(Instruction(o), s) == Put2(s, (s.pc + 2) % 0x10000).(pc := Code16(s))
  {
    hide Code, Code16, Switch, After, PushedWide, Put2;
    SwitchCalls();
    RunsCall(s, o, Arm.JSR);
    PutWideLaw(s, Word(s.pc + 2));
  }

  lemma SwitchCalls()
    ensures Switch(0x20) == Arm.JSR && Switch(0xfc) == JSR_IND_X && Switch(0x22) == JSR_LONG
    ensures Switch(0x60) == Arm.RTS && Switch(0x6b) == RTL && Switch(0x40) == Arm.RTI
  {
  }

  /** JSR (a,X) fetches the high byte of its operand from memory as the stores left it. */
  lemma CallIndirectLaw(s: Cpu16, o: Outcome)
    requires Code(s, 0) == 0xfc
    ensures var t := Put2Raw(s, (s.pc + 2) % 0x10000);
            After(Instruction(o), s) == t.(pc := Wide(t.mem, s.pbr, Code(s, 1) + 0x100 * Code(t, 2) as int + s.x))
  {
    hide Switch, After, Put2Raw, Wide, JsrIndXOf, Code;
    SwitchCalls();
    RunsCall(s, o, JSR_IND_X);
    JsrIndirectLaw(s);
  }

  lemma JsrIndirectLaw(s: Cpu16)
    ensures var t := Put2Raw(s, (s.pc + 2) % 0x10000);
            JsrIndXOf(s) == t.(pc := Wide(t.mem, s.pbr, Code(s, 1) + 0x100 * Code(t, 2) as int + s.x))
  {
    hide PushedRaw, WordAt, Wide, Below, Param, Code, Put2Raw, At;
    PutRawLaw(s, Word(s.pc + 2));
    RawKeeps(s, Word(s.pc + 2));
    var t := Put2Raw(s, Word(s.pc + 2));
    CodeLaw(s, 1);
    CodeLaw(t, 2);
    WideLaw(t.mem, s.pbr, Code(s, 1) + 0x100 * Code(t, 2) as int + s.x);
  }

  lemma RawKeeps(s: Cpu16, w: word)
    ensures var t := Put2Raw(s, w);
            t.pbr == s.pbr && t.pc == s.pc && t.x == s.x
  {
  }

  lemma CodeLaw(s: Cpu16, k: nat)
    ensures Param(s, k) == Code(s, k) && s.mem[At(s.pbr, Word(s.pc + k))] == Code(s, k)
  {
  }

  /** JSL: the bank, and then the address of its last byte; the new bank is the last
      byte of the operand as the first store left it. */
  lemma LongCallLaw(s: Cpu16, o: Outcome)
    requires Code(s, 0) == 0x22
    ensures var m := s.mem[s.sp as int := s.pbr];
            var ret := (s.pc + 3) % 0x10000;
            After(Instruction(o), s)
            == s.(mem := m[(s.sp - 1) % 0x10000 := ret / 0x100][(s.sp - 2) % 0x10000 := ret % 0x100], sp := Below(s, 3),
                  pc := Code16(s), pbr := Code(s.(mem := m), 3))
  {
    hide Switch, After, JslOf, Below, Code16;
    hide Code;
    SwitchCalls();
    RunsCall(s, o, JSR_LONG);
    JslLaw(s);
  }

  lemma JslLaw(s: Cpu16)
    ensures var m := s.mem[s.sp as int := s.pbr];
            var ret := (s.pc + 3) % 0x10000;
            JslOf(s)
            == s.(mem := m[(s.sp - 1) % 0x10000 := ret / 0x100][(s.sp - 2) % 0x10000 := ret % 0x100], sp := Below(s, 3),
                  pc := Model65816.Operand(s), pbr := Code(s.(mem := m), 3))
  {
    hide PushedRaw, Model65816.Operand, At, Code, Param;
    BankZero(s.sp);
    PutRawLaw(Dropped(s, s.pbr), Word(s.pc + 3));
    ThreeBelow(s.emul, s.sp);
    CodeLaw(s.(mem := s.mem[s.sp as int := s.pbr]), 3);
  }

  lemma ThreeBelow(emul: bool, sp: word)
    ensures (Word(sp - 1) - 1) % 0x10000 == (sp - 2) % 0x10000
    ensures (Word(sp - 1) - 2) % 0x10000 == (sp - 3) % 0x10000 && (Word(sp - 1) - 2) % 0x100 == (sp - 3) % 0x100
  {
  }

  /** RTS and RTL resume after the address pulled; RTL reads three bytes above the stack
      pointer wherever that leads. */
  lemma ReturnLaw(s: Cpu16, o: Outcome)
    requires Code(s, 0) == 0x60 || Code(s, 0) == 0x6b
    ensures After(Instruction(o), s)
            == if Code(s, 0) == 0x60 then
                 s.(sp := Above(s, 2), pc := (Pulled(s, 1) + 0x100 * Pulled(s, 2) as int + 1) % 0x10000)
               else
                 s.(sp := Above(s, 3), pc := (Wide(s.mem, 0, s.sp + 1) + 1) % 0x10000,
                    pbr := s.mem[(s.sp + 3) % 0x10000])
  {
    hide Switch, After, RtlOf, Code, Wide, Pulled, Above, Head, HeadWide, Up;
    SwitchCalls();
    RunsCall(s, o, Switch(Code(s, 0)));
    HeadLaw(s);
    RtlLaw(s);
  }

  lemma RtlLaw(s: Cpu16)
    ensures RtlOf(s) == s.(sp := Above(s, 3), pc := (Wide(s.mem, 0, s.sp + 1) + 1) % 0x10000,
                           pbr := s.mem[(s.sp + 3) % 0x10000])
  {
    hide Wide, Above, At, Join, Fixed;
    AstrayLaw(s);
    ThirdAstray(s);
  }

  lemma ThirdAstray(s: Cpu16)
    ensures At(0, Word(Word(Word(s.sp + 1) + 1) + 1)) == (s.sp + 3) % 0x10000
    ensures Fixed(s.emul, Word(Word(Word(s.sp + 1) + 1) + 1)) == Above(s, 3)
  {
    hide Word;
    ThreeUp(s.sp);
    LowOfWord(s.sp + 3);
  }

  lemma ThreeUp(sp: word)
    ensures Word(Word(Word(sp + 1) + 1) + 1) == (sp + 3) % 0x10000
  {
  }

  lemma LowOfWord(n: int)
    ensures n % 0x10000 % 0x100 == n % 0x100
  {
  }

  /** RTI pulls the flags as PLP does, PC and in native mode the bank. */
  lemma InterruptReturnLaw(s: Cpu16, o: Outcome)
    requires Code(s, 0) == 0x40
    ensures var t := s.(f := Unpacked(Pulled(s, 1)), pc := Pulled(s, 2) + 0x100 * Pulled(s, 3) as int);
            var u := t.(x := if Span(t) == 0x100 then s.x % 0x100 else s.x,
                        y := if Span(t) == 0x100 then s.y % 0x100 else s.y);
            After(Instruction(o), s)
            == if s.emul then u.(sp := Above(s, 3)) else u.(sp := Above(s, 4), pbr := Pulled(s, 4))
  {
    hide Switch, After, RtiOf, Code, Pulled, Above, Unpacked, Up;
    SwitchCalls();
    RunsCall(s, o, Arm.RTI);
    RtiLaw(s);
  }

  lemma RtiLaw(s: Cpu16)
    ensures var t := s.(f := Unpacked(Pulled(s, 1)), pc := Pulled(s, 2) + 0x100 * Pulled(s, 3) as int);
            var u := t.(x := if Span(t) == 0x100 then s.x % 0x100 else s.x,
                        y := if Span(t) == 0x100 then s.y % 0x100 else s.y);
            RtiOf(s) == if s.emul then u.(sp := Above(s, 3)) else u.(sp := Above(s, 4), pbr := Pulled(s, 4))
  {
    hide At, Up, Above, FlagsOf, Unpacked;
    UnpackedLaw(Pulled(s, 1));
    UpLaw(s);
  }

  lemma UpLaw(s: Cpu16)
    ensures Up(s.emul, s.sp) == Above(s, 1) && Up(s.emul, Above(s, 1)) == Above(s, 2)
    ensures Up(s.emul, Above(s, 2)) == Above(s, 3) && Up(s.emul, Above(s, 3)) == Above(s, 4)
    ensures At(0, Above(s, 1)) == Above(s, 1) && At(0, Above(s, 2)) == Above(s, 2)
    ensures At(0, Above(s, 3)) == Above(s, 3) && At(0, Above(s, 4)) == Above(s, 4)
  {
    hide At, Up, Above;
    UpOnce(s);
    AboveLaw(s, 1);
    AboveLaw(s, 2);
    AboveLaw(s, 3);
    AboveLaw(s, 4);
  }

  lemma UpOnce(s: Cpu16)
    ensures Up(s.emul, s.sp) == Above(s, 1)
  {
  }

  // ----------------------------------------------------------------- interrupts

  /** BRK and COP push the address after their operand, with the bank before it in
      native mode and the status after it, its break bit set in emulation mode. */
  lemma BreakLaw(s: Cpu16, o: Outcome)
    requires Code(s, 0) == 0x00 || Code(s, 0) == 0x02
    ensures var brk, emul := Code(s, 0) == 0x00, s.emul;
            var vector := if brk then (if emul then 0xfffe else 0xffe6) else if emul then 0xfff4 else 0xffe4;
            After(Instruction(o), s) == Handled(Next(s, 2), true, vector)
  {
    hide Switch, After, Code, InterruptOf, Handled;
    SwitchVectors();
    RunsStack(s, o, if Code(s, 0) == 0x00 then Arm.BRK else COP);
    HandledLaw(s, true, 0xfffe, 0xffe6);
    HandledLaw(s, true, 0xfff4, 0xffe4);
  }

  /** The state in which a handler starts. */
  function Handled(s: Cpu16, software: bool, vector: word): Cpu16 {
    var t := if s.emul then s.(f := s.f.(x := software)) else Put1(s, s.pbr);
    var u := Put1(Put2(t, s.pc), Packed(t));
    u.(f := t.f.(i := true, d := false), pbr := 0, pc := Wide(u.mem, 0, vector))
  }

  lemma HandledLaw(s: Cpu16, software: bool, emulVector: word, nativeVector: word)
    ensures InterruptOf(s, software, emulVector, nativeVector)
            == Handled(if software then Next(s, 2) else s, software, if s.emul then emulVector else nativeVector)
  {
    hide Pushed, Went, Word;
    hide WordAt, FramePushed, Wide, Packed, Below;
    WentLaw(s, 2);
    var t := if software then Next(s, 2) else s;
    PutLaw(t, t.pbr);
    var u := if s.emul then t.(f := t.f.(x := software)) else Put1(t, t.pbr);
    FrameLaw(u);
    WideLaw(Put1(Put2(u, u.pc), Packed(u)).mem, 0, if s.emul then emulVector else nativeVector);
  }

  lemma FrameLaw(s: Cpu16)
    ensures FramePushed(s) == Put1(Put2(s, s.pc), Packed(s))
  {
    hide Put1, Put2, PushedWide, Pushed, StatusOf, Packed;
    PutWideLaw(s, s.pc);
    PackedLaw(s);
    PutLaw(Put2(s, s.pc), Packed(s));
  }

  lemma SwitchVectors()
    ensures Switch(0x00) == Arm.BRK && Switch(0x02) == COP
  {
  }

  /** IRQ and NMI, with the break bit clear in emulation mode. */
  lemma InterruptLaw(s: Cpu16, o: Outcome)
    ensures After(Irq(o), s) == Handled(s, false, if s.emul then 0xfffe else 0xffee)
    ensures After(Nmi(o), s) == Handled(s, false, if s.emul then 0xfffa else 0xffea)
  {
    hide Effect, InterruptOf, Handled, MoveOf, ComputeOf, FlagEffect, TransferEffect, IndexEffect, GoEffect, Switch;
    VectorKind(Arm.IRQ, s, o);
    VectorKind(Arm.NMI, s, o);
    HandledLaw(s, false, 0xfffe, 0xffee);
    HandledLaw(s, false, 0xfffa, 0xffea);
  }

  lemma VectorKind(arm: Arm, s: Cpu16, o: Outcome)
    requires arm.IRQ? || arm.NMI?
    ensures Effect(arm, s, o) == VectorEffect(arm, s)
  {
    hide MoveOf, ComputeOf, VectorEffect, CallEffect, PushEffect, PullEffect, FlagEffect, TransferEffect, IndexEffect;
    hide GoEffect;
  }

  /** A reset enters emulation mode with all banks and the direct page zero; the stack
      pointer moves down as if three bytes had been pushed. */
  lemma ResetLaw(s: Cpu16, o: Outcome)
    ensures After(Reset(o), s)
            == s.(emul := true, f := s.f.(x := false, i := true, d := false), x := s.x % 0x100, y := s.y % 0x100,
                  sp := 0x100 + (s.sp - 3) % 0x100, dpr := 0, dbr := 0, pbr := 0, pc := Wide(s.mem, 0, 0xfffc))
  {
    hide Wide, WordAt, Down;
    ThreeDown(s.sp);
    WideLaw(s.mem, 0, 0xfffc);
  }

  lemma ThreeDown(sp: word)
    ensures Down(true, Down(true, Down(true, 0x100 + Low(sp)))) == 0x100 + (sp - 3) % 0x100
  {
  }

  // ------------------------------------------------------------------ block moves

  /** One round of MVN (0x54) and MVP (0x44): one byte from the second bank named to
      the first, the indices one up or down, wrapping at their width, and the count one
      down.  The instruction repeats until the count wraps. */
  lemma MoveLaw(s: Cpu16, o: Outcome)
    requires Code(s, 0) == 0x54 || Code(s, 0) == 0x44
    ensures var at := 0x10000 * s.pbr as int + s.pc;
            var dst := if s.c == 0 then Code(s, 1) else s.mem[(at + 1) % 0x1000000];
            var src := if s.c == 0 then Code(s, 2) else s.mem[(at + 2) % 0x1000000];
            var d := if Code(s, 0) == 0x54 then 1 else -1;
            After(Instruction(o), s)
            == s.(mem := s.mem[0x10000 * dst as int + s.y := s.mem[0x10000 * src as int + s.x]], dbr := dst,
                  c := (s.c - 1) % 0x10000, x := (s.x + d) % Span(s), y := (s.y + d) % Span(s),
                  pc := if s.c == 0 then (s.pc + 3) % 0x10000 else s.pc)
  {
    hide Switch, After, Code, MoveOf;
    hide Effect;
    SwitchMoves();
    FetchLaw(s, o);
    MoveOfLaw(s, Code(s, 0) == 0x54);
    MoveKind(if Code(s, 0) == 0x54 then MVN else MVP, s, o);
  }

  lemma MoveOfLaw(s: Cpu16, up: bool)
    ensures var at := 0x10000 * s.pbr as int + s.pc;
            var dst := if s.c == 0 then Code(s, 1) else s.mem[(at + 1) % 0x1000000];
            var src := if s.c == 0 then Code(s, 2) else s.mem[(at + 2) % 0x1000000];
            var d := if up then 1 else -1;
            MoveOf(s, up)
            == s.(mem := s.mem[0x10000 * dst as int + s.y := s.mem[0x10000 * src as int + s.x]], dbr := dst,
                  c := (s.c - 1) % 0x10000, x := (s.x + d) % Span(s), y := (s.y + d) % Span(s),
                  pc := if s.c == 0 then (s.pc + 3) % 0x10000 else s.pc)
  {
    hide Code, Param, At;
    CodeLaw(s, 1);
    CodeLaw(s, 2);
    InBank(s.pbr, s.pc);
    InBank(Ahead(s, 1), s.y);
    InBank(Ahead(s, 2), s.x);
    InBank(Param(s, 1), s.y);
    InBank(Param(s, 2), s.x);
  }

  lemma MoveKind(arm: Arm, s: Cpu16, o: Outcome)
    requires arm.MVN? || arm.MVP?
    ensures Effect(arm, s, o) == MoveOf(s, arm.MVN?)
  {
    hide MoveOf, ComputeOf, StackEffect, FlagEffect, TransferEffect, IndexEffect, GoEffect;
  }

  lemma SwitchMoves()
    ensures Switch(0x54) == MVN && Switch(0x44) == MVP
  {
  }

  // -------------------------------------------------------- computing and storing

  /** ORA, AND, EOR, ADC, STA, LDA, CMP and SBC, by their highest three bits. */
  predicate GroupOne(p0: int) {
    p0 != 0x89 && (p0 % 4 == 1 || p0 % 0x10 == 3 || p0 % 0x10 == 7 || p0 % 0x10 == 0xf || p0 % 0x20 == 0x12)
  }

  /** ASL, ROL, LSR, ROR, DEC and INC of memory. */
  predicate GroupTwo(p0: int) { p0 % 8 == 6 && p0 / 0x20 != 4 && p0 / 0x20 != 5 }

  predicate ShiftsA(p0: int) { p0 in {0x0a, 0x2a, 0x4a, 0x6a} }

  predicate CountsA(p0: int) { p0 in {0x1a, 0x3a} }

  predicate ComparesIndex(p0: int) { p0 in {0xc0, 0xc4, 0xcc, 0xe0, 0xe4, 0xec} }

  predicate TestsBits(p0: int) { p0 in {0x24, 0x2c, 0x34, 0x3c} }

  /** TSB and TRB. */
  predicate ChangesBits(p0: int) { p0 in {0x04, 0x0c, 0x14, 0x1c} }

  /** STX, STY and STZ. */
  predicate StoresIndex(p0: int) { p0 in {0x84, 0x8c, 0x94, 0x86, 0x8e, 0x96, 0x64, 0x74, 0x9c, 0x9e} }

  /** TXA, TYA, TSC and TDC. */
  predicate ToAccumulator(p0: int) { p0 in {0x8a, 0x98, 0x3b, 0x7b} }

  predicate LeavesC(p0: int) {
    (GroupOne(p0) && p0 / 0x20 != 4 && p0 / 0x20 != 6) || ShiftsA(p0) || CountsA(p0) || ToAccumulator(p0) || p0 == 0xeb
  }

  predicate LeavesMemory(p0: int) {
    (GroupOne(p0) && p0 / 0x20 == 4) || GroupTwo(p0) || ChangesBits(p0) || StoresIndex(p0)
  }

  predicate LeavesCarry(p0: int) {
    (GroupOne(p0) && p0 / 0x20 in {3, 6, 7}) || (GroupTwo(p0) && p0 < 0x80) || ShiftsA(p0) || ComparesIndex(p0)
  }

  predicate LeavesOverflow(p0: int) { (GroupOne(p0) && p0 / 0x20 in {3, 7}) || TestsBits(p0) }

  predicate LeavesSign(p0: int) {
    (GroupOne(p0) && p0 / 0x20 != 4) || GroupTwo(p0) || ShiftsA(p0) || CountsA(p0) || ComparesIndex(p0) || TestsBits(p0)
    || ToAccumulator(p0) || p0 == 0x5b
  }

  predicate LeavesZero(p0: int) { LeavesSign(p0) || ChangesBits(p0) || p0 == 0x89 }

  predicate Computes(p0: int) { LeavesC(p0) || LeavesMemory(p0) || LeavesZero(p0) }

  /** By the column; immediate operands are as wide as their register. */
  function BytesOf(p0: int, wide: bool, wideIndex: bool): nat {
    var column := p0 % 0x10;
    if column == 0 then (if wideIndex then 3 else 2)
    else if column == 9 && p0 / 0x10 % 2 == 0 then (if wide then 3 else 2)
    else if column < 8 then 2 else if column == 8 || column == 0xa || column == 0xb then 1
    else if column == 0xf then 4 else 3
  }

  /** Whatever an instruction that computes or stores comes to, it leaves it only where
      its opcode says, and moves on by its length: two bytes or three for an immediate
      operand, by the width of the accumulator or, for CPX and CPY, the indices. */
  lemma ComputeLaw(s: Cpu16, o: Outcome)
    requires Computes(Code(s, 0))
    ensures var p0 := Code(s, 0);
            var f := s.f.(n := if LeavesSign(p0) then o.n >= 0x80 else s.f.n,
                          v := if LeavesOverflow(p0) then o.overflow else s.f.v,
                          z := if LeavesZero(p0) then o.z == 0 else s.f.z,
                          c := if LeavesCarry(p0) then o.carry else s.f.c);
            After(Instruction(o), s)
            == Next(s, BytesOf(p0, Wide16(s), Span(s) == 0x10000))
               .(f := f, c := if LeavesC(p0) then o.c else s.c, mem := if LeavesMemory(p0) then o.mem else s.mem,
                 dpr := if p0 == 0x5b then s.c else s.dpr)
  {
    hide Switch, After, Effect, Code, LeavesC, LeavesMemory, LeavesSign, LeavesZero, LeavesCarry, LeavesOverflow,
         BytesOf;
    hide TouchesC, TouchesMemory, TouchesSign, TouchesZero, TouchesCarry, TouchesOverflow, Computes;
    Columns(Code(s, 0));
    FetchLaw(s, o);
    ComputeKind(Switch(Code(s, 0)), s, o);
    SizeLaw(Code(s, 0), s, Switch(Code(s, 0)).size);
  }

  lemma ComputeKind(arm: Arm, s: Cpu16, o: Outcome)
    requires arm.Compute?
    ensures Effect(arm, s, o) == ComputeOf(arm.op, arm.size, s, o)
  {
    hide MoveOf, ComputeOf, StackEffect, FlagEffect, TransferEffect, IndexEffect, GoEffect;
  }

  function SizeOf(p0: int): Size {
    var column := p0 % 0x10;
    if column == 0 then ByIndex
    else if column == 9 && p0 / 0x10 % 2 == 0 then ByAccumulator
    else if column < 8 then Bytes(2) else if column == 8 || column == 0xa || column == 0xb then Bytes(1)
    else if column == 0xf then Bytes(4) else Bytes(3)
  }

  lemma SizeLaw(p0: byte, s: Cpu16, size: Size)
    requires size == SizeOf(p0)
    ensures Length(size, s) == BytesOf(p0, Wide16(s), Span(s) == 0x10000)
  {
  }

  /** REP, SEP, PLP, RTI and XCE */
  predicate ChangesWidths(p0: int) { p0 in {0xc2, 0xe2, 0x28, 0x40, 0xfb} }

  predicate SetsWidths(arm: Arm) { arm.REP? || arm.SEP? || arm.PLP? || arm.RTI? || arm.XCE? }

  predicate Agrees(p0: int, arm: Arm) {
    && (arm.Compute? <==> Computes(p0))
    && (arm.Compute? ==>
          && arm.size == SizeOf(p0)
          && TouchesC(arm.op, arm.size) == LeavesC(p0) && TouchesMemory(arm.op, arm.size) == LeavesMemory(p0)
          && TouchesCarry(arm.op) == LeavesCarry(p0) && TouchesOverflow(arm.op) == LeavesOverflow(p0)
          && TouchesSign(arm.op) == LeavesSign(p0) && TouchesZero(arm.op) == LeavesZero(p0)
          && (arm.op.TCD? <==> p0 == 0x5b))
    && (SetsWidths(arm) <==> ChangesWidths(p0)) && (Interrupts(arm) <==> p0 == 0x00 || p0 == 0x02) && !arm.RES?
  }

  lemma Columns(p0: byte)
    ensures Agrees(p0, Switch(p0))
  {
    hide Agrees, Row0, Row1, Row2, Row3, Row4, Row5, Row6, Row7, Row8, Row9, RowA, RowB, RowC, RowD, RowE, RowF;
    var c := p0 % 0x10;
    match p0 / 0x10
    case 0x0 => Columns0(c);
    case 0x1 => Columns1(c);
    case 0x2 => Columns2(c);
    case 0x3 => Columns3(c);
    case 0x4 => Columns4(c);
    case 0x5 => Columns5(c);
    case 0x6 => Columns6(c);
    case 0x7 => Columns7(c);
    case 0x8 => Columns8(c);
    case 0x9 => Columns9(c);
    case 0xa => ColumnsA(c);
    case 0xb => ColumnsB(c);
    case 0xc => ColumnsC(c);
    case 0xd => ColumnsD(c);
    case 0xe => ColumnsE(c);
    case _ => ColumnsF(c);
  }

  lemma Columns0(c: int)
    requires 0 <= c < 0x10
    ensures Agrees(0x00 + c, Row0(c))
  {
    hide Agrees, Row0;
    if c < 8 { Low0(c); } else { High0(c); }
  }

  lemma Low0(c: int)
    requires 0 <= c < 8
    ensures Agrees(0x00 + c, Row0(c))
  {
  }

  lemma High0(c: int)
    requires 8 <= c < 0x10
    ensures Agrees(0x00 + c, Row0(c))
  {
  }

  lemma Columns1(c: int)
    requires 0 <= c < 0x10
    ensures Agrees(0x10 + c, Row1(c))
  {
  }

  lemma Columns2(c: int)
    requires 0 <= c < 0x10
    ensures Agrees(0x20 + c, Row2(c))
  {
  }

  lemma Columns3(c: int)
    requires 0 <= c < 0x10
    ensures Agrees(0x30 + c, Row3(c))
  {
  }

  lemma Columns4(c: int)
    requires 0 <= c < 0x10
    ensures Agrees(0x40 + c, Row4(c))
  {
  }

  lemma Columns5(c: int)
    requires 0 <= c < 0x10
    ensures Agrees(0x50 + c, Row5(c))
  {
  }

  lemma Columns6(c: int)
    requires 0 <= c < 0x10
    ensures Agrees(0x60 + c, Row6(c))
  {
  }

  lemma Columns7(c: int)
    requires 0 <= c < 0x10
    ensures Agrees(0x70 + c, Row7(c))
  {
  }

  lemma Columns8(c: int)
    requires 0 <= c < 0x10
    ensures Agrees(0x80 + c, Row8(c))
  {
  }

  lemma Columns9(c: int)
    requires 0 <= c < 0x10
    ensures Agrees(0x90 + c, Row9(c))
  {
  }

  lemma ColumnsA(c: int)
    requires 0 <= c < 0x10
    ensures Agrees(0xa0 + c, RowA(c))
  {
  }

  lemma ColumnsB(c: int)
    requires 0 <= c < 0x10
    ensures Agrees(0xb0 + c, RowB(c))
  {
  }

  lemma ColumnsC(c: int)
    requires 0 <= c < 0x10
    ensures Agrees(0xc0 + c, RowC(c))
  {
  }

  lemma ColumnsD(c: int)
    requires 0 <= c < 0x10
    ensures Agrees(0xd0 + c, RowD(c))
  {
  }

  lemma ColumnsE(c: int)
    requires 0 <= c < 0x10
    ensures Agrees(0xe0 + c, RowE(c))
  {
  }

  lemma ColumnsF(c: int)
    requires 0 <= c < 0x10
    ensures Agrees(0xf0 + c, RowF(c))
  {
  }

  // ------------------------------------------------------------------- whole runs

  lemma WidthsKept(arm: Arm, s: Cpu16, o: Outcome)
    requires !SetsWidths(arm)
    ensures Effect(arm, s, o).f.m == s.f.m
    ensures !Interrupts(arm) || (!arm.RES? && !s.emul) ==> Effect(arm, s, o).f.x == s.f.x
  {
    hide StackEffect, ComputeOf, IndexEffect, TransferEffect, FlagEffect, GoEffect, MoveOf, Calls, Pushes, Pulls;
    hide WorksOnIndex, Transfers, SetsFlags;
    if arm.Compute? {
      ComputeKeepsWidths(arm.op, arm.size, s, o);
    } else if arm.MVN? || arm.MVP? {
      MoveKeepsFlags(s, arm.MVN?);
    } else if UsesStack(arm) {
      StackKeepsWidths(arm, s);
    } else {
      OthersKeepWidths(arm, s, o);
    }
  }

  lemma MoveKeepsFlags(s: Cpu16, up: bool)
    ensures MoveOf(s, up).f == s.f
  {
    hide Word, At, Param, Ahead, Stepped, IndexWidth;
  }

  lemma ComputeKeepsWidths(op: ComputeOp, size: Size, s: Cpu16, o: Outcome)
    ensures ComputeOf(op, size, s, o).f.m == s.f.m && ComputeOf(op, size, s, o).f.x == s.f.x
  {
    hide Word, TouchesC, TouchesMemory, TouchesSign, TouchesZero, TouchesCarry, TouchesOverflow, Length;
  }

  lemma OthersKeepWidths(arm: Arm, s: Cpu16, o: Outcome)
    requires !SetsWidths(arm)
    ensures var f := TransferEffect(arm, s).f; f.m == s.f.m && f.x == s.f.x
    ensures var f := IndexEffect(arm, s, o).f; f.m == s.f.m && f.x == s.f.x
    ensures var f := FlagEffect(arm, s).f; f.m == s.f.m && f.x == s.f.x
    ensures GoEffect(arm, s).f == s.f
  {
    hide TransferEffect, IndexEffect, FlagEffect, GoEffect;
    TransfersKeepWidths(arm, s);
    IndicesKeepWidths(arm, s, o);
    FlagsKeepWidths(arm, s);
  }

  lemma TransfersKeepWidths(arm: Arm, s: Cpu16)
    ensures var f := TransferEffect(arm, s).f; f.m == s.f.m && f.x == s.f.x
    ensures GoEffect(arm, s).f == s.f
  {
    hide TransferEffect, GoEffect;
    TransferKeepsWidths(arm, s);
    GoKeepsFlags(arm, s);
  }

  lemma TransferKeepsWidths(arm: Arm, s: Cpu16)
    ensures var f := TransferEffect(arm, s).f; f.m == s.f.m && f.x == s.f.x
  {
    hide TransferOf, ToStack, Fit;
    LoadKeepsWidths();
  }

  lemma LoadKeepsWidths()
    ensures forall s, r, v :: TransferOf(s, r, v).f.m == s.f.m && TransferOf(s, r, v).f.x == s.f.x
    ensures forall s, v :: ToStack(s, v).f == s.f
  {
    hide Word, Low, High, Fixed, NarrowX;
  }

  lemma GoKeepsFlags(arm: Arm, s: Cpu16)
    ensures GoEffect(arm, s).f == s.f
  {
    hide Word, At, WordAt, Param, Model65816.Operand, Model65816.Passes, SignedByte;
  }

  lemma IndicesKeepWidths(arm: Arm, s: Cpu16, o: Outcome)
    ensures var f := IndexEffect(arm, s, o).f; f.m == s.f.m && f.x == s.f.x
  {
    hide Word, At, Low, High, Join, Up, Fixed, Fit, Length, WordAt, Param, Model65816.Operand, Head, HeadWide,
         NarrowX;
  }

  lemma FlagsKeepWidths(arm: Arm, s: Cpu16)
    requires !SetsWidths(arm)
    ensures var f := FlagEffect(arm, s).f; f.m == s.f.m && f.x == s.f.x
  {
    hide ChangedOf, RepSepOf, XceOf;
    if arm.CLEAR? {
      ChangedKeepsWidths(s, arm.f, false);
    } else if arm.SET? {
      ChangedKeepsWidths(s, arm.f, true);
    }
  }

  lemma ChangedKeepsWidths(s: Cpu16, f: PFlag, on: bool)
    ensures ChangedOf(s, f, on).f.m == s.f.m && ChangedOf(s, f, on).f.x == s.f.x
  {
    hide Word, Flagged;
    FlaggedKeepsWidths(s.f, f, on);
  }

  lemma FlaggedKeepsWidths(g: Flags16, f: PFlag, on: bool)
    ensures !f.X? && !f.M? ==> Flagged(g, f, on).m == g.m && Flagged(g, f, on).x == g.x
  {
  }

  lemma StackKeepsWidths(arm: Arm, s: Cpu16)
    requires UsesStack(arm) && !SetsWidths(arm)
    ensures StackEffect(arm, s).f.m == s.f.m
    ensures !Interrupts(arm) || (!arm.RES? && !s.emul) ==> StackEffect(arm, s).f.x == s.f.x
  {
    hide CallEffect, VectorEffect, PushEffect, PullEffect, RtiOf, PlpOf;
    if Calls(arm) {
      CallsKeepWidths(arm, s);
    } else if Interrupts(arm) {
      VectorsKeepWidths(arm, s);
    } else {
      PushesKeepWidths(arm, s);
    }
  }

  lemma CallsKeepWidths(arm: Arm, s: Cpu16)
    requires Calls(arm) && !SetsWidths(arm)
    ensures CallEffect(arm, s).f == s.f
  {
    hide Word, At, Low, High, Join, Down, Up, RtiOf, WordAt, Param, Model65816.Operand, Fixed;
  }

  lemma VectorsKeepWidths(arm: Arm, s: Cpu16)
    ensures VectorEffect(arm, s).f.m == s.f.m
    ensures !arm.RES? && !s.emul ==> VectorEffect(arm, s).f.x == s.f.x
  {
    hide InterruptOf, Word, At, Low, Join, Down, WordAt;
    InterruptKeepsWidths(s, true, 0xfffe, 0xffe6);
    InterruptKeepsWidths(s, true, 0xfff4, 0xffe4);
    InterruptKeepsWidths(s, false, 0xfffe, 0xffee);
    InterruptKeepsWidths(s, false, 0xfffa, 0xffea);
  }

  lemma InterruptKeepsWidths(s: Cpu16, software: bool, emulVector: word, nativeVector: word)
    ensures var f := InterruptOf(s, software, emulVector, nativeVector).f; f.m == s.f.m && (!s.emul ==> f.x == s.f.x)
  {
    hide Word, At, Low, High, Join, Down, WordAt, StatusOf;
  }

  lemma PushesKeepWidths(arm: Arm, s: Cpu16)
    requires !SetsWidths(arm)
    ensures PushEffect(arm, s).f == s.f
    ensures Pulls(arm) ==> var f := PullEffect(arm, s).f; f.m == s.f.m && f.x == s.f.x
  {
    hide PushEffect, PullEffect;
    PushKeepsMode(arm, s);
    if Pulls(arm) {
      PullKeepsWidths(arm, s);
    }
  }

  lemma PullKeepsWidths(arm: Arm, s: Cpu16)
    requires Pulls(arm) && !arm.PLP?
    ensures var f := PullEffect(arm, s).f; f.m == s.f.m && f.x == s.f.x
  {
    hide Word, At, Low, High, Join, Up, PlpOf, NarrowM, NarrowX, Fixed, Head, HeadWide;
  }

  lemma WidthOpcodes(p0: byte)
    ensures SetsWidths(Switch(p0)) <==> ChangesWidths(p0)
    ensures Interrupts(Switch(p0)) <==> p0 == 0x00 || p0 == 0x02
    ensures !Switch(p0).RES?
  {
    hide Switch, Computes, SetsWidths, Interrupts, ChangesWidths;
    Columns(p0);
  }

  /** None of the opcodes that a run meets is among them, and nothing resets. */
  predicate KeepsWidths(es: seq<Event>, s: Cpu16) {
    es == [] || (&& KeepsWidths(es[1..], After(es[0], s))
                 && !es[0].Reset? && (es[0].Instruction? ==> !ChangesWidths(Code(s, 0))))
  }

  /** The mode and the widths of all registers outlast any run without REP, SEP, PLP,
      RTI and XCE, however it is interrupted; in emulation mode interrupts use X as the
      break bit, but there all registers are narrow. */
  lemma {:induction false} WidthsOutlastRuns(es: seq<Event>, s: Cpu16)
    requires KeepsWidths(es, s)
    ensures var t := RunOf(es, s);
            && t.emul == s.emul && t.f.m == s.f.m && (!s.emul ==> t.f.x == s.f.x)
            && Span(t) == Span(s) && Wide16(t) == Wide16(s)
  {
    hide After, ChangesWidths;
    if es != [] {
      StepKeepsWidths(es[0], s);
      WidthsOutlastRuns(es[1..], After(es[0], s));
    }
  }

  lemma StepKeepsWidths(e: Event, s: Cpu16)
    requires !e.Reset? && (e.Instruction? ==> !ChangesWidths(Code(s, 0)))
    ensures var t := After(e, s);
            t.emul == s.emul && t.f.m == s.f.m && (!s.emul ==> t.f.x == s.f.x)
  {
    hide Switch, Effect, Code, ChangesWidths;
    var arm := match e case Instruction(_) => Switch(Code(s, 0)) case Irq(_) => Arm.IRQ case _ => Arm.NMI;
    WidthOpcodes(Code(s, 0));
    FetchLaw(s, e.o);
    ModeChanges(arm, s, e.o);
    WidthsKept(arm, s, e.o);
  }

  /** A run is its first part and then the rest. */
  lemma {:induction false} RunLaw(es: seq<Event>, fs: seq<Event>, s: Cpu16)
    ensures RunOf(es + fs, s) == RunOf(fs, RunOf(es, s))
    ensures |es| == 1 ==> RunOf(es, s) == After(es[0], s)
  {
    hide After;
    if es == [] {
      assert es + fs == fs;
    } else {
      assert (es + fs)[1..] == es[1..] + fs;
      RunLaw(es[1..], fs, After(es[0], s));
    }
  }
}
