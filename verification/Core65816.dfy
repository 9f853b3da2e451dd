/**
 65816core.c in place: the registers of both modes and memory.  What every opcode
 does to the stack, the index registers, the modes and the flow of control; block
 moves repeated to their end; and the invariant of the modes over any program.
 */
module Core65816s {
  import opened CpuModel
  import opened BlockMoves
  import opened Model65816
  import opened Switch65816

  function Mask(f: PFlag): bv8 {
    match f case C => 0x01 case I => 0x04 case D => 0x08 case X => 0x10 case M => 0x20 case V => 0x40
  }

  predicate Has(p: bv8, f: PFlag) { p & Mask(f) != 0 }

  function With(p: bv8, f: PFlag, on: bool): bv8 { if on then p | Mask(f) else p & !Mask(f) }

  /** Neither the Z nor the N bit is set. */
  predicate NoNZ(p: bv8) { p & 0x82 == 0 }

  /** LOCAL_SET_STATUS keeps all but those two. */
  function Kept(status: byte): bv8 { (status as bv8) & 0x7d }

  lemma WithOne(p: bv8, f: PFlag, on: bool, g: PFlag)
    ensures NoNZ(With(p, f, on)) == NoNZ(p)
    ensures Has(With(p, f, on), g) == if g == f then on else Has(p, g)
  {
    hide *;
    WithKeepsNZ(p, f, on);
    WithSame(p, f, on);
    if g != f { WithOther(p, f, on, g); }
  }

  lemma WithKeepsNZ(p: bv8, f: PFlag, on: bool)
    ensures NoNZ(With(p, f, on)) == NoNZ(p)
  {
  }

  lemma WithSame(p: bv8, f: PFlag, on: bool)
    ensures Has(With(p, f, on), f) == on
  {
  }

  lemma WithOther(p: bv8, f: PFlag, on: bool, g: PFlag)
    requires g != f
    ensures Has(With(p, f, on), g) == Has(p, g)
  {
  }

  lemma KeptHasNoNZ(status: byte)
    ensures NoNZ(Kept(status))
  {
  }

  /** The flags that `reg_p`, `flag_n` and `flag_z` stand for. */
  function FlagsIn(p: bv8, flagN: byte, flagZ: byte): Flags16 {
    Flags16(flagN >= 0x80, Has(p, V), Has(p, M), Has(p, X), Has(p, D), Has(p, I), flagZ == 0, Has(p, C))
  }

  lemma FlagBits(p: bv8, flagN: byte, flagZ: byte)
    ensures var f := FlagsIn(p, flagN, flagZ);
            && f.x == Has(p, X) && f.m == Has(p, M) && f.c == Has(p, C) && f.v == Has(p, V)
            && f.n == (flagN >= 0x80) && f.z == (flagZ == 0)
    ensures forall n, z: byte :: FlagsIn(p, n, z) == FlagsIn(p, flagN, flagZ).(n := n >= 0x80, z := z == 0)
  {
    hide Has;
  }

  lemma FlaggedBits(p: bv8, f: PFlag, on: bool, n: byte, z: byte)
    ensures FlagsIn(With(p, f, on), n, z) == Flagged(FlagsIn(p, n, z), f, on)
  {
    hide Has, With, Mask, NoNZ;
    WithOne(p, f, on, V);
    WithOne(p, f, on, M);
    WithOne(p, f, on, X);
    WithOne(p, f, on, D);
    WithOne(p, f, on, I);
    WithOne(p, f, on, C);
  }

  lemma KeptBits(v: byte)
    ensures FlagsIn(Kept(v), v, if Bit(v, 0x02) then 0 else 1) == FlagsOf(v)
  {
    KeptFlag(v);
    hide Kept, Has;
  }

  lemma KeptFlag(v: byte)
    ensures Has(Kept(v), V) == Bit(v, 0x40) && Has(Kept(v), M) == Bit(v, 0x20) && Has(Kept(v), X) == Bit(v, 0x10)
    ensures Has(Kept(v), D) == Bit(v, 0x08) && Has(Kept(v), I) == Bit(v, 0x04) && Has(Kept(v), C) == Bit(v, 0x01)
    ensures Bit(v, 0x80) == (v >= 0x80)
  {
  }

  function StatusVector(p: bv8, flagN: byte, flagZ: byte, emul: bool): bv8 {
    p | (if flagN >= 0x80 then 0x80 else 0) | (if flagZ == 0 then 0x02 else 0) | if emul then 0x20 else 0
  }

  /** LOCAL_STATUS in emulation mode, LOCAL_65816_STATUS in native mode */
  function StatusBits(p: bv8, flagN: byte, flagZ: byte, emul: bool): byte {
    StatusVector(p, flagN, flagZ, emul) as byte
  }

  lemma StatusValue(p: bv8, flagN: byte, flagZ: byte, emul: bool)
    requires NoNZ(p)
    ensures var f := FlagsIn(p, flagN, flagZ);
            StatusBits(p, flagN, flagZ, emul)
            == 0x80 * One(f.n) + 0x40 * One(f.v) + 0x20 * One(emul || f.m) + 0x10 * One(f.x)
               + 0x08 * One(f.d) + 0x04 * One(f.i) + 0x02 * One(f.z) + One(f.c)
  {
  }

  lemma BreakInPlace(p: bv8, flagN: byte, flagZ: byte)
    ensures StatusVector(p, flagN, flagZ, true) | 0x10 == StatusVector(With(p, X, true), flagN, flagZ, true)
  {
  }

  lemma BrokenValue(p: bv8, flagN: byte, flagZ: byte)
    requires NoNZ(p)
    ensures var f := FlagsIn(p, flagN, flagZ);
            (StatusVector(p, flagN, flagZ, true) | 0x10) as byte
            == 0x80 * One(f.n) + 0x40 * One(f.v) + 0x20 + 0x10
               + 0x08 * One(f.d) + 0x04 * One(f.i) + 0x02 * One(f.z) + One(f.c)
  {
    hide StatusVector, With, NoNZ, FlagsIn;
    BreakInPlace(p, flagN, flagZ);
    WithKeepsNZ(p, X, true);
    FlaggedBits(p, X, true, flagN, flagZ);
    StatusValue(With(p, X, true), flagN, flagZ, true);
  }

  lemma NamedInTurn(f: Flags16, v: byte, on: bool, emul: bool)
    ensures var f1 := FlaggedIf(FlaggedIf(f, Bit(v, 0x40), V, on), Bit(v, 0x20) && !emul, M, on);
            var f2 := FlaggedIf(FlaggedIf(f1, Bit(v, 0x10) && !emul, X, on), Bit(v, 0x08), D, on);
            FlaggedIf(FlaggedIf(f2, Bit(v, 0x04), I, on), Bit(v, 0x01), C, on)
            == Named(f, v, on, emul).(n := f.n, z := f.z)
  {
    hide Bit;
  }

  lemma TouchedInTurn(f: Flags16, op: ComputeOp, o: Outcome)
    ensures var g := f.(n := if TouchesSign(op) then o.n >= 0x80 else f.n);
            var h := g.(z := if TouchesZero(op) then o.z == 0 else f.z);
            FlaggedIf(FlaggedIf(h, TouchesCarry(op), C, o.carry), TouchesOverflow(op), V, o.overflow)
            == Touched(f, op, o)
  {
    hide TouchesSign, TouchesZero, TouchesCarry, TouchesOverflow, FlaggedIf;
    var g := f.(n := if TouchesSign(op) then o.n >= 0x80 else f.n);
    var h := g.(z := if TouchesZero(op) then o.z == 0 else f.z);
    CarryIf(h, TouchesCarry(op), o.carry);
    OverflowIf(FlaggedIf(h, TouchesCarry(op), C, o.carry), TouchesOverflow(op), o.overflow);
  }

  lemma CarryIf(f: Flags16, selected: bool, on: bool)
    ensures FlaggedIf(f, selected, C, on) == f.(c := if selected then on else f.c)
  {
  }

  lemma OverflowIf(f: Flags16, selected: bool, on: bool)
    ensures FlaggedIf(f, selected, V, on) == f.(v := if selected then on else f.v)
  {
  }

  lemma InterruptFlags(f: Flags16)
    ensures Flagged(Flagged(f, I, true), D, false) == f.(i := true, d := false)
    ensures Flagged(f, X, false) == f.(x := false)
  {
  }

  lemma SwitchInterrupts()
    ensures Switch(0x100) == Arm.IRQ && Switch(0x101) == Arm.NMI && Switch(0x102) == Arm.RES
  {
  }

  class Core65816 {
    var c: word
    var x: word
    var y: word
    var sp: word
    var dpr: word
    var pbr: byte
    var dbr: byte
    var pc: word
    var emul: bool
    var p: bv8
    var flagN: byte
    var flagZ: byte
    var mem: Memory

    ghost function View(): Cpu16
      reads this
    {
      Cpu16(c, x, y, sp, dpr, pbr, dbr, pc, emul, FlagsIn(p, flagN, flagZ), mem)
    }

    /** LOCAL_65816_X */
    predicate NarrowIndex()
      reads this`emul, this`p
    {
      emul || Has(p, X)
    }

    /** LOCAL_65816_M */
    predicate NarrowAccumulator()
      reads this`emul, this`p
    {
      emul || Has(p, M)
    }

    /** What holds between any two instructions. */
    predicate Boundary()
      reads this`emul, this`p, this`sp, this`x, this`y
    {
      && (emul ==> 0x100 <= sp <= 0x1ff)
      && (NarrowIndex() ==> x < 0x100 && y < 0x100)
      && NoNZ(p)
    }

    function Width(): int
      reads this`emul, this`p
    {
      if NarrowIndex() then 0x100 else 0x10000
    }

    function FetchAt(offset: nat): byte
      reads this`pc, this`pbr, this`mem
    {
      mem[(At(pbr, pc) + offset) % 0x1000000]
    }

    lemma Fields()
      ensures var s := View();
              && s.c == c && s.x == x && s.y == y && s.sp == sp && s.dpr == dpr && s.pbr == pbr && s.dbr == dbr
              && s.pc == pc && s.emul == emul && s.mem == mem
      ensures NarrowM(View()) == NarrowAccumulator() && NarrowX(View()) == NarrowIndex()
    {
      hide Has;
    }

    lemma Operands()
      ensures forall size :: Model65816.Length(size, View()) == Length(size)
      ensures forall k: nat :: Model65816.Param(View(), k) == Param(k)
      ensures Model65816.Operand(View()) == Operand()
    {
      hide Has, Word, At, Join;
    }

    lemma Status16()
      requires NoNZ(p)
      ensures StatusByte() == StatusOf(View())
    {
      hide Has, StatusVector, NoNZ, FlagsIn;
      FlagBits(p, flagN, flagZ);
      StatusValue(p, flagN, flagZ, emul);
    }

    lemma BrokenStatus16()
      requires NoNZ(p) && emul
      ensures BrokenStatus() == StatusOf(Broken(View()))
    {
      hide Has, StatusVector, NoNZ, FlagsIn;
      BrokenValue(p, flagN, flagZ);
    }

    /** INC_PC */
    method IncPc(n: nat)
      modifies this`pc
      ensures pc == Word(old(pc) + n)
      ensures View() == Went(old(View()), n)
    {
      hide Has, Word;
      pc := Word(pc + n);
    }

    /** The two bank operands; PC moves past the instruction only in the last round. */
    method MoveOperands() returns (p1: byte)
      modifies this`pc, this`dbr
      ensures old(pc) <= 0xfffd ==> p1 == old(FetchAt(1)) && dbr == old(FetchAt(2))
      ensures p1 == old(if c == 0 then Param(1) else FetchAt(1)) && dbr == old(if c == 0 then Param(2) else FetchAt(2))
      ensures pc == if c == 0 then Word(old(pc) + 3) else old(pc)
    {
      hide Word, At;
      NextBytes(pbr, pc);
      NextSteps(pc);
      if c == 0 {
        IncPc(1);
        p1 := Param(0);
        IncPc(1);
        dbr := Param(0);
        IncPc(1);
      } else {
        p1 := FetchAt(1);
        dbr := FetchAt(2);
      }
    }

    method StepIndices(up: bool)
      requires x < Width() && y < Width()
      modifies this`x, this`y
      ensures x == Stepped(old(x), up, 1, Width()) && y == Stepped(old(y), up, 1, Width())
    {
      hide Stepped;
      NarrowStep(x, up);
      NarrowStep(y, up);
      x := Stepped(x, up, 1, 0x10000);
      y := Stepped(y, up, 1, 0x10000);
      if NarrowIndex() {
        x := Low(x);
        y := Low(y);
      }
    }

    /** MOVE: one byte, and the same instruction again unless the count has run out. */
    method Move(up: bool)
      requires x < Width() && y < Width()
      modifies this`c, this`x, this`y, this`pc, this`dbr, this`mem
      ensures View() == MoveOf(old(View()), up)
      ensures old(pc) <= 0xfffd ==> dbr == old(FetchAt(1))
      ensures old(pc) <= 0xfffd ==>
                mem == old(mem)[At(old(FetchAt(1)), old(y)) := old(mem)[At(old(FetchAt(2)), old(x))]]
      ensures x == Stepped(old(x), up, 1, Width()) && y == Stepped(old(y), up, 1, Width())
      ensures c == Word(old(c) - 1)
      ensures pc == if old(c) == 0 then Word(old(pc) + 3) else old(pc)
    {
      hide Stepped, Word, At, Has;
      var p1 := MoveOperands();
      var tmp := mem[At(dbr, x)];
      dbr := p1;
      mem := mem[At(dbr, y) := tmp];
      StepIndices(up);
      c := Word(c - 1);
    }

    /** The instruction is executed again and again, C + 1 times, as long as it does
        not overwrite itself. */
    method RepeatMove(up: bool, ghost b: BlockMoves.Move) returns (ghost count: nat)
      requires pc <= 0xfffd && x < Width() && y < Width()
      requires b == BlockMoves.Move(FetchAt(2), FetchAt(1), x, y, up, Width())
      requires Spares(b, At(pbr, pc), c)
      modifies this`c, this`x, this`y, this`pc, this`dbr, this`mem
      ensures count == old(c) + 1
      ensures c == 0xffff && pc == Word(old(pc) + 3) && dbr == b.dst
      ensures x == Stepped(old(x), up, count, Width()) && y == Stepped(old(y), up, count, Width())
      ensures mem == Copied(b, old(mem), count)
    {
      hide Stepped, At, Word, MoveOf, View;
      count := 0;
      Countdown(c, 0);
      ThreeBytesFit(pbr, pc);
      Unstepped(x, up, Width());
      Unstepped(y, up, Width());
      var done := false;
      while !done
        invariant count <= old(c) + 1 && (done <==> count == old(c) + 1)
        invariant c == Word(old(c) - count) && (!done ==> c == old(c) - count)
        invariant pc == if done then Word(old(pc) + 3) else old(pc)
        invariant done ==> dbr == b.dst
        invariant x == Stepped(old(x), up, count, Width()) && y == Stepped(old(y), up, count, Width())
        invariant mem == Copied(b, old(mem), count)
        decreases old(c) + 1 - count
      {
        OperandsKept(b, old(mem), At(pbr, pc), count);
        SteppedOnce(old(x), up, count, Width());
        SteppedOnce(old(y), up, count, Width());
        done := c == 0;
        Countdown(old(c), count);
        Move(up);
        count := count + 1;
      }
    }

    // ------------------------------------------------------------------- the stack

    /** PUSH */
    method PushByte(v: byte)
      modifies this`sp, this`mem
      ensures sp == Down(emul, old(sp)) && mem == old(mem)[At(0, old(sp)) := v]
      ensures View() == Pushed(old(View()), v)
    {
      mem := mem[At(0, sp) := v];
      sp := Down(emul, sp);
    }

    /** PULL */
    method PullByte() returns (v: byte)
      modifies this`sp
      ensures sp == Up(emul, old(sp)) && v == mem[At(0, sp)]
      ensures View() == Popped(old(View())) && v == Head(old(View()))
    {
      sp := Up(emul, sp);
      v := mem[At(0, sp)];
    }

    /** STORE_LONG(reg_sp, v) and a decrement that may leave page one. */
    method StoreBelow(v: byte)
      modifies this`sp, this`mem
      ensures sp == Word(old(sp) - 1) && mem == old(mem)[At(0, old(sp)) := v]
      ensures View() == Dropped(old(View()), v)
    {
      mem := mem[At(0, sp) := v];
      sp := Word(sp - 1);
    }

    /** An increment that may leave page one, and LOAD_LONG(reg_sp). */
    method LoadAbove() returns (v: byte)
      modifies this`sp
      ensures sp == Word(old(sp) + 1) && v == mem[At(0, sp)]
    {
      sp := Word(sp + 1);
      v := mem[At(0, sp)];
    }

    /** The end of PEA, PEI, PER and PHD: only the second byte is a PUSH. */
    method PushWordRaw(v: word)
      modifies this`sp, this`mem
      ensures sp == Down(emul, Word(old(sp) - 1))
      ensures mem == old(mem)[At(0, old(sp)) := High(v)][At(0, Word(old(sp) - 1)) := Low(v)]
      ensures View() == PushedRaw(old(View()), v)
    {
      hide Word, High, Low, At, Down, Has;
      StoreBelow(High(v));
      PushByte(Low(v));
    }

    /** PLD: two bytes from wherever the stack pointer leads, then the fix. */
    method Pld()
      modifies this`sp, this`dpr, this`flagN, this`flagZ, this`pc
      ensures sp == Fixed(emul, Word(Word(old(sp) + 1) + 1))
      ensures dpr == Join(mem[At(0, Word(old(sp) + 1))], mem[At(0, Word(Word(old(sp) + 1) + 1))])
      ensures pc == Word(old(pc) + 1)
      ensures View() == PldOf(old(View()))
    {
      hide Word, High, At, Fixed, Join, Has;
      IncPc(1);
      var lo := LoadAbove();
      var hi := LoadAbove();
      dpr := Join(lo, hi);
      sp := Fixed(emul, sp);
      SetNZ(dpr, false);
    }

    /** LOCAL_SET_NZ */
    method SetNZ(v: word, bits8: bool)
      modifies this`flagN, this`flagZ
      ensures flagN == (if bits8 then Low(v) else High(v))
      ensures flagZ == 0 <==> (if bits8 then Low(v) == 0 else v == 0)
      ensures View() == Signs16(old(View()), v, bits8)
    {
      hide Has;
      HighOfWord(v);
      if !bits8 {
        flagN := High(v);
        flagZ := Or(Low(v), flagN);
        OrZero(v);
      } else {
        flagN := Low(v);
        flagZ := Low(v);
      }
    }

    // ----------------------------------------------- one macro, one instruction

    function StatusByte(): byte
      reads this`p, this`flagN, this`flagZ, this`emul
    {
      StatusBits(p, flagN, flagZ, emul)
    }

    /** What PHP pushes in emulation mode. */
    function BrokenStatus(): byte
      reads this`p, this`flagN, this`flagZ, this`emul
    {
      (StatusVector(p, flagN, flagZ, emul) | 0x10) as byte
    }

    /** STORE_STACK: PHA, PHX, PHY, PHB, PHK, PHP */
    method StoreStack(v: word, bits8: bool)
      requires Boundary()
      modifies this`sp, this`mem, this`pc
      ensures Boundary() && pc == Word(old(pc) + 1)
      ensures sp == if bits8 then Down(emul, old(sp)) else Down(emul, Down(emul, old(sp)))
      ensures View() == OnStack(old(View()), v, bits8)
    {
      hide Word, At, High, Low, Has, NoNZ, Down;
      DownInPageOne(emul, sp);
      DownInPageOne(emul, Down(emul, sp));
      IncPc(1);
      if bits8 {
        PushByte(Low(v));
      } else {
        PushByte(High(v));
        PushByte(Low(v));
      }
    }

    /** LOAD_STACK */
    method LoadStack(bits8: bool) returns (v: word)
      requires Boundary()
      modifies this`sp, this`pc
      ensures Boundary() && pc == Word(old(pc) + 1)
      ensures sp == if bits8 then Up(emul, old(sp)) else Up(emul, Up(emul, old(sp)))
      ensures v == if bits8 then mem[At(0, sp)] else Join(mem[At(0, Up(emul, old(sp)))], mem[At(0, sp)])
      ensures var t := Went(old(View()), 1); View() == if bits8 then Popped(t) else Popped(Popped(t))
      ensures v == if bits8 then Head(old(View())) else HeadWide(old(View()))
    {
      hide Word, At, Join, Has, NoNZ, Up;
      UpInPageOne(emul, sp);
      UpInPageOne(emul, Up(emul, sp));
      IncPc(1);
      var lo := PullByte();
      v := lo;
      if !bits8 {
        var hi := PullByte();
        v := Join(lo, hi);
      }
    }

    /** PLA: with a narrow accumulator its high byte stays. */
    method PullAccumulator()
      requires Boundary()
      modifies this`c, this`sp, this`flagN, this`flagZ, this`pc
      ensures Boundary() && pc == Word(old(pc) + 1)
      ensures NarrowAccumulator() ==>
                sp == Up(emul, old(sp)) && Low(c) == mem[At(0, sp)] && High(c) == High(old(c))
      ensures !NarrowAccumulator() ==>
                sp == Up(emul, Up(emul, old(sp))) && c == Join(mem[At(0, Up(emul, old(sp)))], mem[At(0, sp)])
      ensures View() == PlaOf(old(View()))
    {
      hide Word, At, Join, Has, NoNZ, Up, Low, High;
      var narrow := NarrowAccumulator();
      var v := LoadStack(narrow);
      if narrow {
        PartsOfJoin(v, High(c));
        c := Join(v, High(c));
      } else {
        c := v;
      }
      SetNZ(v, narrow);
    }

    /** PLB */
    method PullBank()
      requires Boundary()
      modifies this`dbr, this`sp, this`flagN, this`flagZ, this`pc
      ensures Boundary() && sp == Up(emul, old(sp)) && dbr == mem[At(0, sp)]
      ensures View() == PlbOf(old(View()))
    {
      hide Word, At, Join, Has, NoNZ, Up;
      var v := LoadStack(true);
      dbr := v;
      SetNZ(v, true);
    }

    /** PEA, PEI, PER, PHD */
    method PushEffective(v: word, size: nat)
      requires Boundary()
      modifies this`sp, this`mem, this`pc
      ensures Boundary() && pc == Word(old(pc) + size)
      ensures sp == Down(emul, Word(old(sp) - 1))
      ensures View() == PushedRaw(Went(old(View()), size), v)
    {
      hide Word, At, High, Low, Has, NoNZ, Down;
      DownInPageOne(emul, Word(sp - 1));
      IncPc(size);
      PushWordRaw(v);
    }

    method PullDirect()
      requires Boundary()
      modifies this`sp, this`dpr, this`flagN, this`flagZ, this`pc
      ensures Boundary() && sp == Fixed(emul, Word(Word(old(sp) + 1) + 1))
      ensures View() == PldOf(old(View()))
    {
      hide Word, At, Join, Has, NoNZ, Fixed;
      FixedStack(emul, Word(Word(sp + 1) + 1));
      Pld();
    }

    /** The register an index instruction works on. */
    method SetIndex(r: Index, v: word)
      requires Boundary() && (NarrowIndex() ==> v < 0x100)
      modifies this`x, this`y, this`flagN, this`flagZ
      ensures Boundary()
      ensures x == (if r.RegX? then v else old(x)) && y == (if r.RegY? then v else old(y))
      ensures View() == Loaded(old(View()), r, v)
    {
      hide Has, NoNZ;
      match r {
        case RegX => x := v;
        case RegY => y := v;
      }
      SetNZ(v, NarrowIndex());
    }

    /** LDX, LDY: the operand has as many bits as the register. */
    method LoadIndex(r: Index, operand: word, size: Size)
      requires Boundary()
      modifies this`x, this`y, this`flagN, this`flagZ, this`pc
      ensures Boundary() && pc == Word(old(pc) + Length(size))
      ensures View() == LdiOf(old(View()), r, size, operand)
    {
      hide Has, NoNZ, Low, Word;
      FitLaw(operand);
      IncPc(Length(size));
      SetIndex(r, if NarrowIndex() then Low(operand) else operand);
    }

    /** PLX, PLY */
    method PullIndex(r: Index)
      requires Boundary()
      modifies this`x, this`y, this`sp, this`flagN, this`flagZ, this`pc
      ensures Boundary()
      ensures View() == PliOf(old(View()), r)
    {
      hide Word, At, Join, Up, Has, NoNZ;
      var v := LoadStack(NarrowIndex());
      SetIndex(r, v);
    }

    /** INX, INY, DEX, DEY */
    method StepIndex(r: Index, up: bool)
      requires Boundary()
      modifies this`x, this`y, this`flagN, this`flagZ, this`pc
      ensures Boundary()
      ensures View() == StepOf(old(View()), r, up)
    {
      hide Has, NoNZ, Low, Word;
      IncPc(1);
      var v := match r case RegX => x case RegY => y;
      StepFits(v);
      v := if up then Word(v + 1) else Word(v - 1);
      SetIndex(r, if NarrowIndex() then Low(v) else v);
    }

    /** TAX, TAY, TSX, TXY, TYX; `masked` for all but the last two. */
    method TransferToIndex(r: Index, source: word, masked: bool)
      requires Boundary() && (!masked ==> source == x || source == y)
      modifies this`x, this`y, this`flagN, this`flagZ, this`pc
      ensures Boundary()
      ensures View() == TransferOf(old(View()), r, if masked then Fit(old(View()), source) else source)
    {
      hide Has, NoNZ, Low, Word;
      FitLaw(source);
      IncPc(1);
      SetIndex(r, if masked && NarrowIndex() then Low(source) else source);
    }

    /** TCS, TXS */
    method TransferToStack(source: word)
      requires Boundary()
      modifies this`sp, this`pc
      ensures Boundary() && sp == if emul then 0x100 + Low(source) else source
      ensures View() == ToStack(old(View()), source)
    {
      hide Has, NoNZ;
      IncPc(1);
      sp := if emul then 0x100 + Low(source) else source;
    }

    /** PLP */
    method Plp()
      requires Boundary()
      modifies this`sp, this`p, this`flagN, this`flagZ, this`x, this`y, this`pc
      ensures Boundary() && sp == Up(emul, old(sp)) && p == Kept(mem[At(0, sp)])
      ensures View() == PlpOf(old(View()))
    {
      hide Word, At, Has, Up, Kept;
      var status := LoadStack(true);
      LocalSetStatus(status);
      MaskIndices();
    }

    method LocalSetStatus(status: byte)
      modifies this`p, this`flagN, this`flagZ
      ensures p == Kept(status) && NoNZ(p)
      ensures View() == old(View()).(f := FlagsOf(status))
    {
      hide Kept, FlagsOf, FlagsIn, NoNZ;
      KeptHasNoNZ(status);
      KeptBits(status);
      p := Kept(status);
      flagZ := if Bit(status, 0x02) then 0 else 1;
      flagN := status;
    }

    /** Narrow indices lose their high bytes. */
    method MaskIndices()
      modifies this`x, this`y
      ensures NarrowIndex() ==> x == Low(old(x)) && y == Low(old(y)) && x < 0x100 && y < 0x100
      ensures !NarrowIndex() ==> x == old(x) && y == old(y)
      ensures View() == Narrowed(old(View()))
    {
      hide Has, Low;
      LowFits(x);
      LowFits(y);
      if NarrowIndex() {
        x := Low(x);
        y := Low(y);
      }
    }

    /** LOCAL_SET_CARRY and its like */
    method SetFlag(f: PFlag, on: bool)
      requires NoNZ(p)
      modifies this`p
      ensures NoNZ(p) && p == With(old(p), f, on)
      ensures View() == old(View()).(f := Flagged(old(View()).f, f, on))
      ensures Has(p, X) == (if f.X? then on else old(Has(p, X)))
      ensures Has(p, C) == (if f.C? then on else old(Has(p, C)))
    {
      hide NoNZ, Has, With, Mask, FlagsIn, Flagged;
      WithOne(p, f, on, X);
      WithOne(p, f, on, C);
      FlaggedBits(p, f, on, flagN, flagZ);
      p := With(p, f, on);
    }

    method SetFlagIf(selected: bool, f: PFlag, on: bool)
      requires NoNZ(p)
      modifies this`p
      ensures NoNZ(p) && Has(p, X) == (if selected && f.X? then on else old(Has(p, X)))
      ensures View() == old(View()).(f := FlaggedIf(old(View()).f, selected, f, on))
    {
      hide NoNZ, Has, With, Mask, FlagsIn, Flagged;
      if selected {
        SetFlag(f, on);
      }
    }

    /** The flags kept in `reg_p` that the operand of REP or SEP names. */
    method SelectFlags(v: byte, on: bool)
      requires NoNZ(p)
      modifies this`p
      ensures NoNZ(p) && Has(p, X) == (if Bit(v, 0x10) && !emul then on else old(Has(p, X)))
      ensures var f := old(View()).f; View() == old(View()).(f := Named(f, v, on, emul).(n := f.n, z := f.z))
    {
      hide Has, NoNZ, With, Bit, Mask, View, FlaggedIf, Named;
      NamedInTurn(View().f, v, on, emul);
      SetFlagIf(Bit(v, 0x40), V, on);
      SetFlagIf(Bit(v, 0x20) && !emul, M, on);
      SetFlagIf(Bit(v, 0x10) && !emul, X, on);
      SetFlagIf(Bit(v, 0x08), D, on);
      SetFlagIf(Bit(v, 0x04), I, on);
      SetFlagIf(Bit(v, 0x01), C, on);
    }

    /** N and Z lie outside `reg_p`. */
    method SetSignIf(selected: bool, v: byte)
      modifies this`flagN
      ensures View() == old(View()).(f := old(View()).f.(n := if selected then v >= 0x80 else old(View()).f.n))
    {
      hide FlagsIn;
      FlagBits(p, flagN, flagZ);
      if selected {
        flagN := v;
      }
    }

    method SetZeroIf(selected: bool, v: byte)
      modifies this`flagZ
      ensures View() == old(View()).(f := old(View()).f.(z := if selected then v == 0 else old(View()).f.z))
    {
      hide FlagsIn;
      FlagBits(p, flagN, flagZ);
      if selected {
        flagZ := v;
      }
    }

    method NarrowIf(selected: bool)
      modifies this`x, this`y
      ensures selected ==> x < 0x100 && y < 0x100
      ensures !selected ==> x == old(x) && y == old(y)
      ensures View() == old(View()).(x := if selected then Low(old(x)) else old(x),
                                     y := if selected then Low(old(y)) else old(y))
    {
      hide Has, FlagsIn, Low;
      LowFits(x);
      LowFits(y);
      if selected {
        x := Low(x);
        y := Low(y);
      }
    }

    /** REP and SEP */
    method RepSep(v: byte, on: bool)
      requires Boundary()
      modifies this`p, this`flagN, this`flagZ, this`x, this`y, this`pc
      ensures Boundary() && pc == Word(old(pc) + 2)
      ensures !emul && Bit(v, 0x10) ==> Has(p, X) == on
      ensures View() == RepSepOf(old(View()), v, on)
    {
      hide Word, Has, NoNZ, With, Bit, Low, Mask, View;
      Fields();
      IncPc(2);
      SelectFlags(v, on);
      NarrowIf(Bit(v, 0x10) && !emul && on);
      SetSignIf(Bit(v, 0x80), if on then 0x80 else 0);
      SetZeroIf(Bit(v, 0x02), if on then 0 else 1);
    }

    /** Narrow indices, and the stack pointer in page one. */
    method Emulate()
      modifies this`emul, this`sp, this`x, this`y
      ensures emul && 0x100 <= sp <= 0x1ff && x < 0x100 && y < 0x100
      ensures View() == Emulated(old(View()))
    {
      hide Low, Has, FlagsIn;
      LowFits(x);
      LowFits(y);
      LowFits(sp);
      emul := true;
      x := Low(x);
      y := Low(y);
      sp := 0x100 + Low(sp);
    }

    /** XCE */
    method Xce()
      requires Boundary()
      modifies this`p, this`emul, this`sp, this`x, this`y, this`pc
      ensures Boundary() && emul == old(Has(p, C)) && Has(p, C) == old(emul)
      ensures View() == XceOf(old(View()))
    {
      hide Word, NoNZ, With, Mask, Low, Has, FlagsIn;
      FlagBits(p, flagN, flagZ);
      IncPc(1);
      if Has(p, C) != emul {
        if Has(p, C) {
          Emulate();
          SetFlag(C, false);
          SetFlag(X, false);
        } else {
          emul := false;
          SetFlag(C, true);
          SetFlag(M, true);
          SetFlag(X, true);
        }
      }
    }

    // ------------------------------------------------------------- flow of control

    /** The k-th byte of the instruction; PC wraps in its bank. */
    function Param(k: nat): byte
      reads this`pc, this`pbr, this`mem
    {
      mem[At(pbr, Word(pc + k))]
    }

    function Operand(): word
      reads this`pc, this`pbr, this`mem
    {
      Join(Param(1), Param(2))
    }

    predicate Passes(test: Test)
      reads this`flagN, this`flagZ, this`p
    {
      match test
      case Always => true
      case SignIs(on) => (flagN >= 0x80) == on
      case ZeroIs(on) => (flagZ == 0) == on
      case CarryIs(on) => Has(p, C) == on
      case OverflowIs(on) => Has(p, V) == on
    }

    lemma PassesAlike(test: Test)
      ensures Passes(test) == Model65816.Passes(test, View().f)
    {
      hide Has;
    }

    /** BRANCH */
    method Branch(test: Test)
      modifies this`pc
      ensures pc == if Passes(test) then Word(old(pc) + 2 + SignedByte(old(Param(1)))) else Word(old(pc) + 2)
      ensures View() == BranchOf(old(View()), test)
    {
      hide At, Word, SignedByte, FlagsIn, Passes, Model65816.Passes;
      PassesAlike(test);
      NextSteps(pc);
      var taken := Passes(test);
      IncPc(1);
      var p1 := Param(0);
      IncPc(1);
      if taken {
        pc := Word(pc + SignedByte(p1));
      }
      BranchWraps(old(pc), p1);
    }

    /** BRANCH_LONG */
    method BranchLong()
      modifies this`pc
      ensures pc == Word(old(pc) + 3 + old(Operand()))
      ensures View() == GoEffect(BRL, old(View()))
    {
      hide At, Join, Word, View, Model65816.Operand, Operand;
      Operands();
      Fields();
      var to := Operand();
      IncPc(2);
      IncPc(to as int + 1);
      LongBranchWraps(old(pc), to);
      Fields();
    }

    /** JMP */
    method Jmp()
      modifies this`pc
      ensures pc == old(Operand())
      ensures View() == GoEffect(Arm.JMP, old(View()))
    {
      hide At, Join, Word, Has;
      pc := Operand();
    }

    /** JMP_IND: the vector lies in bank 0. */
    method JmpInd()
      modifies this`pc
      ensures pc == WordAt(mem, 0, old(Operand()))
      ensures View() == GoEffect(Arm.JMP_IND, old(View()))
    {
      hide At, Join, Word, Has;
      var ea := Operand();
      pc := WordAt(mem, 0, ea);
    }

    /** JMP_IND_LONG */
    method JmpIndLong()
      modifies this`pc, this`pbr
      ensures pc == WordAt(mem, 0, old(Operand())) && pbr == mem[At(0, Word(old(Operand()) + 2))]
      ensures View() == GoEffect(JMP_IND_LONG, old(View()))
    {
      hide At, Join, Word, Has;
      var ea := Operand();
      pc := WordAt(mem, 0, ea);
      pbr := mem[At(0, Word(ea as int + 2))];
    }

    /** JMP_IND_X: the vector lies in the bank of the program. */
    method JmpIndX()
      modifies this`pc
      ensures pc == WordAt(mem, pbr, old(Operand()) + x)
      ensures View() == GoEffect(JMP_IND_X, old(View()))
    {
      hide At, Join, Word, Has;
      var ea := Operand() as int + x;
      pc := WordAt(mem, pbr, ea);
    }

    /** JMP_LONG */
    method JmpLong()
      modifies this`pc, this`pbr
      ensures pc == old(Operand()) && pbr == old(Param(3))
      ensures View() == GoEffect(JMP_LONG, old(View()))
    {
      hide At, Join, Word, Has;
      var target := Operand();
      pbr := Param(3);
      pc := target;
    }

    /** JSR */
    method Jsr()
      requires Boundary()
      modifies this`sp, this`mem, this`pc
      ensures Boundary() && sp == Down(emul, Down(emul, old(sp))) && pc == old(Operand())
      ensures var ret := Word(old(pc) + 2);
              mem == old(mem)[At(0, old(sp)) := High(ret)][At(0, Down(emul, old(sp))) := Low(ret)]
      ensures View() == JsrOf(old(View()))
    {
      hide Word, At, High, Low, Has, NoNZ, Join, Down;
      DownInPageOne(emul, sp);
      DownInPageOne(emul, Down(emul, sp));
      var target := Operand();
      IncPc(2);
      PushByte(High(pc));
      PushByte(Low(pc));
      pc := target;
    }

    /** JSR (a,X): the first byte is stored without wrapping; the high byte of the
        vector's address is fetched after both. */
    method JsrIndirectX()
      requires Boundary()
      modifies this`sp, this`mem, this`pc
      ensures Boundary() && sp == Down(emul, Word(old(sp) - 1))
      ensures pc == WordAt(mem, pbr, Join(old(Param(1)), mem[At(pbr, Word(old(pc) + 2))]) as int + x as int)
      ensures View() == JsrIndXOf(old(View()))
    {
      hide Word, At, High, Low, Has, NoNZ, Join, Down;
      DownInPageOne(emul, Word(sp - 1));
      var p1 := Param(1);
      IncPc(2);
      PushWordRaw(pc);
      var p2 := mem[At(pbr, pc)];
      pc := WordAt(mem, pbr, Join(p1, p2) as int + x);
    }

    /** JSL: bank and high byte are stored without wrapping; the new bank is fetched
        after the first store. */
    method Jsl()
      requires Boundary()
      modifies this`sp, this`mem, this`pc, this`pbr
      ensures Boundary() && sp == Down(emul, Word(Word(old(sp) - 1) - 1)) && pc == old(Operand())
      ensures pbr == old(mem)[At(0, old(sp)) := old(pbr)][At(old(pbr), Word(old(pc) + 3))]
      ensures var ret := Word(old(pc) + 3);
              mem == old(mem)[At(0, old(sp)) := old(pbr)][At(0, Word(old(sp) - 1)) := High(ret)]
                             [At(0, Word(Word(old(sp) - 1) - 1)) := Low(ret)]
      ensures View() == JslOf(old(View()))
    {
      hide Word, At, High, Low, Has, NoNZ, Join, Down;
      DownInPageOne(emul, Word(Word(sp - 1) - 1));
      var target := Operand();
      IncPc(3);
      StoreBelow(pbr);
      pbr := mem[At(pbr, pc)];
      PushWordRaw(pc);
      pc := target;
    }

    /** RTS */
    method Rts()
      requires Boundary()
      modifies this`sp, this`pc
      ensures Boundary() && sp == Up(emul, Up(emul, old(sp)))
      ensures pc == Word(Join(mem[At(0, Up(emul, old(sp)))], mem[At(0, sp)]) + 1)
      ensures View() == RtsOf(old(View()))
    {
      hide Word, At, Join, Has, NoNZ, Up;
      UpInPageOne(emul, sp);
      UpInPageOne(emul, Up(emul, sp));
      var lo := PullByte();
      var hi := PullByte();
      pc := Word(Join(lo, hi) + 1);
    }

    /** RTL: three bytes from wherever the stack pointer leads, then the fix. */
    method Rtl()
      requires Boundary()
      modifies this`sp, this`pc, this`pbr
      ensures Boundary() && sp == Fixed(emul, Word(Word(Word(old(sp) + 1) + 1) + 1))
      ensures var s1 := Word(old(sp) + 1);
              && pc == Word(Join(mem[At(0, s1)], mem[At(0, Word(s1 + 1))]) + 1)
              && pbr == mem[At(0, Word(Word(s1 + 1) + 1))]
      ensures View() == RtlOf(old(View()))
    {
      hide Word, At, Join, Has, NoNZ, Fixed;
      FixedStack(emul, Word(Word(Word(sp + 1) + 1) + 1));
      var lo := LoadAbove();
      var hi := LoadAbove();
      pbr := LoadAbove();
      sp := Fixed(emul, sp);
      pc := Word(Join(lo, hi) + 1);
    }

    method GoTo(target: word)
      modifies this`pc
      ensures pc == target && View() == old(View()).(pc := target)
    {
      hide FlagsIn;
      pc := target;
    }

    method PullProgramBank()
      modifies this`sp, this`pbr
      ensures sp == Up(emul, old(sp)) && pbr == mem[At(0, sp)]
      ensures View() == Popped(old(View())).(pbr := Head(old(View())))
    {
      hide FlagsIn, Up, At;
      pbr := PullByte();
    }

    /** RTI */
    method Rti()
      requires Boundary()
      modifies this`sp, this`p, this`flagN, this`flagZ, this`x, this`y, this`pc, this`pbr
      ensures Boundary()
      ensures sp == (var s3 := Up(emul, Up(emul, Up(emul, old(sp)))); if emul then s3 else Up(emul, s3))
      ensures View() == RtiOf(old(View()))
    {
      hide Word, At, Join, Kept, Has, NoNZ, Up, FlagsOf, View, Low;
      Fields();
      var status := PullByte();
      LocalSetStatus(status);
      MaskIndices();
      UpInPageOne(emul, old(sp));
      UpInPageOne(emul, Up(emul, Up(emul, old(sp))));
      var lo := PullByte();
      var hi := PullByte();
      GoTo(Join(lo, hi));
      if !emul {
        PullProgramBank();
      }
    }

    /** PC and the status byte. */
    method PushFrame()
      requires NoNZ(p)
      modifies this`sp, this`mem
      ensures sp == Down(emul, Down(emul, Down(emul, old(sp))))
      ensures View() == FramePushed(old(View()))
    {
      hide Word, At, High, Low, Has, NoNZ, View, StatusOf, StatusBits, Down, Pushed;
      Fields();
      Status16();
      PushByte(High(pc));
      PushByte(Low(pc));
      PushByte(StatusByte());
    }

    method GoToVector(vector: word)
      modifies this`pc, this`pbr
      ensures pbr == 0 && pc == WordAt(mem, 0, vector)
      ensures View() == old(View()).(pc := WordAt(old(mem), 0, vector), pbr := 0)
    {
      hide WordAt, FlagsIn;
      pc := WordAt(mem, 0, vector);
      pbr := 0;
    }

    /** Interrupts off, decimal mode off, and on through a vector in bank 0. */
    method EnterHandler(vector: word)
      requires NoNZ(p)
      modifies this`p, this`pc, this`pbr
      ensures NoNZ(p) && Has(p, X) == old(Has(p, X)) && pbr == 0 && pc == WordAt(mem, 0, vector)
      ensures View() == Handling(old(View()), vector)
    {
      hide Word, NoNZ, With, Mask, Has, WordAt, View, Flagged;
      Fields();
      InterruptFlags(View().f);
      SetFlag(I, true);
      SetFlag(D, false);
      GoToVector(vector);
    }

    /** BRK and COP (`software`), IRQ and NMI */
    method Interrupt(software: bool, emulVector: word, nativeVector: word)
      requires Boundary()
      modifies this`sp, this`mem, this`p, this`pc, this`pbr
      ensures Boundary() && pbr == 0 && pc == WordAt(mem, 0, if emul then emulVector else nativeVector)
      ensures sp == (var s3 := Down(emul, Down(emul, Down(emul, old(sp)))); if emul then s3 else Down(emul, s3))
      ensures View() == InterruptOf(old(View()), software, emulVector, nativeVector)
    {
      hide Word, At, High, Low, Has, NoNZ, With, Mask, Down, WordAt, View, Flagged, FramePushed, Pushed;
      DownInPageOne(emul, Down(emul, Down(emul, sp)));
      Fields();
      if software {
        IncPc(2);
      }
      if emul {
        SetFlag(X, software);
      } else {
        PushByte(pbr);
      }
      PushFrame();
      EnterHandler(if emul then emulVector else nativeVector);
    }

    method ClearBanks()
      modifies this`dpr, this`dbr, this`pbr
      ensures dpr == 0 && dbr == 0 && pbr == 0
      ensures View() == old(View()).(dpr := 0, dbr := 0, pbr := 0)
    {
      hide FlagsIn;
      dpr, dbr, pbr := 0, 0, 0;
    }

    /** Three reads where an interrupt would push. */
    method SkipFrame()
      requires emul
      modifies this`sp
      ensures sp == Down(true, Down(true, Down(true, old(sp))))
      ensures View() == old(View()).(sp := Down(true, Down(true, Down(true, old(sp)))))
    {
      hide FlagsIn, Down;
      sp := Down(true, sp);
      sp := Down(true, sp);
      sp := Down(true, sp);
    }

    /** RES */
    method Reset()
      requires NoNZ(p)
      modifies this`sp, this`p, this`pc, this`pbr, this`dbr, this`dpr, this`emul, this`x, this`y
      ensures Boundary() && emul && pbr == 0 && dbr == 0 && dpr == 0 && pc == WordAt(mem, 0, 0xfffc)
      ensures View() == ResetOf(old(View()))
    {
      hide Word, NoNZ, With, Mask, Has, Low, Down, WordAt, View, Flagged;
      InterruptFlags(View().f);
      SetFlag(X, false);
      Emulate();
      DownInPageOne(true, Down(true, Down(true, sp)));
      Fields();
      ClearBanks();
      SkipFrame();
      EnterHandler(0xfffc);
    }

    /** Everything that computes or stores, with whatever outcome: it touches no more
        than its macro does, and never the stack pointer, the indices or the modes. */
    method Computing(op: ComputeOp, size: Size, o: Outcome)
      requires Boundary()
      modifies this`c, this`dpr, this`mem, this`flagN, this`flagZ, this`p, this`pc
      ensures Boundary() && pc == Word(old(pc) + old(Length(size)))
      ensures !TouchesC(op, size) ==> c == old(c)
      ensures !TouchesMemory(op, size) ==> mem == old(mem)
      ensures !op.TCD? ==> dpr == old(dpr)
      ensures Has(p, X) == old(Has(p, X))
      ensures View() == ComputeOf(op, size, old(View()), o)
    {
      hide Word, Has, With, Mask, NoNZ, TouchesC, TouchesMemory, Touched, View;
      Fields();
      Operands();
      IncPc(Length(size));
      Store(op, size, o);
      LeaveFlags(op, o);
    }

    /** TCD stores the accumulator in the direct page register. */
    method Store(op: ComputeOp, size: Size, o: Outcome)
      modifies this`c, this`dpr, this`mem
      ensures c == if TouchesC(op, size) then o.c else old(c)
      ensures mem == if TouchesMemory(op, size) then o.mem else old(mem)
      ensures dpr == if op.TCD? then old(c) else old(dpr)
      ensures View() == old(View()).(c := c, mem := mem, dpr := dpr)
    {
      hide TouchesC, TouchesMemory, FlagsIn;
      if op.TCD? { dpr := c; }
      if TouchesC(op, size) { c := o.c; }
      if TouchesMemory(op, size) { mem := o.mem; }
    }

    method LeaveFlags(op: ComputeOp, o: Outcome)
      requires NoNZ(p)
      modifies this`flagN, this`flagZ, this`p
      ensures NoNZ(p) && Has(p, X) == old(Has(p, X))
      ensures View() == old(View()).(f := Touched(old(View()).f, op, o))
    {
      hide TouchesSign, TouchesZero, TouchesCarry, TouchesOverflow, Has, NoNZ, With, Mask, View, FlaggedIf, Touched;
      TouchedInTurn(View().f, op, o);
      SetSignIf(TouchesSign(op), o.n);
      SetZeroIf(TouchesZero(op), o.z);
      SetFlagIf(TouchesCarry(op), C, o.carry);
      SetFlagIf(TouchesOverflow(op), V, o.overflow);
    }

    function Length(size: Size): nat
      reads this`emul, this`p
    {
      match size
      case Bytes(n) => n
      case ByAccumulator => if NarrowAccumulator() then 2 else 3
      case ByIndex => if NarrowIndex() then 2 else 3
    }

    // ------------------------------------------------------------------- any run

    lemma Settled()
      requires Boundary()
      ensures NoNZ(p)
    {
    }

    /** The opcode switch: every arm keeps the invariant, and only XCE and a reset
        leave or enter emulation mode. */
    method Execute(p0: int, o: Outcome)
      requires Boundary() && 0 <= p0 <= 0x102
      modifies this
      ensures Boundary()
      ensures emul == old(emul) || Switch(p0).XCE? || Switch(p0).RES?
      ensures View() == Effect(Switch(p0), old(View()), o)
    {
      hide View, Boundary, NarrowIndex, NarrowAccumulator, Param, Operand, Word, At, Join, High, Low, Up, Down,
           Fixed, Has, NoNZ, Kept, Switch, MoveOf, ComputeOf, StackEffect, FlagEffect, TransferEffect, IndexEffect,
           GoEffect, Calls, Interrupts, Pushes, Pulls, UsesStack, SetsFlags, Transfers, WorksOnIndex;
      var arm := Switch(p0);
      Fields();
      ModeChanges(arm, View(), o);
      if arm.Compute? {
        Computing(arm.op, arm.size, o);
      } else if arm.MVN? || arm.MVP? {
        MoveOnce(arm.MVN?);
      } else if UsesStack(arm) {
        Stack(arm);
      } else if SetsFlags(arm) {
        Flags(arm);
      } else if Transfers(arm) {
        Transfer(arm);
      } else if WorksOnIndex(arm) {
        IndexRegister(arm, o);
      } else {
        Go(arm);
      }
      Fields();
    }

    method Stack(arm: Arm)
      requires Boundary()
      modifies this
      ensures Boundary()
      ensures View() == StackEffect(arm, old(View()))
    {
      hide View, Boundary, NarrowIndex, NarrowAccumulator, Param, Operand, Word, At, Join, High, Low, Up, Down,
           Fixed, Has, NoNZ, Kept, CallEffect, VectorEffect, PushEffect, PullEffect, Interrupts, Pushes,
           Pulls;
      if arm.JSR? || arm.JSR_IND_X? || arm.JSR_LONG? {
        Call(arm);
      } else if arm.RTS? || arm.RTL? || arm.RTI? {
        Return(arm);
      } else if Interrupts(arm) {
        Vector(arm);
      } else if Pushes(arm) {
        Push(arm);
      } else {
        Pull(arm);
      }
    }

    method IndexRegister(arm: Arm, o: Outcome)
      requires Boundary()
      modifies this
      ensures Boundary()
      ensures View() == IndexEffect(arm, old(View()), o)
    {
      hide View, Boundary, NarrowIndex, NarrowAccumulator, Param, Operand, Word, At, Join, High, Low, Up, Down,
           Fixed, Has, NoNZ, Kept, LdiOf, StepOf, PliOf;
      if arm.LDI? {
        LoadIndex(arm.r, o.operand, arm.size);
      } else if arm.INI? {
        StepIndex(arm.r, true);
      } else if arm.DEI? {
        StepIndex(arm.r, false);
      } else if arm.PLI? {
        PullIndex(arm.r);
      }
    }

    /** Branches, jumps and instructions that do nothing else. */
    method Go(arm: Arm)
      requires Boundary()
      modifies this
      ensures Boundary()
      ensures View() == GoEffect(arm, old(View()))
    {
      hide View, Boundary, NarrowIndex, NarrowAccumulator, Param, Operand, Word, At, Join, High, Low, Up, Down,
           Fixed, Has, NoNZ, Kept, WordAt, BranchOf, Passes, Model65816.Passes, Model65816.Operand,
           Model65816.Param, Went, SignedByte;
      Fields();
      Operands();
      if arm.BRANCH? {
        Branch(arm.test);
      } else if arm.BRL? {
        BranchLong();
      } else if arm.JMP? {
        Jmp();
      } else if arm.JMP_IND? {
        JmpInd();
      } else if arm.JMP_IND_LONG? {
        JmpIndLong();
      } else if arm.JMP_IND_X? {
        JmpIndX();
      } else if arm.JMP_LONG? {
        JmpLong();
      } else if arm.WDM? {
        IncPc(2);
      } else {
        IncPc(1);
      }
    }

    method Call(arm: Arm)
      requires Boundary() && (arm.JSR? || arm.JSR_IND_X? || arm.JSR_LONG?)
      modifies this
      ensures Boundary()
      ensures View() == CallEffect(arm, old(View()))
    {
      hide View, Boundary, NarrowIndex, NarrowAccumulator, Param, Operand, Word, At, Join, High, Low, Up, Down,
           Fixed, Has, NoNZ, Kept, WordAt, JsrOf, JsrIndXOf, JslOf, RtsOf, RtlOf, RtiOf;
      if arm.JSR? {
        Jsr();
      } else if arm.JSR_IND_X? {
        JsrIndirectX();
      } else {
        Jsl();
      }
    }

    method Return(arm: Arm)
      requires Boundary() && (arm.RTS? || arm.RTL? || arm.RTI?)
      modifies this
      ensures Boundary()
      ensures View() == CallEffect(arm, old(View()))
    {
      hide View, Boundary, NarrowIndex, NarrowAccumulator, Param, Operand, Word, At, Join, High, Low, Up, Down,
           Fixed, Has, NoNZ, Kept, WordAt, JsrOf, JsrIndXOf, JslOf, RtsOf, RtlOf, RtiOf;
      if arm.RTS? {
        Rts();
      } else if arm.RTL? {
        Rtl();
      } else {
        Rti();
      }
    }

    method Vector(arm: Arm)
      requires Boundary() && Interrupts(arm)
      modifies this
      ensures Boundary()
      ensures View() == VectorEffect(arm, old(View()))
    {
      hide View, Boundary, NarrowIndex, NarrowAccumulator, Param, Operand, Word, At, Join, High, Low, Up, Down,
           Fixed, Has, NoNZ, Kept, WordAt, InterruptOf, ResetOf;
      Settled();
      if arm.RES? {
        Reset();
      } else {
        var emulVector: word := if arm.NMI? then 0xfffa else if arm.COP? then 0xfff4 else 0xfffe;
        var nativeVector: word :=
          if arm.NMI? then 0xffea else if arm.IRQ? then 0xffee else if arm.COP? then 0xffe4 else 0xffe6;
        Interrupt(arm.BRK? || arm.COP?, emulVector, nativeVector);
      }
    }

    /** Values and widths come from the registers and modes. */
    method Push(arm: Arm)
      requires Boundary()
      modifies this
      ensures Boundary()
      ensures View() == PushEffect(arm, old(View()))
    {
      hide View, Boundary, NarrowIndex, NarrowAccumulator, Param, Operand, Word, At, Join, High, Low, Up, Down,
           Fixed, Has, NoNZ, Kept, WordAt, OnStack, Broken, PushedRaw, Went, StatusOf, StatusBits, StatusByte, BrokenStatus, Bit,
           NarrowM, NarrowX, Model65816.Operand, Model65816.Param;
      Fields();
      Operands();
      Settled();
      Status16();
      if emul {
        BrokenStatus16();
      }
      if arm.PHA? {
        StoreStack(c, NarrowAccumulator());
      } else if arm.PHX? {
        StoreStack(x, NarrowIndex());
      } else if arm.PHY? {
        StoreStack(y, NarrowIndex());
      } else if arm.PHB? {
        StoreStack(dbr, true);
      } else if arm.PHK? {
        StoreStack(pbr, true);
      } else if arm.PHP? {
        StoreStack(if emul then BrokenStatus() else StatusByte(), true);
      } else if arm.PEA? {
        PushEffective(Operand(), 3);
      } else if arm.PEI? {
        PushEffective(WordAt(mem, 0, Param(1) + dpr), 2);
      } else if arm.PER? {
        PushEffective(Word(pc + 3 + Operand()), 3);
      } else {
        PushEffective(dpr, 1);
      }
    }

    method Pull(arm: Arm)
      requires Boundary()
      modifies this
      ensures Boundary()
      ensures View() == PullEffect(arm, old(View()))
    {
      hide View, Boundary, NarrowIndex, NarrowAccumulator, Param, Operand, Word, At, Join, High, Low, Up, Down,
           Fixed, Has, NoNZ, Kept, PlaOf, PlbOf, PldOf, PlpOf;
      if arm.PLA? {
        PullAccumulator();
      } else if arm.PLB? {
        PullBank();
      } else if arm.PLD? {
        PullDirect();
      } else {
        Plp();
      }
    }

    method Flags(arm: Arm)
      requires Boundary()
      modifies this
      ensures Boundary()
      ensures View() == FlagEffect(arm, old(View()))
    {
      hide View, Boundary, NarrowIndex, NarrowAccumulator, Param, Operand, Word, At, Join, High, Low, Up, Down,
           Fixed, Has, NoNZ, Kept, ChangedOf, RepSepOf, XceOf, Bit, Model65816.Param;
      Fields();
      Operands();
      if arm.CLEAR? {
        ChangeFlag(arm.f, false);
      } else if arm.SET? {
        ChangeFlag(arm.f, true);
      } else if arm.REP? {
        RepSep(Param(1), false);
      } else if arm.SEP? {
        RepSep(Param(1), true);
      } else if arm.XCE? {
        Xce();
      }
    }

    method Transfer(arm: Arm)
      requires Boundary()
      modifies this
      ensures Boundary()
      ensures View() == TransferEffect(arm, old(View()))
    {
      hide View, Boundary, NarrowIndex, NarrowAccumulator, Param, Operand, Word, At, Join, High, Low, Up, Down,
           Fixed, Has, NoNZ, Kept, TransferOf, ToStack, Fit, NarrowX;
      Fields();
      if arm.TAX? {
        TransferToIndex(RegX, c, true);
      } else if arm.TAY? {
        TransferToIndex(RegY, c, true);
      } else if arm.TSX? {
        TransferToIndex(RegX, sp, true);
      } else if arm.TXY? {
        TransferToIndex(RegY, x, false);
      } else if arm.TYX? {
        TransferToIndex(RegX, y, false);
      } else if arm.TCS? {
        TransferToStack(c);
      } else {
        TransferToStack(x);
      }
    }

    /** CLC, CLD, CLI, CLV, SEC, SED, SEI; the mode flags are not among them. */
    method ChangeFlag(f: PFlag, on: bool)
      requires Boundary()
      modifies this`p, this`pc
      ensures Boundary()
      ensures View() == ChangedOf(old(View()), f, on)
    {
      hide Word, Has, NoNZ, With, Mask;
      IncPc(1);
      if !f.X? && !f.M? {
        SetFlag(f, on);
      }
    }

    method MoveOnce(up: bool)
      requires Boundary()
      modifies this`c, this`x, this`y, this`pc, this`dbr, this`mem
      ensures Boundary()
      ensures View() == MoveOf(old(View()), up)
    {
      hide Has, NoNZ, Stepped;
      Move(up);
    }

    /** Whatever program is in memory, and however it is interrupted, the registers
        obey the modes between any two instructions. */
    method Run(events: seq<Event>)
      requires Boundary()
      modifies this
      ensures Boundary()
      ensures View() == RunOf(events, old(View()))
    {
      hide Boundary, Effect, Switch, View;
      SwitchInterrupts();
      var k := 0;
      while k < |events|
        invariant k <= |events| && Boundary()
        invariant RunOf(events[k..], View()) == RunOf(events, old(View()))
      {
        assert events[k..][1..] == events[k + 1..];
        Operands();
        match events[k] {
          case Instruction(o) => Execute(Param(0), o);
          case Irq(o) => Execute(0x100, o);
          case Nmi(o) => Execute(0x101, o);
          case Reset(o) => Execute(0x102, o);
        }
        k := k + 1;
      }
    }

    // --------------------------------------------- pairs that undo each other

    /** JSL and RTL. */
    method LongCall()
      requires Boundary()
      modifies this`sp, this`mem, this`pc, this`pbr
      ensures sp == old(sp) && mem == AfterJsl(old(sp), old(pc), old(pbr), old(mem))
      ensures (pc, pbr) == Resumed(emul, old(sp), old(pc), old(pbr), old(mem))
    {
      hide At, Join, High, Low, Has, NoNZ, Word, Down, Fixed, View, JslOf, RtlOf;
      LongCallAddresses(emul, sp);
      Jsl();
      Rtl();
    }

    /** RTL undoes JSL exactly unless it is led astray, and then if the bytes it
        finds happen to be right. */
    method LongCallAndReturn()
      requires Boundary()
      modifies this`sp, this`mem, this`pc, this`pbr
      ensures var ret := Word(old(pc) + 3);
              pc == Word(old(pc) + 4) && pbr == old(pbr)
              <==> !emul || old(sp) >= 0x103
                   || (old(mem)[old(sp) + 0xfe] == Low(ret) && old(mem)[old(sp) + 0xff] == High(ret)
                       && old(mem)[old(sp) + 0x100] == old(pbr))
    {
      hide Resumed, AfterJsl, Word, High, Low, Has, NoNZ;
      LongCallReturns(emul, sp, pc, pbr, mem);
      LongCall();
    }

    /** PHD and PLD. */
    method PushPullDirect()
      requires Boundary()
      modifies this`sp, this`dpr, this`mem, this`pc, this`flagN, this`flagZ
      ensures sp == old(sp) && mem == AfterPhd(old(sp), old(dpr), old(mem))
      ensures dpr == PulledBack(emul, old(sp), old(dpr), old(mem))
    {
      hide At, Join, High, Low, Has, NoNZ, Word, Down, Fixed, View, PushedRaw, PldOf;
      DirectAddresses(emul, sp);
      IncPc(1);
      PushWordRaw(dpr);
      Pld();
    }

    method DirectThereAndBack()
      requires Boundary()
      modifies this`sp, this`dpr, this`mem, this`pc, this`flagN, this`flagZ
      ensures dpr == old(dpr)
              <==> !emul || old(sp) >= 0x102
                   || (old(mem)[old(sp) + 0xff] == Low(old(dpr)) && old(mem)[old(sp) + 0x100] == High(old(dpr)))
    {
      hide PulledBack, AfterPhd, High, Low, Has, NoNZ;
      DirectReturns(emul, sp, dpr, mem);
      PushPullDirect();
    }
  }

  // ------------------------------------------- when the pairs undo each other

  /** Memory after JSL at `pc`. */
  function AfterJsl(sp: word, pc: word, pbr: byte, m: Memory): Memory {
    var ret := Word(pc + 3);
    m[At(0, sp) := pbr][At(0, Word(sp - 1)) := High(ret)][At(0, Word(Word(sp - 1) - 1)) := Low(ret)]
  }

  /** Where RTL leads right after it. */
  function Resumed(emul: bool, sp: word, pc: word, pbr: byte, m: Memory): (word, byte) {
    var q := AfterJsl(sp, pc, pbr, m);
    var s1 := Word(Down(emul, Word(Word(sp - 1) - 1)) + 1);
    (Word(Join(q[At(0, s1)], q[At(0, Word(s1 + 1))]) + 1), q[At(0, Word(Word(s1 + 1) + 1))])
  }

  /** In emulation mode with SP below 0x103 RTL reads three bytes that JSL did not
      write, a page further up; only if they happen to be right does it return. */
  lemma LongCallReturns(emul: bool, sp: word, pc: word, pbr: byte, m: Memory)
    requires emul ==> 0x100 <= sp <= 0x1ff
    ensures Resumed(emul, sp, pc, pbr, m) == (Word(pc + 4), pbr)
            <==> !emul || sp >= 0x103
                 || (m[sp + 0xfe] == Low(Word(pc + 3)) && m[sp + 0xff] == High(Word(pc + 3)) && m[sp + 0x100] == pbr)
  {
    hide *;
    if emul && sp < 0x103 {
      LongCallStraddles(sp, pc, pbr, m);
    } else {
      LongCallStays(emul, sp, pc, pbr, m);
    }
  }

  lemma LongCallStraddles(sp: word, pc: word, pbr: byte, m: Memory)
    requires 0x100 <= sp <= 0x102
    ensures Resumed(true, sp, pc, pbr, m) == (Word(pc + 4), pbr)
            <==> m[sp + 0xfe] == Low(Word(pc + 3)) && m[sp + 0xff] == High(Word(pc + 3)) && m[sp + 0x100] == pbr
  {
    hide Join, High, Low, Word, Down;
    Astray(sp);
    ReturnsTo(m[sp + 0xfe], m[sp + 0xff], pc);
  }

  lemma LongCallStays(emul: bool, sp: word, pc: word, pbr: byte, m: Memory)
    requires emul ==> 0x103 <= sp <= 0x1ff
    ensures Resumed(emul, sp, pc, pbr, m) == (Word(pc + 4), pbr)
  {
    hide At, Join, High, Low, Word, Down, Fixed;
    LongCallAddresses(emul, sp);
    Distinct3(sp);
    ReturnAddress(pc);
  }

  /** Where RTL and PLD read when page one is straddled. */
  lemma Astray(sp: word)
    requires 0x100 <= sp <= 0x102
    ensures Word(sp - 1) == sp - 1 && Word(Word(sp - 1) - 1) == sp - 2
    ensures Word(Down(true, sp - 2) + 1) == sp + 0xfe && Word(sp + 0xfe + 1) == sp + 0xff && Word(sp + 0xff + 1) == sp + 0x100
    ensures sp <= 0x101 ==> Word(Down(true, sp - 1) + 1) == sp + 0xff
  {
  }

  lemma ReturnsTo(lo: byte, hi: byte, pc: word)
    ensures Word(Join(lo, hi) + 1) == Word(pc + 4) <==> lo == Low(Word(pc + 3)) && hi == High(Word(pc + 3))
  {
    hide *;
    JoinParts(Word(pc + 3));
    NextWord(pc, 3);
    PartsOfJoin(lo, hi);
    NextIsInjective(Join(lo, hi), Word(pc + 3));
  }

  lemma PartsOfJoin(lo: byte, hi: byte)
    ensures Low(Join(lo, hi)) == lo && High(Join(lo, hi)) == hi
  {
  }

  lemma NextIsInjective(v: word, w: word)
    ensures Word(v + 1) == Word(w + 1) ==> v == w
  {
  }

  /** RTL undoes JSL whatever is in memory exactly in native mode or with SP at
      0x103 or above; otherwise a memory is given where it does not. */
  lemma LongCallAlwaysReturns(emul: bool, sp: word, pc: word, pbr: byte) returns (bad: Memory)
    requires emul ==> 0x100 <= sp <= 0x1ff
    ensures (forall m: Memory :: Resumed(emul, sp, pc, pbr, m) == (Word(pc + 4), pbr)) <==> !emul || sp >= 0x103
    ensures emul && sp < 0x103 ==> Resumed(emul, sp, pc, pbr, bad) != (Word(pc + 4), pbr)
  {
    bad := seq(0x1000000, _ => if pbr == 0 then 1 else 0);
    LongCallReturns(emul, sp, pc, pbr, bad);
    forall m: Memory ensures !emul || sp >= 0x103 ==> Resumed(emul, sp, pc, pbr, m) == (Word(pc + 4), pbr) {
      LongCallReturns(emul, sp, pc, pbr, m);
    }
    hide Resumed, Word, Low, High;
  }

  /** Memory after PHD. */
  function AfterPhd(sp: word, dpr: word, m: Memory): Memory {
    m[At(0, sp) := High(dpr)][At(0, Word(sp - 1)) := Low(dpr)]
  }

  /** What PLD pulls right after it. */
  function PulledBack(emul: bool, sp: word, dpr: word, m: Memory): word {
    var q := AfterPhd(sp, dpr, m);
    var s1 := Word(Down(emul, Word(sp - 1)) + 1);
    Join(q[At(0, s1)], q[At(0, Word(s1 + 1))])
  }

  /** The same for PHD and PLD, with SP below 0x102. */
  lemma DirectReturns(emul: bool, sp: word, dpr: word, m: Memory)
    requires emul ==> 0x100 <= sp <= 0x1ff
    ensures PulledBack(emul, sp, dpr, m) == dpr
            <==> !emul || sp >= 0x102 || (m[sp + 0xff] == Low(dpr) && m[sp + 0x100] == High(dpr))
  {
    hide *;
    if emul && sp < 0x102 {
      DirectStraddles(sp, dpr, m);
    } else {
      DirectStays(emul, sp, dpr, m);
    }
  }

  lemma DirectStraddles(sp: word, dpr: word, m: Memory)
    requires 0x100 <= sp <= 0x101
    ensures PulledBack(true, sp, dpr, m) == dpr <==> m[sp + 0xff] == Low(dpr) && m[sp + 0x100] == High(dpr)
  {
    hide Join, High, Low, Word, Down;
    Astray(sp);
    JoinParts(dpr);
    PartsOfJoin(m[sp + 0xff], m[sp + 0x100]);
  }

  lemma DirectStays(emul: bool, sp: word, dpr: word, m: Memory)
    requires emul ==> 0x102 <= sp <= 0x1ff
    ensures PulledBack(emul, sp, dpr, m) == dpr
  {
    hide At, Join, High, Low, Word, Down, Fixed;
    DirectAddresses(emul, sp);
    Distinct3(sp);
    JoinParts(dpr);
  }

  lemma DirectAlwaysReturns(emul: bool, sp: word, dpr: word) returns (bad: Memory)
    requires emul ==> 0x100 <= sp <= 0x1ff
    ensures (forall m: Memory :: PulledBack(emul, sp, dpr, m) == dpr) <==> !emul || sp >= 0x102
    ensures emul && sp < 0x102 ==> PulledBack(emul, sp, dpr, bad) != dpr
  {
    bad := seq(0x1000000, _ => if Low(dpr) == 0 then 1 else 0);
    DirectReturns(emul, sp, dpr, bad);
    forall m: Memory ensures !emul || sp >= 0x102 ==> PulledBack(emul, sp, dpr, m) == dpr {
      DirectReturns(emul, sp, dpr, m);
    }
    hide PulledBack, Low, High;
  }

  lemma BranchWraps(pc: word, p1: byte)
    ensures Word(Word(pc + 1) + 1) == Word(pc + 2)
    ensures Word(Word(pc + 2) + SignedByte(p1)) == Word(pc + 2 + SignedByte(p1))
  {
  }

  lemma LongBranchWraps(pc: word, to: word)
    ensures Word(Word(pc + 2) + (to + 1)) == Word(pc + 3 + to)
  {
  }

  /** RTL finds the three bytes JSL stored exactly when page one is not straddled; the
      stack pointer comes back either way. */
  lemma LongCallAddresses(emul: bool, sp: word)
    requires emul ==> 0x100 <= sp <= 0x1ff
    ensures var s := Down(emul, Word(Word(sp - 1) - 1));
            && Fixed(emul, Word(Word(Word(s + 1) + 1) + 1)) == sp
            && ((Word(s + 1) == Word(Word(sp - 1) - 1) && Word(Word(s + 1) + 1) == Word(sp - 1)
                 && Word(Word(Word(s + 1) + 1) + 1) == sp) <==> !emul || sp >= 0x103)
  {
    hide Word;
    StepsBack(sp);
    var s := Down(emul, Word(Word(sp - 1) - 1));
    if emul {
      PageOneSteps(sp);
    }
  }

  lemma StepsBack(sp: word)
    ensures Word(Word(sp - 1) + 1) == sp && Word(Word(Word(sp - 1) - 1) + 1) == Word(sp - 1)
    ensures Word(Word(Word(Word(sp - 1) - 1) - 1) + 1) == Word(Word(sp - 1) - 1)
  {
  }

  lemma PageOneSteps(sp: word)
    requires 0x100 <= sp <= 0x1ff
    ensures Word(sp - 1) == sp - 1 && Word(sp - 2) == sp - 2
    ensures forall k :: 0x100 <= k <= 0x202 ==> Word(k) == k
  {
  }

  lemma DirectAddresses(emul: bool, sp: word)
    requires emul ==> 0x100 <= sp <= 0x1ff
    ensures var s := Down(emul, Word(sp - 1));
            && Fixed(emul, Word(Word(s + 1) + 1)) == sp
            && ((Word(s + 1) == Word(sp - 1) && Word(Word(s + 1) + 1) == sp) <==> !emul || sp >= 0x102)
  {
  }

  lemma Distinct3(sp: word)
    ensures At(0, sp) != At(0, Word(sp - 1)) && At(0, sp) != At(0, Word(Word(sp - 1) - 1))
    ensures At(0, Word(sp - 1)) != At(0, Word(Word(sp - 1) - 1))
  {
  }

  lemma JoinParts(w: word)
    ensures Join(Low(w), High(w)) == w
  {
  }

  lemma ReturnAddress(pc: word)
    ensures var ret := Word(pc + 3);
            Word(Join(Low(ret), High(ret)) + 1) == Word(pc + 4)
  {
    hide *;
    JoinParts(Word(pc + 3));
    NextWord(pc, 3);
  }

  lemma NextWord(w: word, k: nat)
    ensures Word(Word(w + k) + 1) == Word(w + k + 1)
  {
  }

  lemma FixedStack(emul: bool, sp: word)
    ensures emul ==> 0x100 <= Fixed(emul, sp) <= 0x1ff
  {
  }

  lemma DownInPageOne(emul: bool, sp: word)
    ensures emul ==> 0x100 <= Down(emul, sp) <= 0x1ff
  {
  }

  lemma UpInPageOne(emul: bool, sp: word)
    ensures emul ==> 0x100 <= Up(emul, sp) <= 0x1ff
  {
  }

  lemma LowFits(v: word)
    ensures Low(v) < 0x100
  {
  }

  lemma FitLaw(v: word)
    ensures Word(v) == v
  {
  }

  lemma StepFits(v: word)
    ensures Low(Word(v + 1)) == Low(v + 1) && Low(Word(v - 1)) == Low(v - 1)
  {
  }

  lemma NextSteps(pc: word)
    ensures Word(Word(pc + 1) + 0) == Word(pc + 1) && Word(Word(Word(pc + 1) + 1) + 0) == Word(pc + 2)
    ensures Word(Word(pc + 1) + 1) == Word(pc + 2)
  {
  }

  lemma HighOfWord(v: word)
    ensures (High(v) == 0 && Low(v) == 0) <==> v == 0
  {
  }

  lemma StackInPageOne(sp: word)
    ensures 0x100 <= Down(true, sp) <= 0x1ff && 0x100 <= Up(true, sp) <= 0x1ff
  {
  }

  lemma OrZero(v: word)
    ensures Or(Low(v), High(v)) == 0 <==> v == 0
  {
  }

  /** None of the first `n` bytes stored falls on the three bytes at `a`. */
  ghost predicate Spares(b: BlockMoves.Move, a: nat, n: nat) {
    Proper(b) && forall k :: 0 <= k < n ==> !(a <= To(b, k) <= a + 2)
  }

  lemma OperandsKept(b: BlockMoves.Move, m: Memory, a: nat, n: nat)
    requires Proper(b) && a + 2 < 0x1000000 && forall k :: 0 <= k < n ==> !(a <= To(b, k) <= a + 2)
    ensures Copied(b, m, n)[a + 1] == m[a + 1] && Copied(b, m, n)[a + 2] == m[a + 2]
  {
    hide To;
    CopiedElsewhere(b, m, n, a + 1);
    CopiedElsewhere(b, m, n, a + 2);
  }

  lemma NextBytes(bank: byte, pc: word)
    ensures pc <= 0xfffd ==> At(bank, Word(pc + 1)) == At(bank, pc) + 1 < 0x1000000 - 1
    ensures pc <= 0xfffd ==> At(bank, Word(Word(pc + 1) + 1)) == At(bank, pc) + 2
    ensures Word(Word(Word(pc + 1) + 1) + 1) == Word(pc + 3)
  {
  }

  lemma ThreeBytesFit(bank: byte, pc: word)
    requires pc <= 0xfffd
    ensures At(bank, pc) + 2 < 0x1000000
  {
  }

  lemma Unstepped(index: word, up: bool, width: int)
    requires IsWidth(width) && index < width
    ensures Stepped(index, up, 0, width) == index
  {
  }

  lemma SteppedOnce(index: word, up: bool, k: nat, width: int)
    requires IsWidth(width)
    ensures Stepped(Stepped(index, up, k, width), up, 1, width) == Stepped(index, up, k + 1, width)
  {
    var n := if up then index + k else index - k;
    if up { StepWraps(n, 1, width); } else { StepWraps(n, -1, width); }
  }

  lemma StepWraps(n: int, d: int, width: int)
    requires IsWidth(width) && (d == 1 || d == -1)
    ensures (n % width + d) % width == (n + d) % width
  {
    if width == 0x100 {} else {}
  }

  lemma Countdown(c: word, k: nat)
    requires k <= c
    ensures Word(Word(c - k) - 1) == Word(c - (k + 1)) && Word(c - k) == c - k && Word(-1) == 0xffff
    ensures k < c ==> Word(c - (k + 1)) == c - (k + 1)
  {
  }

  /** Masking after a 16-bit step is an 8-bit step. */
  lemma NarrowStep(index: word, up: bool)
    ensures index < 0x100 ==> Low(Stepped(index, up, 1, 0x10000)) == Stepped(index, up, 1, 0x100)
  {
  }
}
