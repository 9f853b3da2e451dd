/**
 6510core.c in place: registers, the lazily kept N and Z flags, memory and clock,
 with cycles charged in lumps.  Every macro is proved to do what `CpuModel` says
 on the eager view of the state.
 */
module Core6510s {
  import opened Arithmetic
  import opened CpuModel
  import opened Switch6510

  class Core6510 {
    var a: byte
    var x: byte
    var y: byte
    var sp: byte
    var p: RegP
    var flagN: byte
    var flagZ: byte
    var pc: word
    var ram: Ram
    var clk: nat

    ghost function View(): Cpu
      reads this
    {
      Cpu(a, x, y, sp, Eager(p, flagN, flagZ), pc, ram, clk)
    }

    // ---------------------------------------------------------------- the flags

    method SetNZ(value: byte)
      modifies this`flagN, this`flagZ
      ensures View() == old(View()).(f := NZ(old(View()).f, value))
    {
      flagN, flagZ := value, value;
    }

    /** LOCAL_STATUS: the byte PHP and interrupts push. */
    method LocalStatus() returns (v: byte)
      ensures v == Status(View().f)
    {
      v := LazyStatus(p, flagN, flagZ);
    }

    /** LOCAL_SET_STATUS */
    method LocalSetStatus(v: byte)
      modifies this`p, this`flagN, this`flagZ
      ensures View() == old(View()).(f := FromStatus(v))
    {
      p := RegPOf(v);
      flagZ := if Bit(v, 0x02) then 0 else 1;
      flagN := v;
    }

    // -------------------------------------------------------- addressing modes

    method Load(load: LoadFn, p1: byte, p2: word) returns (v: byte)
      modifies this`clk
      ensures v == Operand(ReadMode(load), old(View()), p1, p2)
      ensures clk + ReadClkInc(ReadMode(load)) == old(clk) + ReadCycles(ReadMode(load), old(View()), p1, p2)
    {
      hide Peek, Low, Word, Join;
      match load
      case Immediate => v := p1;
      case LoadZero => v := PeekZero(ram, p1);
      case LoadZeroX => v := PeekZero(ram, p1 + x);
      case LoadZeroY => v := PeekZero(ram, p1 + y);
      case LoadAbs => v := Peek(ram, p2);
      case LoadAbsX =>
        if Low(p2) + x > 0xff {
          clk := clk + 1;
        }
        v := Peek(ram, p2 + x);
      case LoadAbsY =>
        if Low(p2) + y > 0xff {
          clk := clk + 1;
        }
        v := Peek(ram, p2 + y);
      case LoadIndX =>
        clk := clk + 3;
        var tmpa := Join(PeekZero(ram, p1 + x), PeekZero(ram, p1 + x + 1));
        v := Peek(ram, tmpa);
      case LoadIndY =>
        clk := clk + 2;
        var tmpa := Join(PeekZero(ram, p1), PeekZero(ram, p1 + 1));
        if Low(tmpa) + y > 0xff {
          clk := clk + 1;
        }
        v := Peek(ram, tmpa + y);
    }

    // ------------------------------------------- arithmetic, logic, loads, compares

    method SetAlu(r: Alu)
      modifies this`a, this`p, this`flagN, this`flagZ
      ensures View() == WithAlu(old(View()), r)
    {
      flagZ := if r.zero then 0 else 1;
      flagN := if r.negative then 0x80 else 0;
      p := p.(v := r.overflow, c := r.carry);
      a := r.a as byte;
    }

    method Adc(value: byte)
      modifies this`a, this`p, this`flagN, this`flagZ
      ensures View() == ReadEffect(ADC, old(View()), value)
    {
      hide Adc6510;
      SetAlu(Adc6510(p.d, a as bv8, value as bv8, p.c));
    }

    method Sbc(value: byte)
      modifies this`a, this`p, this`flagN, this`flagZ
      ensures View() == ReadEffect(SBC, old(View()), value)
    {
      hide Sbc6510;
      SetAlu(Sbc6510(p.d, a as bv8, value as bv8, p.c));
    }

    method Arr(value: byte)
      modifies this`a, this`p, this`flagN, this`flagZ
      ensures View() == ReadEffect(ARR, old(View()), value)
    {
      hide Arr6510;
      SetAlu(Arr6510(p.d, a as bv8, value as bv8, p.c));
    }

    method AndA(value: byte)
      modifies this`a, this`flagN, this`flagZ
      ensures View() == ReadEffect(AND, old(View()), value)
    {
      hide And, NZ;
      var tmp := And(a, value);
      a := tmp;
      SetNZ(tmp);
    }

    method Ora(value: byte)
      modifies this`a, this`flagN, this`flagZ
      ensures View() == ReadEffect(ORA, old(View()), value)
    {
      hide Or, NZ;
      var tmp := Or(a, value);
      a := tmp;
      SetNZ(tmp);
    }

    method Eor(value: byte)
      modifies this`a, this`flagN, this`flagZ
      ensures View() == ReadEffect(EOR, old(View()), value)
    {
      hide Xor, NZ;
      var tmp := Xor(a, value);
      a := tmp;
      SetNZ(tmp);
    }

    method Lda(value: byte)
      modifies this`a, this`flagN, this`flagZ
      ensures View() == ReadEffect(LDA, old(View()), value)
    {
      hide NZ;
      a := value;
      SetNZ(a);
    }

    method Ldx(value: byte)
      modifies this`x, this`flagN, this`flagZ
      ensures View() == ReadEffect(LDX, old(View()), value)
    {
      hide NZ;
      x := value;
      SetNZ(x);
    }

    method Ldy(value: byte)
      modifies this`y, this`flagN, this`flagZ
      ensures View() == ReadEffect(LDY, old(View()), value)
    {
      hide NZ;
      y := value;
      SetNZ(y);
    }

    method Lax(value: byte)
      modifies this`a, this`x, this`flagN, this`flagZ
      ensures View() == ReadEffect(LAX, old(View()), value)
    {
      hide NZ;
      x, a := value, value;
      SetNZ(value);
    }

    method Las(value: byte)
      modifies this`a, this`x, this`sp, this`flagN, this`flagZ
      ensures View() == ReadEffect(LAS, old(View()), value)
    {
      hide NZ, And;
      sp := And(sp, value);
      x, a := sp, sp;
      SetNZ(sp);
    }

    method Anc(value: byte)
      modifies this`a, this`p, this`flagN, this`flagZ
      ensures View() == ReadEffect(ANC, old(View()), value)
    {
      hide And;
      var tmp := And(a, value);
      a := tmp;
      SetNZ(tmp);
      p := p.(c := flagN >= 0x80);
    }

    method Asr(value: byte)
      modifies this`a, this`p, this`flagN, this`flagZ
      ensures View() == ReadEffect(ASR, old(View()), value)
    {
      hide And;
      var tmp := And(a, value);
      p := p.(c := Bit(tmp, 1));
      tmp := tmp / 2;
      a := tmp;
      SetNZ(tmp);
    }

    method Ane(value: byte)
      modifies this`a, this`flagN, this`flagZ
      ensures View() == ReadEffect(ANE, old(View()), value)
    {
      hide And, Or, NZ;
      var tmp := And(And(Or(a, ANE_MAGIC), x), value);
      a := tmp;
      SetNZ(tmp);
    }

    method Lxa(value: byte)
      modifies this`a, this`x, this`flagN, this`flagZ
      ensures View() == ReadEffect(LXA, old(View()), value)
    {
      hide And, Or, NZ;
      var tmp := And(Or(a, LXA_MAGIC), value);
      x, a := tmp, tmp;
      SetNZ(tmp);
    }

    method Sbx(value: byte)
      modifies this`x, this`p, this`flagN, this`flagZ
      ensures View() == ReadEffect(SBX, old(View()), value)
    {
      hide And, Low;
      var tmp := And(a, x) - value;
      p := p.(c := tmp >= 0);
      x := Low(tmp);
      SetNZ(x);
    }

    method BitTest(value: byte)
      modifies this`p, this`flagN, this`flagZ
      ensures View() == ReadEffect(BIT, old(View()), value)
    {
      hide And, Bit;
      flagN := if value >= 0x80 then 0x80 else 0;
      p := p.(v := Bit(value, 0x40));
      flagZ := if And(value, a) == 0 then 0 else 1;
    }

    /** CMP, CPX, CPY */
    method Compare(register: byte, value: byte)
      modifies this`p, this`flagN, this`flagZ
      ensures View() == Compared(old(View()), register, value)
    {
      hide Low;
      var tmp := register - value;
      p := p.(c := tmp >= 0);
      SetNZ(Low(tmp));
    }

    method Effect(op: ReadOp, value: byte)
      modifies this`a, this`x, this`y, this`sp, this`p, this`flagN, this`flagZ
      ensures View() == ReadEffect(op, old(View()), value)
    {
      hide Compared, And, WithAlu, WithA, NZ;
      match op
      case ADC => Adc(value);
      case SBC => Sbc(value);
      case ARR => Arr(value);
      case AND => AndA(value);
      case ORA => Ora(value);
      case EOR => Eor(value);
      case LDA => Lda(value);
      case LDX => Ldx(value);
      case LDY => Ldy(value);
      case LAX => Lax(value);
      case LAS => Las(value);
      case ANC => Anc(value);
      case ASR => Asr(value);
      case ANE => Ane(value);
      case LXA => Lxa(value);
      case SBX => Sbx(value);
      case BIT => BitTest(value);
      case CMP => Compare(a, value);
      case CPX => Compare(x, value);
      case CPY => Compare(y, value);
      case NOOP =>
    }

    // ------------------------------------------------------- read-modify-write
    // Each returns what is stored; STORE keeps the low byte of it.

    method Asl(value: byte)
      returns (w: int)
      modifies this`p, this`flagN, this`flagZ
      ensures (View(), Low(w)) == ModifyEffect(ASL, old(View()), value)
    {
      p := p.(c := value >= 0x80);
      w := Low(2 * value);
      SetNZ(w);
    }

    method Dec(value: byte)
      returns (w: int)
      modifies this`flagN, this`flagZ
      ensures (View(), Low(w)) == ModifyEffect(DEC, old(View()), value)
    {
      hide NZ;
      w := Low(value - 1);
      SetNZ(w);
    }

    method Inc(value: byte)
      returns (w: int)
      modifies this`flagN, this`flagZ
      ensures (View(), Low(w)) == ModifyEffect(INC, old(View()), value)
    {
      hide NZ;
      w := Low(value + 1);
      SetNZ(w);
    }

    method Lsr(value: byte)
      returns (w: int)
      modifies this`p, this`flagN, this`flagZ
      ensures (View(), Low(w)) == ModifyEffect(LSR, old(View()), value)
    {
      p := p.(c := Bit(value, 1));
      w := value / 2;
      SetNZ(w);
    }

    method Rol(value: byte)
      returns (w: int)
      modifies this`p, this`flagN, this`flagZ
      ensures (View(), Low(w)) == ModifyEffect(ROL, old(View()), value)
    {
      w := 2 * value + One(p.c);
      p := p.(c := w >= 0x100);
      SetNZ(Low(w));
    }

    method Ror(value: byte)
      returns (w: int)
      modifies this`p, this`flagN, this`flagZ
      ensures (View(), Low(w)) == ModifyEffect(ROR, old(View()), value)
    {
      w := if p.c then value + 0x100 else value;
      p := p.(c := w % 2 == 1);
      w := w / 2;
      SetNZ(w);
    }

    method Dcp(value: byte)
      returns (w: int)
      modifies this`p, this`flagN, this`flagZ
      ensures (View(), Low(w)) == ModifyEffect(DCP, old(View()), value)
    {
      w := Low(value - 1);
      p := p.(c := a >= w);
      SetNZ(Low(a - w));
    }

    method Isb(value: byte)
      returns (w: int)
      modifies this`a, this`p, this`flagN, this`flagZ
      ensures (View(), Low(w)) == ModifyEffect(ISB, old(View()), value)
    {
      hide ReadEffect;
      w := Low(value + 1);
      Sbc(w);
    }

    method Rla(value: byte)
      returns (w: int)
      modifies this`a, this`p, this`flagN, this`flagZ
      ensures (View(), Low(w)) == ModifyEffect(RLA, old(View()), value)
    {
      hide And;
      w := 2 * value + One(p.c);
      p := p.(c := w >= 0x100);
      var tmp2 := And(a, Low(w));
      a := tmp2;
      SetNZ(tmp2);
    }

    method Rra(value: byte)
      returns (w: int)
      modifies this`a, this`p, this`flagN, this`flagZ
      ensures (View(), Low(w)) == ModifyEffect(RRA, old(View()), value)
    {
      hide ReadEffect;
      w := value / 2 + 0x80 * One(p.c);
      p := p.(c := Bit(value, 1));
      Adc(w);
    }

    method Slo(value: byte)
      returns (w: int)
      modifies this`a, this`p, this`flagN, this`flagZ
      ensures (View(), Low(w)) == ModifyEffect(SLO, old(View()), value)
    {
      hide Or, NZ, Low;
      p := p.(c := value >= 0x80);
      w := Low(2 * value);
      LowLow(2 * value);
      var tmp2 := Or(a, w);
      a := tmp2;
      SetNZ(tmp2);
    }

    method Sre(value: byte)
      returns (w: int)
      modifies this`a, this`p, this`flagN, this`flagZ
      ensures (View(), Low(w)) == ModifyEffect(SRE, old(View()), value)
    {
      hide Xor, NZ, Bit;
      p := p.(c := Bit(value, 1));
      w := value / 2;
      var tmp2 := Xor(a, w);
      a := tmp2;
      SetNZ(tmp2);
    }

    method ModifyValue(op: ModifyOp, value: byte)
      returns (w: int)
      modifies this`a, this`p, this`flagN, this`flagZ
      ensures (View(), Low(w)) == ModifyEffect(op, old(View()), value)
    {
      hide ModifyEffect, Low;
      match op
      case ASL => w := Asl(value);
      case DEC => w := Dec(value);
      case INC => w := Inc(value);
      case LSR => w := Lsr(value);
      case ROL => w := Rol(value);
      case ROR => w := Ror(value);
      case DCP => w := Dcp(value);
      case ISB => w := Isb(value);
      case RLA => w := Rla(value);
      case RRA => w := Rra(value);
      case SLO => w := Slo(value);
      case SRE => w := Sre(value);
    }

    // --------------------------------------------------------------------- stores

    method Argument(addr: AddrArg, p1: byte, p2: word) returns (n: int)
      ensures n == ArgumentOf(addr, x, y, ram, p1, p2)
    {
      match addr
      case P1 => n := p1;
      case P1X => n := p1 + x;
      case P1Y => n := p1 + y;
      case P1XMasked => n := Low(p1 + x);
      case P1YMasked => n := Low(p1 + y);
      case P2 => n := p2;
      case ZeroIndX => n := PeekZeroWord(ram, p1 + x);
    }

    method StoreAt(store: StoreFn, n: int, value: int, clkInc: nat)
      modifies this`ram, this`clk
      ensures View() == old(View()).(ram := Poke(old(ram), Target(store, n, x, y), value), clk := old(clk) + clkInc)
    {
      hide Poke, Low;
      clk := clk + clkInc;
      match store
      case StoreZero => ram := Poke(ram, Low(n), value);
      case StoreAbs => ram := Poke(ram, n, value);
      case StoreAbsX | StoreAbsXRmw => ram := Poke(ram, n + x, value);
      case StoreAbsY | StoreAbsYRmw => ram := Poke(ram, n + y, value);
    }

    method Register(op: WriteOp) returns (v: byte)
      ensures v == Written(op, View())
    {
      match op
      case STA => v := a;
      case STX => v := x;
      case STY => v := y;
      case SAX => v := And(a, x);
    }

    /** STA, STX, STY, SAX and their zero page forms */
    method WriteInstruction(op: WriteOp, addr: AddrArg, clkInc1: nat, store: StoreFn, clkInc2: nat, pcInc: nat,
                            p1: byte, p2: word, ghost mode: Mode)
      requires WriteMode(addr, store) == In(mode) && pcInc == Size(mode)
      requires clkInc1 + clkInc2 == WriteCycles(mode)
      modifies this`pc, this`ram, this`clk
      ensures View() == Exec(Write(op, mode), old(View()), p1, p2)
    {
      hide WriteMode, WriteCycles, Size, Poke, Address, Word, ArgumentOf, Target;
      WriteTarget(addr, store, View(), p1, p2);
      clk := clk + clkInc1;
      var tmp := Argument(addr, p1, p2);
      pc := Word(pc + pcInc);
      var v := Register(op);
      StoreAt(store, tmp, v, clkInc2);
    }

    method StaIndirectY(p1: byte, ghost p2: word)
      modifies this`pc, this`ram, this`clk
      ensures View() == Exec(Write(STA, IndY), old(View()), p1, p2)
    {
      hide Poke, Word, Peek;
      clk := clk + 2;
      var tmp := PeekZeroWord(ram, p1);
      clk := clk + 2;
      pc := Word(pc + 2);
      assert Address(IndY, old(View()), p1, p2) == tmp + y;
      ram := Poke(ram, tmp + y, a);
    }

    /** STORE_ABS_SH_X and STORE_ABS_SH_Y */
    method StoreHigh(addr: word, index: byte, value: byte, clkInc: nat)
      modifies this`ram, this`clk
      ensures clk == old(clk) + clkInc
      ensures ram == Poke(old(ram), if Crosses(addr, index) then Join(Low(addr + index), value) else addr + index, value)
    {
      hide Poke, Join, Low;
      clk := clk + clkInc;
      var tmp2: int := addr + index;
      if Low(addr) + index > 0xff {
        tmp2 := Join(Low(tmp2), value);
      }
      ram := Poke(ram, tmp2, value);
    }

    /** SHA_ABS_Y, SHX_ABS_Y, SHY_ABS_X, SHS_ABS_Y */
    method ShAbsolute(op: ShOp, ghost p1: byte, p2: word)
      modifies this`sp, this`pc, this`ram, this`clk
      ensures View() == Exec(WriteHigh(op, if op.SHY? then AbsX else AbsY), old(View()), p1, p2)
    {
      hide Poke, Word, Join, Low, High, And;
      pc := Word(pc + 3);
      var high := Low(High(p2) + 1);
      match op
      case SHA => StoreHigh(p2, y, And(And(a, x), high), 2);
      case SHX => StoreHigh(p2, y, And(x, high), 2);
      case SHY => StoreHigh(p2, x, And(y, high), 2);
      case SHS =>
        StoreHigh(p2, y, And(And(a, x), high), 2);
        sp := And(a, x);
    }

    method ShaIndirectY(p1: byte, ghost p2: word)
      modifies this`pc, this`ram, this`clk
      ensures View() == Exec(WriteHigh(SHA, IndY), old(View()), p1, p2)
    {
      hide Poke, Word, Join, Low, High, And, Peek;
      clk := clk + 2;
      var tmp: int := PeekZeroWord(ram, p1);
      clk := clk + 2;
      var val := And(And(a, x), Low(High(tmp) + 1));
      if Low(tmp) + y > 0xff {
        tmp := Join(Low(tmp + y), val);
      } else {
        tmp := tmp + y;
      }
      pc := Word(pc + 2);
      ram := Poke(ram, tmp, val);
    }

    // -------------------------------------------------------- whole instructions

    method ReadInstruction(op: ReadOp, load: LoadFn, clkInc: nat, pcInc: nat, p1: byte, p2: word, ghost mode: Mode)
      requires ReadMode(load) == mode && clkInc == ReadClkInc(mode) && pcInc == Size(mode)
      modifies this`a, this`x, this`y, this`sp, this`p, this`flagN, this`flagZ, this`pc, this`clk
      ensures View() == Exec(Read(op, mode), old(View()), p1, p2)
    {
      hide ReadMode, ReadClkInc, Size, ReadEffect, Operand, ReadCycles, Word;
      var value := Load(load, p1, p2);
      ghost var s := View();
      Effect(op, value);
      ReadEffectFrame(op, old(View()), value, s.clk);
      clk := clk + clkInc;
      pc := Word(pc + pcInc);
    }

    method LoadFrom(from: ModifyLoad, n: int) returns (v: byte)
      modifies this`clk
      ensures v == Peek(ram, Source(from, n, x, y))
      ensures clk == old(clk) + LoadCycle(from)
    {
      hide Peek, Low;
      match from
      case FromZero => v := Peek(ram, Low(n));
      case FromAbs => v := Peek(ram, n);
      case FromAbsX => clk := clk + 1; v := Peek(ram, n + x);
      case FromAbsY => clk := clk + 1; v := Peek(ram, n + y);
    }

    method ModifyInstruction(op: ModifyOp, addr: AddrArg, clkInc1: nat, from: ModifyLoad, store: StoreFn, clkInc2: nat,
                             pcInc: nat, p1: byte, p2: word, ghost mode: Mode)
      requires ModifyMode(addr, from, store) == In(mode) && pcInc == Size(mode)
      requires clkInc1 + LoadCycle(from) + clkInc2 == ModifyCycles(mode)
      modifies this`a, this`p, this`flagN, this`flagZ, this`pc, this`ram, this`clk
      ensures View() == Exec(Modify(op, mode), old(View()), p1, p2)
    {
      hide ModifyMode, ModifyCycles, Size, LoadCycle, ModifyEffect, Peek, Poke, Address, Low, Word, ArgumentOf, Target, Source;
      ModifyTarget(addr, from, store, View(), p1, p2);
      var n := Argument(addr, p1, p2);
      clk := clk + clkInc1;
      var value := LoadFrom(from, n);
      ghost var s := View();
      var w := ModifyValue(op, value);
      ModifyEffectFrame(op, old(View()), value);
      ModifyEffectClock(op, old(View()), value, s.clk);
      pc := Word(pc + pcInc);
      PokeLow(ram, Target(store, n, x, y), w);
      StoreAt(store, n, w, clkInc2);
    }

    /** DCP_IND_Y, ISB_IND_Y, RLA_IND_Y, RRA_IND_Y, SLO_IND_Y, SRE_IND_Y */
    method ModifyIndirectY(op: ModifyOp, p1: byte, ghost p2: word)
      modifies this`a, this`p, this`flagN, this`flagZ, this`pc, this`ram, this`clk
      ensures View() == Exec(Modify(op, IndY), old(View()), p1, p2)
    {
      hide ModifyEffect, Peek, Poke, Low, Word;
      var tmpAddr: int := PeekZeroWord(ram, p1);
      clk := clk + 2;
      clk := clk + 1;
      tmpAddr := tmpAddr + y;
      var value := Peek(ram, tmpAddr);
      ghost var s := View();
      var w := ModifyValue(op, value);
      ModifyEffectFrame(op, old(View()), value);
      ModifyEffectClock(op, old(View()), value, s.clk);
      pc := Word(pc + 2);
      PokeLow(ram, tmpAddr, w);
      StoreAt(StoreAbs, tmpAddr, w, 3);
    }

    // ------------------------------------------- one-byte instructions and branches

    method AslA()
      modifies this`a, this`p, this`flagN, this`flagZ
      ensures View() == ImpliedEffect(ASL_A, old(View()))
    {
      var tmp: int := a;
      p := p.(c := tmp >= 0x80);
      tmp := Low(2 * tmp);
      a := tmp;
      SetNZ(tmp);
    }

    method LsrA()
      modifies this`a, this`p, this`flagN, this`flagZ
      ensures View() == ImpliedEffect(LSR_A, old(View()))
    {
      var tmp := a;
      p := p.(c := Bit(tmp, 1));
      tmp := tmp / 2;
      a := tmp;
      SetNZ(tmp);
    }

    method RolA()
      modifies this`a, this`p, this`flagN, this`flagZ
      ensures View() == ImpliedEffect(ROL_A, old(View()))
    {
      var tmp: int := 2 * a + One(p.c);
      a := Low(tmp);
      SetNZ(Low(tmp));
      p := p.(c := tmp >= 0x100);
    }

    method RorA()
      modifies this`a, this`p, this`flagN, this`flagZ
      ensures View() == ImpliedEffect(ROR_A, old(View()))
    {
      var tmp := a;
      var tmp2 := tmp / 2 + 0x80 * One(p.c);
      p := p.(c := Bit(tmp, 1));
      a := tmp2;
      SetNZ(tmp2);
    }

    /** CLC, CLD, CLI, CLV, SEC, SED, SEI */
    method SetOrClear(op: ImpliedOp)
      requires op.CLC? || op.CLD? || op.CLI? || op.CLV? || op.SEC? || op.SED? || op.SEI?
      modifies this`p
      ensures View() == ImpliedEffect(op, old(View()))
    {
      match op
      case CLC => p := p.(c := false);
      case CLD => p := p.(d := false);
      case CLI => p := p.(i := false);
      case CLV => p := p.(v := false);
      case SEC => p := p.(c := true);
      case SED => p := p.(d := true);
      case SEI => p := p.(i := true);
    }

    /** DEX, INX, TAX, TSX */
    method TransferX(op: ImpliedOp)
      requires op.DEX? || op.INX? || op.TAX? || op.TSX?
      modifies this`x, this`flagN, this`flagZ
      ensures View() == ImpliedEffect(op, old(View()))
    {
      hide NZ, Low;
      match op
      case DEX => x := Low(x - 1); SetNZ(x);
      case INX => x := Low(x + 1); SetNZ(x);
      case TAX => x := a; SetNZ(x);
      case TSX => x := sp; SetNZ(sp);
    }

    /** DEY, INY, TAY */
    method TransferY(op: ImpliedOp)
      requires op.DEY? || op.INY? || op.TAY?
      modifies this`y, this`flagN, this`flagZ
      ensures View() == ImpliedEffect(op, old(View()))
    {
      hide NZ, Low;
      match op
      case DEY => y := Low(y - 1); SetNZ(y);
      case INY => y := Low(y + 1); SetNZ(y);
      case TAY => y := a; SetNZ(y);
    }

    /** TXA, TYA, TXS, NOP */
    method Transfer(op: ImpliedOp)
      requires op.TXA? || op.TXS? || op.TYA? || op.NOP?
      modifies this`a, this`sp, this`flagN, this`flagZ
      ensures View() == ImpliedEffect(op, old(View()))
    {
      hide NZ, Low;
      match op
      case TXA => a := x; SetNZ(x);
      case TYA => a := y; SetNZ(y);
      case TXS => sp := x;
      case NOP =>
    }

    method ImpliedInstruction(op: ImpliedOp, ghost p1: byte, ghost p2: word)
      modifies this`a, this`x, this`y, this`sp, this`p, this`flagN, this`flagZ, this`pc
      ensures View() == Exec(Implied(op), old(View()), p1, p2)
    {
      hide ImpliedEffect, Word;
      match op {
        case ASL_A => AslA();
        case LSR_A => LsrA();
        case ROL_A => RolA();
        case ROR_A => RorA();
        case CLC | CLD | CLI | CLV | SEC | SED | SEI => SetOrClear(op);
        case DEX | INX | TAX | TSX => TransferX(op);
        case DEY | INY | TAY => TransferY(op);
        case TXA | TXS | TYA | NOP => Transfer(op);
      }
      pc := Word(pc + 1);
    }

    method Branch(cond: Condition, p1: byte, ghost p2: word)
      modifies this`pc, this`clk
      ensures View() == Exec(Instruction.Branch(cond), old(View()), p1, p2)
    {
      hide Word, High, Signed;
      pc := Word(pc + 2);
      if Holds(cond, Flags(flagN >= 0x80, p.v, p.b, p.d, p.i, flagZ == 0, p.c)) {
        var destAddr := Word(pc + Signed(p1));
        clk := clk + 1;
        if High(pc) != High(destAddr) {
          clk := clk + 1;
        }
        pc := destAddr;
      }
    }

    // ------------------------------------------------------------- stack and flow

    method PushByte(v: byte)
      modifies this`ram, this`sp
      ensures View() == Push(old(View()), v)
    {
      ram := Poke(ram, 0x100 + sp, v);
      sp := Low(sp - 1);
    }

    /** The program counter and the status, as BRK and interrupts save them. */
    method PushFrame()
      modifies this`ram, this`sp, this`clk
      ensures View() == Push(PushWord(old(View()), pc), Status(old(View()).f)).(clk := old(clk) + 3)
    {
      hide Word, Low, High, Poke, Status;
      PushByte(High(pc));
      PushByte(Low(pc));
      clk := clk + 2;
      var status := LocalStatus();
      PushByte(status);
      clk := clk + 1;
    }

    method PullByte() returns (v: byte)
      modifies this`sp
      ensures View() == Pulled(old(View())) && v == Top(old(View()))
    {
      sp := Low(sp + 1);
      v := Peek(ram, 0x100 + sp);
    }

    method Jmp(p2: word)
      modifies this
      ensures View() == FlowEffect(JMP, old(View()), 0, p2)
    {
      hide Word;
      pc := p2;
    }

    method JmpInd(p2: word)
      modifies this
      ensures View() == FlowEffect(JMP_IND, old(View()), 0, p2)
    {
      hide Word, Low, High, Peek, Join;
      var lo := Peek(ram, p2);
      clk := clk + 1;
      var hi := Peek(ram, Join(Low(p2 + 1), High(p2)));
      clk := clk + 1;
      pc := Join(lo, hi);
    }

    method Jsr(p1: byte)
      modifies this
      ensures View() == FlowEffect(JSR, old(View()), p1, 0)
    {
      hide Word, Low, High, Peek, Poke, Join;
      clk := clk + 1;
      pc := Word(pc + 2);
      clk := clk + 2;
      PushByte(High(pc));
      PushByte(Low(pc));
      var addrMsb := Peek(ram, pc);
      PeekWrapped(ram, old(pc) + 2);
      clk := clk + 1;
      pc := Join(p1, addrMsb);
    }

    method Rts()
      modifies this
      ensures View() == FlowEffect(RTS, old(View()), 0, 0)
    {
      hide Word, Low, Peek, Join;
      clk := clk + 3;
      var lo := PullByte();
      var hi := PullByte();
      pc := Join(lo, hi);
      clk := clk + 1;
      pc := Word(pc + 1);
    }

    method Rti()
      modifies this
      ensures View() == FlowEffect(RTI, old(View()), 0, 0)
    {
      hide Word, Low, Peek, Join, FromStatus;
      clk := clk + 4;
      var status := PullByte();
      LocalSetStatus(status);
      var lo := PullByte();
      var hi := PullByte();
      pc := Join(lo, hi);
    }

    method Brk()
      modifies this
      ensures View() == FlowEffect(BRK, old(View()), 0, 0)
    {
      hide Word, Low, High, Peek, Poke, Status;
      pc := Word(pc + 2);
      p := p.(b := true);
      PushFrame();
      p := p.(i := true);
      pc := PeekWord(ram, 0xfffe);
      clk := clk + 2;
    }

    method Pha()
      modifies this
      ensures View() == FlowEffect(PHA, old(View()), 0, 0)
    {
      hide Word, Low, Poke;
      clk := clk + 1;
      PushByte(a);
      pc := Word(pc + 1);
    }

    method Php()
      modifies this
      ensures View() == FlowEffect(PHP, old(View()), 0, 0)
    {
      hide Word, Low, Poke, Status, WithBit;
      clk := clk + 1;
      var status := LocalStatus();
      StatusBreak(View().f);
      PushByte(WithBit(status, 0x10));
      pc := Word(pc + 1);
    }

    method Pla()
      modifies this
      ensures View() == FlowEffect(PLA, old(View()), 0, 0)
    {
      hide Word, Low, Peek, NZ;
      clk := clk + 2;
      var tmp := PullByte();
      a := tmp;
      SetNZ(tmp);
      pc := Word(pc + 1);
    }

    method Plp()
      modifies this
      ensures View() == FlowEffect(PLP, old(View()), 0, 0)
    {
      hide Word, Low, Peek, FromStatus;
      var status := PullByte();
      clk := clk + 2;
      LocalSetStatus(status);
      pc := Word(pc + 1);
    }

    /** DO_INTERRUPT for an IRQ or NMI that is taken. */
    method Interrupt(vector: word)
      modifies this
      ensures View() == Interrupted(old(View()), false, vector).(clk := old(clk) + 7)
    {
      hide Word, Low, High, Peek, Poke, Status;
      clk := clk + 2;
      p := p.(b := false);
      PushFrame();
      p := p.(i := true);
      pc := PeekWord(ram, vector);
      clk := clk + 2;
    }

    method FlowInstruction(op: FlowOp, p1: byte, p2: word)
      modifies this
      ensures View() == Exec(Flow(op), old(View()), p1, p2)
    {
      hide Push, PushWord, Pulled, PulledWord, Interrupted, Peek, Join, FromStatus, Status, Top, Word, Low, High;
      match op
      case BRK => Brk();
      case JMP => Jmp(p2);
      case JMP_IND => JmpInd(p2);
      case JSR => Jsr(p1);
      case RTI => Rti();
      case RTS => Rts();
      case PHA => Pha();
      case PHP => Php();
      case PLA => Pla();
      case PLP => Plp();
    }

    // ------------------------------------------------------------------ the switch

    /** One arm of the opcode switch. */
    method Execute(opcode: byte, p1: byte, p2: word)
      requires Meaning(Switch(opcode)).Does?
      modifies this
      ensures View() == Exec(Meaning(Switch(opcode)).instruction, old(View()), p1, p2)
    {
      hide Exec, Switch, WriteMode, ModifyMode, WriteCycles, ModifyCycles, IndirectClk, WriteClk, ModifyClk, LoadCycle, Size;
      match Switch(opcode)
      case ReadArm(op, load, clkInc, pcInc) =>
        ReadInstruction(op, load, clkInc, pcInc, p1, p2, ReadMode(load));
      case WriteArm(op, addr, clkInc1, store, clkInc2, pcInc) =>
        ClkAddsUp(addr, FromAbs, store);
        WriteInstruction(op, addr, clkInc1, store, clkInc2, pcInc, p1, p2, WriteMode(addr, store).mode);
      case StaIndY => StaIndirectY(p1, p2);
      case ShAbs(op) => ShAbsolute(op, p1, p2);
      case ShaIndY => ShaIndirectY(p1, p2);
      case ModifyArm(op, addr, clkInc1, from, store, clkInc2, pcInc) =>
        ClkAddsUp(addr, from, store);
        ModifyInstruction(op, addr, clkInc1, from, store, clkInc2, pcInc, p1, p2, ModifyMode(addr, from, store).mode);
      case ModifyIndY(op) => ModifyIndirectY(op, p1, p2);
      case ImpliedArm(op) => ImpliedInstruction(op, p1, p2);
      case BranchArm(cond) => Branch(cond, p1, p2);
      case FlowArm(op) => FlowInstruction(op, p1, p2);
    }
  }
}
