/**
 6510dtvcore.c in place: the same instruction set written again, with the clock
 advanced at every memory access.  Cycle skipping is off.  Every macro is proved
 to do what `CpuModel` says on the eager view of the state.
 */
module CoreDtvs {
  import opened Arithmetic
  import opened CpuModel
  import opened SwitchDtv

  class CoreDtv {
    var a: byte
    var x: byte
    var y: byte
    var sp: byte
    var p: RegP
    var flagN: byte
    var flagZ: byte
    var pc: word
    var ram: Ram
    var clk: nat

    ghost function View(): Cpu
      reads this
    {
      Cpu(a, x, y, sp, Eager(p, flagN, flagZ), pc, ram, clk)
    }

    // ---------------------------------------------------------------- the flags

    method SetNZ(value: byte)
      modifies this`flagN, this`flagZ
      ensures View() == old(View()).(f := NZ(old(View()).f, value))
    {
      flagN, flagZ := value, value;
    }

    /** LOCAL_STATUS: the byte PHP and interrupts push. */
    method LocalStatus() returns (v: byte)
      ensures v == Status(View().f)
    {
      v := LazyStatus(p, flagN, flagZ);
    }

    /** LOCAL_SET_STATUS */
    method LocalSetStatus(v: byte)
      modifies this`p, this`flagN, this`flagZ
      ensures View() == old(View()).(f := FromStatus(v))
    {
      p := RegPOf(v);
      flagZ := if Bit(v, 0x02) then 0 else 1;
      flagN := v;
    }

    // -------------------------------------------------------- addressing modes

    method ClkInc()
      modifies this`clk
      ensures clk == old(clk) + 1
    {
      clk := clk + 1;
    }

    /** INT_ABS_I_R, then the read */
    method GetAbsIndexed(index: byte, p2: word) returns (dest: byte)
      modifies this`clk
      ensures dest == Peek(ram, p2 + index) && clk == old(clk) + 1 + One(Crosses(p2, index))
    {
      hide Peek, Low;
      if Low(p2) + index > 0xff {
        ClkInc();
      }
      dest := Peek(ram, p2 + index);
      ClkInc();
    }

    /** INT_IND_X: the address, after three accesses */
    method IntIndX(p1: byte) returns (addr: word)
      modifies this`clk
      ensures addr == PeekZeroWord(ram, p1 + x) && clk == old(clk) + 3
    {
      ClkInc();
      var tmpa: int := Low(p1 + x);
      var lo := PeekZero(ram, tmpa);
      ClkInc();
      tmpa := Low(tmpa + 1);
      var hi := PeekZero(ram, tmpa);
      ClkInc();
      addr := Join(lo, hi);
    }

    /** INT_IND_Y_R (`always` false) and INT_IND_Y_W (`always` true) */
    method IntIndY(p1: byte, always: bool) returns (addr: word)
      modifies this`clk
      ensures var base := PeekZeroWord(ram, p1);
              addr == Word(base + y) && clk == old(clk) + 2 + One(always || Crosses(base, y))
    {
      hide Peek, Low, Word, Join;
      var lo := PeekZero(ram, p1);
      ClkInc();
      var hi := PeekZero(ram, p1 + 1);
      ClkInc();
      var tmpa := Join(lo, hi);
      if always || Low(tmpa) + y > 0xff {
        ClkInc();
      }
      addr := Word(tmpa + y);
    }

    method Get(get: GetFn, p1: byte, p2: word, ghost mode: Mode) returns (dest: byte)
      requires ReadMode(get) == In(mode)
      modifies this`clk
      ensures dest == Operand(mode, old(View()), p1, p2)
      ensures clk == old(clk) + ReadCycles(mode, old(View()), p1, p2)
    {
      hide Peek, Low, Word, Join;
      match get
      case GetImm => dest := p1;
      case GetZero => dest := PeekZero(ram, p1); ClkInc();
      case GetZeroX => ClkInc(); dest := PeekZero(ram, p1 + x); ClkInc();
      case GetZeroY => ClkInc(); dest := PeekZero(ram, p1 + y); ClkInc();
      case GetAbs => dest := Peek(ram, p2); ClkInc();
      case GetAbsX => dest := GetAbsIndexed(x, p2);
      case GetAbsY => dest := GetAbsIndexed(y, p2);
      case GetIndX => var addr := IntIndX(p1); dest := Peek(ram, addr); ClkInc();
      case GetIndY =>
        var addr := IntIndY(p1, false);
        PeekWrapped(ram, PeekZeroWord(ram, p1) + y);
        dest := Peek(ram, addr);
        ClkInc();
    }

    /** Reads for read-modify-write; `addr` is what SET_IND_RMW writes back to. */
    method GetRmw(get: GetFn, p1: byte, p2: word, ghost set_: SetFn, ghost mode: Mode) returns (dest: byte, addr: word)
      requires ModifyMode(get, set_) == In(mode)
      modifies this`clk
      ensures dest == Peek(ram, Address(mode, old(View()), p1, p2))
      ensures clk + 2 == old(clk) + ModifyCycles(mode)
      ensures mode.IndX? || mode.IndY? ==> addr == Word(Address(mode, old(View()), p1, p2))
    {
      hide Peek, Low, Join;
      addr := 0;
      match get
      case GetZero => dest := PeekZero(ram, p1); ClkInc();
      case GetZeroX => ClkInc(); dest := PeekZero(ram, p1 + x); ClkInc();
      case GetAbs => dest := Peek(ram, p2); ClkInc();
      case GetAbsXRmw => ClkInc(); dest := Peek(ram, p2 + x); ClkInc();
      case GetAbsYRmw => ClkInc(); dest := Peek(ram, p2 + y); ClkInc();
      case GetIndX => addr := IntIndX(p1); dest := Peek(ram, addr); ClkInc();
      case GetIndYRmw =>
        addr := IntIndY(p1, true);
        PeekWrapped(ram, PeekZeroWord(ram, p1) + y);
        dest := Peek(ram, addr);
        ClkInc();
    }

    method Set(set_: SetFn, value: byte, p1: byte, p2: word, ghost mode: Mode)
      requires WriteMode(set_) == In(mode)
      modifies this`ram, this`clk
      ensures View() == old(View()).(ram := Poke(old(ram), Address(mode, old(View()), p1, p2), value),
                                     clk := old(clk) + WriteCycles(mode))
    {
      hide Peek, Poke, Low, Word, Join;
      match set_
      case SetZero => ram := Poke(ram, Low(p1), value); ClkInc();
      case SetZeroX => ClkInc(); ram := Poke(ram, Low(p1 + x), value); ClkInc();
      case SetZeroY => ClkInc(); ram := Poke(ram, Low(p1 + y), value); ClkInc();
      case SetAbs => ram := Poke(ram, p2, value); ClkInc();
      case SetAbsX => ClkInc(); ram := Poke(ram, p2 + x, value); ClkInc();
      case SetAbsY => ClkInc(); ram := Poke(ram, p2 + y, value); ClkInc();
      case SetIndX => var addr := IntIndX(p1); ram := Poke(ram, addr, value); ClkInc();
      case SetIndY =>
        var addr := IntIndY(p1, true);
        PokeWrapped(ram, PeekZeroWord(ram, p1) + y, value);
        ram := Poke(ram, addr, value);
        ClkInc();
    }

    method SetRmw(set_: SetFn, value: int, addr: word, p1: byte, p2: word, ghost get: GetFn, ghost mode: Mode)
      requires ModifyMode(get, set_) == In(mode)
      requires mode.IndX? || mode.IndY? ==> addr == Word(Address(mode, View(), p1, p2))
      modifies this`ram, this`clk
      ensures View() == old(View()).(ram := Poke(old(ram), Address(mode, old(View()), p1, p2), value), clk := old(clk) + 2)
    {
      hide Peek, Poke, Low, Word, Join;
      PokeWrapped(ram, Address(mode, View(), p1, p2), value);
      ClkInc();
      match set_ {
        case SetZeroRmw => ram := Poke(ram, Low(p1), value);
        case SetZeroXRmw => ram := Poke(ram, Low(p1 + x), value);
        case SetAbsRmw => ram := Poke(ram, p2, value);
        case SetAbsXRmw => ram := Poke(ram, p2 + x, value);
        case SetAbsYRmw => ram := Poke(ram, p2 + y, value);
        case SetIndRmw => ram := Poke(ram, addr, value);
      }
      ClkInc();
    }

    // ------------------------------------------- arithmetic, logic, loads, compares

    method SetAlu(r: Alu)
      modifies this`a, this`p, this`flagN, this`flagZ
      ensures View() == WithAlu(old(View()), r)
    {
      flagZ := if r.zero then 0 else 1;
      flagN := if r.negative then 0x80 else 0;
      p := p.(v := r.overflow, c := r.carry);
      a := r.a as byte;
    }

    method Adc(value: byte)
      modifies this`a, this`p, this`flagN, this`flagZ
      ensures View() == ReadEffect(ADC, old(View()), value)
    {
      hide Adc6510;
      SetAlu(Adc6510(p.d, a as bv8, value as bv8, p.c));
    }

    method Sbc(value: byte)
      modifies this`a, this`p, this`flagN, this`flagZ
      ensures View() == ReadEffect(SBC, old(View()), value)
    {
      hide Sbc6510;
      SetAlu(Sbc6510(p.d, a as bv8, value as bv8, p.c));
    }

    method Arr(value: byte)
      modifies this`a, this`p, this`flagN, this`flagZ
      ensures View() == ReadEffect(ARR, old(View()), value)
    {
      hide Arr6510;
      SetAlu(Arr6510(p.d, a as bv8, value as bv8, p.c));
    }

    method AndA(value: byte)
      modifies this`a, this`flagN, this`flagZ
      ensures View() == ReadEffect(AND, old(View()), value)
    {
      hide And, NZ;
      a := And(a, value);
      SetNZ(a);
    }

    method Ora(value: byte)
      modifies this`a, this`flagN, this`flagZ
      ensures View() == ReadEffect(ORA, old(View()), value)
    {
      hide Or, NZ;
      a := Or(a, value);
      SetNZ(a);
    }

    method Eor(value: byte)
      modifies this`a, this`flagN, this`flagZ
      ensures View() == ReadEffect(EOR, old(View()), value)
    {
      hide Xor, NZ;
      a := Xor(a, value);
      SetNZ(a);
    }

    method Lda(value: byte)
      modifies this`a, this`flagN, this`flagZ
      ensures View() == ReadEffect(LDA, old(View()), value)
    {
      hide NZ;
      a := value;
      SetNZ(a);
    }

    method Ldx(value: byte)
      modifies this`x, this`flagN, this`flagZ
      ensures View() == ReadEffect(LDX, old(View()), value)
    {
      hide NZ;
      x := value;
      SetNZ(x);
    }

    method Ldy(value: byte)
      modifies this`y, this`flagN, this`flagZ
      ensures View() == ReadEffect(LDY, old(View()), value)
    {
      hide NZ;
      y := value;
      SetNZ(y);
    }

    method Lax(value: byte)
      modifies this`a, this`x, this`flagN, this`flagZ
      ensures View() == ReadEffect(LAX, old(View()), value)
    {
      hide NZ;
      x := value;
      a := x;
      SetNZ(a);
    }

    method Las(value: byte)
      modifies this`a, this`x, this`sp, this`flagN, this`flagZ
      ensures View() == ReadEffect(LAS, old(View()), value)
    {
      hide NZ, And;
      sp := And(sp, value);
      x := sp;
      a := x;
      SetNZ(a);
    }

    method Anc(value: byte)
      modifies this`a, this`p, this`flagN, this`flagZ
      ensures View() == ReadEffect(ANC, old(View()), value)
    {
      hide And;
      a := And(a, value);
      SetNZ(a);
      p := p.(c := flagN >= 0x80);
    }

    method Asr(value: byte)
      modifies this`a, this`p, this`flagN, this`flagZ
      ensures View() == ReadEffect(ASR, old(View()), value)
    {
      hide And;
      var tmp := And(a, value);
      p := p.(c := Bit(tmp, 1));
      a := tmp / 2;
      SetNZ(a);
    }

    method Ane(value: byte)
      modifies this`a, this`flagN, this`flagZ
      ensures View() == ReadEffect(ANE, old(View()), value)
    {
      hide And, Or, NZ;
      a := And(And(Or(a, ANE_MAGIC), x), value);
      SetNZ(a);
    }

    method Lxa(value: byte)
      modifies this`a, this`x, this`flagN, this`flagZ
      ensures View() == ReadEffect(LXA, old(View()), value)
    {
      hide And, Or, NZ;
      x := And(Or(a, LXA_MAGIC), value);
      a := x;
      SetNZ(a);
    }

    method Sbx(value: byte)
      modifies this`x, this`p, this`flagN, this`flagZ
      ensures View() == ReadEffect(SBX, old(View()), value)
    {
      hide And, Low;
      var tmp := And(a, x) - value;
      p := p.(c := tmp >= 0);
      x := Low(tmp);
      SetNZ(x);
    }

    method BitTest(value: byte)
      modifies this`p, this`flagN, this`flagZ
      ensures View() == ReadEffect(BIT, old(View()), value)
    {
      hide And, Bit;
      flagN := if value >= 0x80 then 0x80 else 0;
      p := p.(v := Bit(value, 0x40));
      flagZ := if And(value, a) == 0 then 0 else 1;
    }

    /** CMP, CPX, CPY */
    method Compare(register: byte, value: byte)
      modifies this`p, this`flagN, this`flagZ
      ensures View() == Compared(old(View()), register, value)
    {
      hide Low;
      var tmp := register - value;
      p := p.(c := tmp >= 0);
      SetNZ(Low(tmp));
    }

    method Effect(op: ReadOp, value: byte)
      modifies this`a, this`x, this`y, this`sp, this`p, this`flagN, this`flagZ
      ensures View() == ReadEffect(op, old(View()), value)
    {
      hide Compared, And, WithAlu, WithA, NZ;
      match op
      case ADC => Adc(value);
      case SBC => Sbc(value);
      case ARR => Arr(value);
      case AND => AndA(value);
      case ORA => Ora(value);
      case EOR => Eor(value);
      case LDA => Lda(value);
      case LDX => Ldx(value);
      case LDY => Ldy(value);
      case LAX => Lax(value);
      case LAS => Las(value);
      case ANC => Anc(value);
      case ASR => Asr(value);
      case ANE => Ane(value);
      case LXA => Lxa(value);
      case SBX => Sbx(value);
      case BIT => BitTest(value);
      case CMP => Compare(a, value);
      case CPX => Compare(x, value);
      case CPY => Compare(y, value);
      case NOOP =>
    }

    // ------------------------------------------------------- read-modify-write

    method Asl(oldValue: byte)
      returns (newValue: int)
      modifies this`p, this`flagN, this`flagZ
      ensures (View(), Low(newValue)) == ModifyEffect(ASL, old(View()), oldValue)
    {
      p := p.(c := oldValue >= 0x80);
      newValue := Low(2 * oldValue);
      SetNZ(newValue);
    }

    method Dec(oldValue: byte)
      returns (newValue: int)
      modifies this`flagN, this`flagZ
      ensures (View(), Low(newValue)) == ModifyEffect(DEC, old(View()), oldValue)
    {
      hide NZ;
      newValue := Low(oldValue - 1);
      SetNZ(newValue);
    }

    method Inc(oldValue: byte)
      returns (newValue: int)
      modifies this`flagN, this`flagZ
      ensures (View(), Low(newValue)) == ModifyEffect(INC, old(View()), oldValue)
    {
      hide NZ;
      newValue := Low(oldValue + 1);
      SetNZ(newValue);
    }

    method Lsr(oldValue: byte)
      returns (newValue: int)
      modifies this`p, this`flagN, this`flagZ
      ensures (View(), Low(newValue)) == ModifyEffect(LSR, old(View()), oldValue)
    {
      p := p.(c := Bit(oldValue, 1));
      newValue := oldValue / 2;
      SetNZ(newValue);
    }

    method Rol(oldValue: byte)
      returns (newValue: int)
      modifies this`p, this`flagN, this`flagZ
      ensures (View(), Low(newValue)) == ModifyEffect(ROL, old(View()), oldValue)
    {
      newValue := 2 * oldValue + One(p.c);
      p := p.(c := newValue >= 0x100);
      SetNZ(Low(newValue));
    }

    method Ror(oldValue: byte)
      returns (newValue: int)
      modifies this`p, this`flagN, this`flagZ
      ensures (View(), Low(newValue)) == ModifyEffect(ROR, old(View()), oldValue)
    {
      newValue := if p.c then oldValue + 0x100 else oldValue;
      p := p.(c := newValue % 2 == 1);
      newValue := newValue / 2;
      SetNZ(newValue);
    }

    method Dcp(oldValue: byte)
      returns (newValue: int)
      modifies this`p, this`flagN, this`flagZ
      ensures (View(), Low(newValue)) == ModifyEffect(DCP, old(View()), oldValue)
    {
      newValue := Low(oldValue - 1);
      p := p.(c := a >= newValue);
      SetNZ(Low(a - newValue));
    }

    method Isb(oldValue: byte)
      returns (newValue: int)
      modifies this`a, this`p, this`flagN, this`flagZ
      ensures (View(), Low(newValue)) == ModifyEffect(ISB, old(View()), oldValue)
    {
      hide ReadEffect;
      newValue := Low(oldValue + 1);
      Sbc(newValue);
    }

    method Rla(oldValue: byte)
      returns (newValue: int)
      modifies this`a, this`p, this`flagN, this`flagZ
      ensures (View(), Low(newValue)) == ModifyEffect(RLA, old(View()), oldValue)
    {
      hide And;
      newValue := 2 * oldValue + One(p.c);
      p := p.(c := newValue >= 0x100);
      a := And(a, Low(newValue));
      SetNZ(a);
    }

    method Rra(oldValue: byte)
      returns (newValue: int)
      modifies this`a, this`p, this`flagN, this`flagZ
      ensures (View(), Low(newValue)) == ModifyEffect(RRA, old(View()), oldValue)
    {
      hide ReadEffect, NZ;
      newValue := if p.c then oldValue + 0x100 else oldValue;
      p := p.(c := newValue % 2 == 1);
      newValue := newValue / 2;
      ghost var s := View();
      SetNZ(newValue);
      AdcIgnoresNZ(s, newValue);
      Adc(newValue);
    }

    method Slo(oldValue: byte)
      returns (newValue: int)
      modifies this`a, this`p, this`flagN, this`flagZ
      ensures (View(), Low(newValue)) == ModifyEffect(SLO, old(View()), oldValue)
    {
      hide Or, NZ, Low;
      p := p.(c := oldValue >= 0x80);
      newValue := 2 * oldValue;
      a := Or(a, Low(newValue));
      SetNZ(a);
    }

    method Sre(oldValue: byte)
      returns (newValue: int)
      modifies this`a, this`p, this`flagN, this`flagZ
      ensures (View(), Low(newValue)) == ModifyEffect(SRE, old(View()), oldValue)
    {
      hide Xor, NZ, Bit;
      p := p.(c := Bit(oldValue, 1));
      newValue := oldValue / 2;
      a := Xor(a, newValue);
      SetNZ(a);
    }

    method ModifyValue(op: ModifyOp, oldValue: byte)
      returns (newValue: int)
      modifies this`a, this`p, this`flagN, this`flagZ
      ensures (View(), Low(newValue)) == ModifyEffect(op, old(View()), oldValue)
    {
      hide ModifyEffect, Low;
      match op
      case ASL => newValue := Asl(oldValue);
      case DEC => newValue := Dec(oldValue);
      case INC => newValue := Inc(oldValue);
      case LSR => newValue := Lsr(oldValue);
      case ROL => newValue := Rol(oldValue);
      case ROR => newValue := Ror(oldValue);
      case DCP => newValue := Dcp(oldValue);
      case ISB => newValue := Isb(oldValue);
      case RLA => newValue := Rla(oldValue);
      case RRA => newValue := Rra(oldValue);
      case SLO => newValue := Slo(oldValue);
      case SRE => newValue := Sre(oldValue);
    }

    // -------------------------------------------------------- whole instructions

    method ReadInstruction(op: ReadOp, get: GetFn, pcInc: nat, p1: byte, p2: word, ghost mode: Mode)
      requires ReadMode(get) == In(mode) && pcInc == Size(mode)
      modifies this`a, this`x, this`y, this`sp, this`p, this`flagN, this`flagZ, this`pc, this`clk
      ensures View() == Exec(Read(op, mode), old(View()), p1, p2)
    {
      hide ReadMode, Size, ReadEffect, Operand, ReadCycles, Word;
      var value := Get(get, p1, p2, mode);
      ghost var s := View();
      Effect(op, value);
      ReadEffectFrame(op, old(View()), value, s.clk);
      pc := Word(pc + pcInc);
    }

    method Register(op: WriteOp) returns (v: byte)
      ensures v == Written(op, View())
    {
      match op
      case STA => v := a;
      case STX => v := x;
      case STY => v := y;
      case SAX => v := And(a, x);
    }

    /** ST */
    method WriteInstruction(op: WriteOp, set_: SetFn, pcInc: nat, p1: byte, p2: word, ghost mode: Mode)
      requires WriteMode(set_) == In(mode) && pcInc == Size(mode)
      modifies this`pc, this`ram, this`clk
      ensures View() == Exec(Write(op, mode), old(View()), p1, p2)
    {
      hide WriteMode, WriteCycles, Size, Address, Poke, Peek, Word, Low, Join;
      AddressFrame(mode, View(), View().(pc := Word(pc + pcInc)), p1, p2);
      pc := Word(pc + pcInc);
      var value := Register(op);
      Set(set_, value, p1, p2, mode);
    }

    /** SET_ABS_SH_I, no cycle being stolen */
    method StoreHigh(addr: word, register: byte, index: byte) returns (ghost v: byte)
      modifies this`ram, this`clk
      ensures v == And(register, Low(High(addr) + 1)) && clk == old(clk) + 1
      ensures ram == Poke(old(ram), if Crosses(addr, index) then Join(Low(addr + index), v) else addr + index, v)
    {
      hide Poke, Join, Low, High, And;
      var tmp3 := And(register, Low(High(addr) + 1));
      v := tmp3;
      var tmp2: int := addr + index;
      if Low(addr) + index > 0xff {
        tmp2 := Join(Low(tmp2), tmp3);
      }
      ram := Poke(ram, tmp2, tmp3);
      ClkInc();
    }

    /** SH_ABS_I and SHS_ABS_Y */
    method ShAbsolute(op: ShOp, ghost p1: byte, p2: word)
      modifies this`sp, this`pc, this`ram, this`clk
      ensures View() == Exec(WriteHigh(op, if op.SHY? then AbsX else AbsY), old(View()), p1, p2)
    {
      hide Poke, Word, Join, Low, High, And;
      ClkInc();
      ghost var v;
      match op {
        case SHA => v := StoreHigh(p2, And(a, x), y);
        case SHX => v := StoreHigh(p2, x, y);
        case SHY => v := StoreHigh(p2, y, x);
        case SHS =>
          v := StoreHigh(p2, And(a, x), y);
          sp := And(a, x);
      }
      pc := Word(pc + 3);
    }

    method ShaIndirectY(p1: byte, ghost p2: word)
      modifies this`pc, this`ram, this`clk
      ensures View() == Exec(WriteHigh(SHA, IndY), old(View()), p1, p2)
    {
      hide Poke, Word, Join, Low, High, And, Peek;
      var lo := PeekZero(ram, p1);
      ClkInc();
      var hi := PeekZero(ram, p1 + 1);
      ClkInc();
      ClkInc();
      ghost var v := StoreHigh(Join(lo, hi), And(a, x), y);
      pc := Word(pc + 2);
    }

    method ModifyInstruction(op: ModifyOp, get: GetFn, set_: SetFn, pcInc: nat, p1: byte, p2: word, ghost mode: Mode)
      requires ModifyMode(get, set_) == In(mode) && pcInc == Size(mode)
      modifies this`a, this`p, this`flagN, this`flagZ, this`pc, this`ram, this`clk
      ensures View() == Exec(Modify(op, mode), old(View()), p1, p2)
    {
      hide ModifyMode, ModifyCycles, Size, ModifyEffect, Peek, Poke, Address, Low, Word;
      var oldValue, addr := GetRmw(get, p1, p2, set_, mode);
      ghost var s := View();
      var newValue := ModifyValue(op, oldValue);
      ModifyEffectFrame(op, old(View()), oldValue);
      ModifyEffectClock(op, old(View()), oldValue, s.clk);
      pc := Word(pc + pcInc);
      AddressFrame(mode, old(View()), View(), p1, p2);
      PokeLow(ram, Address(mode, View(), p1, p2), newValue);
      SetRmw(set_, newValue, addr, p1, p2, get, mode);
    }

    // ------------------------------------------- one-byte instructions and branches

    method AslA()
      modifies this`a, this`p, this`flagN, this`flagZ
      ensures View() == ImpliedEffect(ASL_A, old(View()))
    {
      p := p.(c := a >= 0x80);
      a := Low(2 * (a as int));
      SetNZ(a);
    }

    method LsrA()
      modifies this`a, this`p, this`flagN, this`flagZ
      ensures View() == ImpliedEffect(LSR_A, old(View()))
    {
      p := p.(c := Bit(a, 1));
      a := a / 2;
      SetNZ(a);
    }

    method RolA()
      modifies this`a, this`p, this`flagN, this`flagZ
      ensures View() == ImpliedEffect(ROL_A, old(View()))
    {
      var tmp: int := 2 * a;
      a := Low(tmp + One(p.c));
      p := p.(c := tmp >= 0x100);
      SetNZ(a);
    }

    method RorA()
      modifies this`a, this`p, this`flagN, this`flagZ
      ensures View() == ImpliedEffect(ROR_A, old(View()))
    {
      var tmp := a;
      a := a / 2 + 0x80 * One(p.c);
      p := p.(c := Bit(tmp, 1));
      SetNZ(a);
    }

    /** CLC, CLD, CLI, CLV, SEC, SED, SEI */
    method SetOrClear(op: ImpliedOp)
      requires op.CLC? || op.CLD? || op.CLI? || op.CLV? || op.SEC? || op.SED? || op.SEI?
      modifies this`p
      ensures View() == ImpliedEffect(op, old(View()))
    {
      match op
      case CLC => p := p.(c := false);
      case CLD => p := p.(d := false);
      case CLI => p := p.(i := false);
      case CLV => p := p.(v := false);
      case SEC => p := p.(c := true);
      case SED => p := p.(d := true);
      case SEI => p := p.(i := true);
    }

    /** DEX, INX, TAX, TSX */
    method TransferX(op: ImpliedOp)
      requires op.DEX? || op.INX? || op.TAX? || op.TSX?
      modifies this`x, this`flagN, this`flagZ
      ensures View() == ImpliedEffect(op, old(View()))
    {
      hide NZ, Low;
      match op
      case DEX => x := Low(x - 1); SetNZ(x);
      case INX => x := Low(x + 1); SetNZ(x);
      case TAX => x := a; SetNZ(a);
      case TSX => x := sp; SetNZ(sp);
    }

    /** DEY, INY, TAY */
    method TransferY(op: ImpliedOp)
      requires op.DEY? || op.INY? || op.TAY?
      modifies this`y, this`flagN, this`flagZ
      ensures View() == ImpliedEffect(op, old(View()))
    {
      hide NZ, Low;
      match op
      case DEY => y := Low(y - 1); SetNZ(y);
      case INY => y := Low(y + 1); SetNZ(y);
      case TAY => y := a; SetNZ(a);
    }

    /** TXA, TYA, TXS, NOP */
    method Transfer(op: ImpliedOp)
      requires op.TXA? || op.TXS? || op.TYA? || op.NOP?
      modifies this`a, this`sp, this`flagN, this`flagZ
      ensures View() == ImpliedEffect(op, old(View()))
    {
      hide NZ, Low;
      match op
      case TXA => a := x; SetNZ(a);
      case TYA => a := y; SetNZ(a);
      case TXS => sp := x;
      case NOP =>
    }

    method ImpliedInstruction(op: ImpliedOp, ghost p1: byte, ghost p2: word)
      modifies this`a, this`x, this`y, this`sp, this`p, this`flagN, this`flagZ, this`pc
      ensures View() == Exec(Implied(op), old(View()), p1, p2)
    {
      hide ImpliedEffect, Word;
      match op {
        case ASL_A => AslA();
        case LSR_A => LsrA();
        case ROL_A => RolA();
        case ROR_A => RorA();
        case CLC | CLD | CLI | CLV | SEC | SED | SEI => SetOrClear(op);
        case DEX | INX | TAX | TSX => TransferX(op);
        case DEY | INY | TAY => TransferY(op);
        case TXA | TXS | TYA | NOP => Transfer(op);
      }
      pc := Word(pc + 1);
    }

    method Branch(cond: Condition, p1: byte, ghost p2: word)
      modifies this`pc, this`clk
      ensures View() == Exec(Instruction.Branch(cond), old(View()), p1, p2)
    {
      hide Word, High, Signed;
      pc := Word(pc + 2);
      if Holds(cond, Flags(flagN >= 0x80, p.v, p.b, p.d, p.i, flagZ == 0, p.c)) {
        var destAddr := Word(pc + Signed(p1));
        ClkInc();
        if High(pc) != High(destAddr) {
          ClkInc();
        }
        pc := destAddr;
      }
    }

    // ------------------------------------------------------------- stack and flow

    method PushByte(v: byte)
      modifies this`ram, this`sp
      ensures View() == Push(old(View()), v)
    {
      ram := Poke(ram, 0x100 + sp, v);
      sp := Low(sp - 1);
    }

    /** The program counter and the status, one access each. */
    method PushFrame()
      modifies this`ram, this`sp, this`clk
      ensures View() == Push(PushWord(old(View()), pc), Status(old(View()).f)).(clk := old(clk) + 3)
    {
      hide Word, Low, High, Poke, Status;
      PushByte(High(pc));
      ClkInc();
      PushByte(Low(pc));
      ClkInc();
      var status := LocalStatus();
      PushByte(status);
      ClkInc();
    }

    /** DO_IRQBRK, no NMI arriving meanwhile */
    method DoIrqBrk(handlerVector: word)
      modifies this`ram, this`sp, this`p, this`pc, this`clk
      ensures View() == Interrupted(old(View()), old(p.b), handlerVector).(clk := old(clk) + 5)
    {
      hide Word, Low, High, Peek, Poke, Status, Join;
      PushFrame();
      p := p.(i := true);
      var lo := Peek(ram, handlerVector);
      ClkInc();
      var hi := Peek(ram, handlerVector + 1);
      ClkInc();
      pc := Join(lo, hi);
    }

    method PullByte() returns (v: byte)
      modifies this`sp
      ensures View() == Pulled(old(View())) && v == Top(old(View()))
    {
      sp := Low(sp + 1);
      v := Peek(ram, 0x100 + sp);
    }

    method Jmp(p2: word)
      modifies this
      ensures View() == FlowEffect(JMP, old(View()), 0, p2)
    {
      hide Word;
      pc := p2;
    }

    method JmpInd(p2: word)
      modifies this
      ensures View() == FlowEffect(JMP_IND, old(View()), 0, p2)
    {
      hide Word, Low, High, Peek, Join;
      var lo := Peek(ram, p2);
      ClkInc();
      var hi := Peek(ram, Join(Low(p2 + 1), High(p2)));
      ClkInc();
      pc := Join(lo, hi);
    }

    method Jsr(p1: byte)
      modifies this
      ensures View() == FlowEffect(JSR, old(View()), p1, 0)
    {
      hide Word, Low, High, Peek, Poke, Join;
      ClkInc();
      pc := Word(pc + 2);
      PushByte(High(pc));
      ClkInc();
      PushByte(Low(pc));
      ClkInc();
      var addrMsb := Peek(ram, pc);
      PeekWrapped(ram, old(pc) + 2);
      ClkInc();
      pc := Join(p1, addrMsb);
    }

    method Rts()
      modifies this
      ensures View() == FlowEffect(RTS, old(View()), 0, 0)
    {
      hide Word, Low, Peek, Join;
      ClkInc();
      var lo := PullByte();
      ClkInc();
      var hi := PullByte();
      ClkInc();
      var tmp: int := Join(lo, hi);
      ClkInc();
      pc := Word(tmp + 1);
    }

    method Rti()
      modifies this
      ensures View() == FlowEffect(RTI, old(View()), 0, 0)
    {
      hide Word, Low, Peek, Join, FromStatus;
      ClkInc();
      var status := PullByte();
      ClkInc();
      LocalSetStatus(status);
      var lo := PullByte();
      ClkInc();
      var hi := PullByte();
      ClkInc();
      pc := Join(lo, hi);
    }

    method Brk()
      modifies this
      ensures View() == FlowEffect(BRK, old(View()), 0, 0)
    {
      hide Word, Low, High, Peek, Poke, Status;
      pc := Word(pc + 2);
      p := p.(b := true);
      DoIrqBrk(0xfffe);
    }

    method Pha()
      modifies this
      ensures View() == FlowEffect(PHA, old(View()), 0, 0)
    {
      hide Word, Low, Poke;
      PushByte(a);
      ClkInc();
      pc := Word(pc + 1);
    }

    method Php()
      modifies this
      ensures View() == FlowEffect(PHP, old(View()), 0, 0)
    {
      hide Word, Low, Poke, Status, WithBit;
      var status := LocalStatus();
      StatusBreak(View().f);
      PushByte(WithBit(status, 0x10));
      ClkInc();
      pc := Word(pc + 1);
    }

    method Pla()
      modifies this
      ensures View() == FlowEffect(PLA, old(View()), 0, 0)
    {
      hide Word, Low, Peek, NZ;
      ClkInc();
      a := PullByte();
      ClkInc();
      SetNZ(a);
      pc := Word(pc + 1);
    }

    method Plp()
      modifies this
      ensures View() == FlowEffect(PLP, old(View()), 0, 0)
    {
      hide Word, Low, Peek, FromStatus;
      ClkInc();
      var status := PullByte();
      ClkInc();
      LocalSetStatus(status);
      pc := Word(pc + 1);
    }

    /** DO_INTERRUPT for an NMI that is taken. */
    method Nmi()
      modifies this
      ensures View() == Interrupted(old(View()), false, 0xfffa).(clk := old(clk) + 7)
    {
      hide Word, Low, High, Peek, Poke, Status, Join;
      ClkInc();
      ClkInc();
      p := p.(b := false);
      PushFrame();
      var lo := Peek(ram, 0xfffa);
      ClkInc();
      var hi := Peek(ram, 0xfffb);
      ClkInc();
      p := p.(i := true);
      pc := Join(lo, hi);
    }

    /** DO_INTERRUPT for an IRQ that is taken. */
    method Irq()
      modifies this
      ensures View() == Interrupted(old(View()), false, 0xfffe).(clk := old(clk) + 7)
    {
      hide Word, Low, High, Peek, Poke, Status;
      ClkInc();
      ClkInc();
      p := p.(b := false);
      DoIrqBrk(0xfffe);
    }

    method FlowInstruction(op: FlowOp, p1: byte, p2: word)
      modifies this
      ensures View() == Exec(Flow(op), old(View()), p1, p2)
    {
      hide Push, PushWord, Pulled, PulledWord, Interrupted, Peek, Join, FromStatus, Status, Top, Word, Low, High;
      match op
      case BRK => Brk();
      case JMP => Jmp(p2);
      case JMP_IND => JmpInd(p2);
      case JSR => Jsr(p1);
      case RTI => Rti();
      case RTS => Rts();
      case PHA => Pha();
      case PHP => Php();
      case PLA => Pla();
      case PLP => Plp();
    }

    // ------------------------------------------------------------------ the switch

    /** One arm of the opcode switch. */
    method Execute(opcode: byte, p1: byte, p2: word)
      requires Meaning(Switch(opcode)).Does?
      modifies this
      ensures View() == Exec(Meaning(Switch(opcode)).instruction, old(View()), p1, p2)
    {
      hide Exec, Switch;
      match Switch(opcode)
      case ReadArm(op, get, pcInc) => ReadInstruction(op, get, pcInc, p1, p2, ReadMode(get).mode);
      case WriteArm(op, set_, pcInc) => WriteInstruction(op, set_, pcInc, p1, p2, WriteMode(set_).mode);
      case ShAbs(op) => ShAbsolute(op, p1, p2);
      case ShaIndY => ShaIndirectY(p1, p2);
      case ModifyArm(op, get, set_, pcInc) => ModifyInstruction(op, get, set_, pcInc, p1, p2, ModifyMode(get, set_).mode);
      case ImpliedArm(op) => ImpliedInstruction(op, p1, p2);
      case BranchArm(cond) => Branch(cond, p1, p2);
      case FlowArm(op) => FlowInstruction(op, p1, p2);
    }
  }
}
