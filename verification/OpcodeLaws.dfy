/**
 What each opcode does, in plain arithmetic on registers, flags and memory: the terms
 of a programmer's manual rather than those of the cores or of their reference.
 */
module OpcodeLaws {
  import opened Arithmetic
  import opened CpuFetches
  import opened CpuModel
  import opened CpuRuns
  import opened OpcodeBits
  import opened OpcodeRows
  import opened SwitchRows
  import opened SwitchTables

  // ---------------------------------------------------- operands and addresses

  /** The k-th byte of the instruction at PC. */
  function Code(s: Cpu, k: nat): byte { s.ram[(s.pc + k) % 0x10000] }

  /** Where the operand of an addressing mode is; the zero page wraps in itself. */
  function Located(mode: Mode, s: Cpu): word {
    var p1, p2: int := Code(s, 1), Code(s, 1) + 0x100 * Code(s, 2) as int;
    match mode
    case Imm => (s.pc + 1) % 0x10000
    case Zp => p1
    case ZpX => (p1 + s.x) % 0x100
    case ZpY => (p1 + s.y) % 0x100
    case Abs => p2
    case AbsX => (p2 + s.x) % 0x10000
    case AbsY => (p2 + s.y) % 0x10000
    case IndX => Pointer(s, p1 + s.x)
    case IndY => (Pointer(s, p1) + s.y) % 0x10000
  }

  /** The word at a zero page address. */
  function Pointer(s: Cpu, at: int): word { s.ram[at % 0x100] + 0x100 * s.ram[(at + 1) % 0x100] as int }

  /** One if indexing leaves the page. */
  function Extra(mode: Mode, s: Cpu): nat {
    match mode
    case AbsX => (Code(s, 1) as int + s.x) / 0x100
    case AbsY => (Code(s, 1) as int + s.y) / 0x100
    case IndY => (s.ram[Code(s, 1)] as int + s.y) / 0x100
    case _ => 0
  }

  function Bytes(mode: Mode): nat { if mode.Abs? || mode.AbsX? || mode.AbsY? then 3 else 2 }

  /** Cycles of a read after its opcode and operand bytes are fetched. */
  function ReadTime(mode: Mode, s: Cpu): nat {
    match mode
    case Imm => 0
    case Zp | Abs | AbsX | AbsY => 1 + Extra(mode, s)
    case ZpX | ZpY => 2
    case IndX => 4
    case IndY => 3 + Extra(mode, s)
  }

  function WriteTime(mode: Mode): nat {
    match mode
    case Imm | Zp | Abs => 1
    case ZpX | ZpY | AbsX | AbsY => 2
    case IndX | IndY => 4
  }

  function Next(s: Cpu, bytes: nat, cycles: nat): Cpu {
    s.(pc := (s.pc + bytes) % 0x10000, clk := s.clk + cycles)
  }

  function Signs(s: Cpu, w: int): Cpu { s.(f := s.f.(n := w >= 0x80, z := w == 0)) }

  function Carries(s: Cpu, c: bool): Cpu { s.(f := s.f.(c := c)) }

  lemma BitwiseLaw(x: byte, y: byte)
    ensures And(x, y) == ((x as bv8) & (y as bv8)) as byte
    ensures Or(x, y) == ((x as bv8) | (y as bv8)) as byte
    ensures Xor(x, y) == ((x as bv8) ^ (y as bv8)) as byte
  {
  }

  lemma PointerLaw(s: Cpu, at: int)
    ensures PeekZeroWord(s.ram, at) == Pointer(s, at)
  {
  }

  lemma AddressLaw(mode: Mode, s: Cpu)
    requires !mode.Imm?
    ensures var p1 := Code(s, 1);
            Word(Address(mode, s, p1, Join(p1, Code(s, 2)))) == Located(mode, s)
  {
    hide Word, Address, Join, Code, Located;
    if mode.IndX? || mode.IndY? {
      IndirectLaw(mode, s);
    } else {
      DirectLaw(mode, s);
    }
  }

  lemma DirectLaw(mode: Mode, s: Cpu)
    requires !mode.Imm? && !mode.IndX? && !mode.IndY?
    ensures var p1 := Code(s, 1);
            Word(Address(mode, s, p1, Join(p1, Code(s, 2)))) == Located(mode, s)
  {
    hide Code, PeekZeroWord, Pointer;
  }

  lemma IndirectLaw(mode: Mode, s: Cpu)
    requires mode.IndX? || mode.IndY?
    ensures var p1 := Code(s, 1);
            Word(Address(mode, s, p1, Join(p1, Code(s, 2)))) == Located(mode, s)
  {
    hide Code, PeekZeroWord, Pointer, Join;
    PointerLaw(s, Code(s, 1) + s.x);
    PointerLaw(s, Code(s, 1));
  }

  lemma OperandLaw(mode: Mode, s: Cpu)
    ensures var p1 := Code(s, 1);
            Operand(mode, s, p1, Join(p1, Code(s, 2))) == s.ram[Located(mode, s)]
  {
    hide Address, Word, Join;
    if !mode.Imm? {
      AddressLaw(mode, s);
      hide Located;
    }
  }

  lemma TimeLaw(mode: Mode, s: Cpu)
    ensures var p1 := Code(s, 1);
            ReadCycles(mode, s, p1, Join(p1, Code(s, 2))) == ReadTime(mode, s)
    ensures !mode.Imm? ==> WriteCycles(mode) == WriteTime(mode)
    ensures Size(mode) == Bytes(mode)
  {
    hide Code;
    PageLaw(Code(s, 1), Code(s, 2), s.x);
    PageLaw(Code(s, 1), Code(s, 2), s.y);
    PageLaw(PeekZero(s.ram, Code(s, 1)), PeekZero(s.ram, Code(s, 1) + 1), s.y);
    LowPointer(s.ram, Code(s, 1));
    hide Crosses, Join, PeekZero;
  }

  lemma LowPointer(m: Ram, p1: byte)
    ensures PeekZero(m, p1) == m[p1]
  {
  }

  lemma PageLaw(lo: byte, hi: byte, index: byte)
    ensures One(Crosses(Join(lo, hi), index)) == (lo as int + index) / 0x100
  {
  }

  // ------------------------------------------- from opcode bits to instructions

  lemma Decodes(s: Cpu)
    ensures Decode(Code(s, 0)) == ByBits(Code(s, 0)) && Peek(s.ram, s.pc) == Code(s, 0)
    ensures Peek(s.ram, s.pc + 1) == Code(s, 1) && Peek(s.ram, s.pc + 2) == Code(s, 2)
  {
    SwitchFollowsBits(Code(s, 0));
    hide ByBits;
  }

  lemma Reads(s: Cpu, op: ReadOp, mode: Mode)
    requires ByBits(Code(s, 0)) == Does(Read(op, mode))
    ensures Running(s) && Step(s) == Next(ReadEffect(op, s, s.ram[Located(mode, s)]), Bytes(mode), ReadTime(mode, s))
  {
    hide ByBits, Decode, ReadEffect, Operand, ReadCycles, Size, Join, Peek, Code, Located, ReadTime, Bytes;
    Decodes(s);
    OperandLaw(mode, s);
    TimeLaw(mode, s);
    ReadEffectFrame(op, s, s.ram[Located(mode, s)], s.clk);
  }

  lemma Writes(s: Cpu, op: WriteOp, mode: Mode)
    requires ByBits(Code(s, 0)) == Does(Write(op, mode)) && !mode.Imm?
    ensures Running(s)
    ensures Step(s) == Next(s.(ram := s.ram[Located(mode, s) := Written(op, s)]), Bytes(mode), WriteTime(mode))
  {
    hide ByBits, Decode, Written, Address, WriteCycles, Size, Join, Peek, Code, Located, WriteTime, Bytes;
    Decodes(s);
    AddressLaw(mode, s);
    TimeLaw(mode, s);
    StoredByte(s.ram, Address(mode, s, Code(s, 1), Join(Code(s, 1), Code(s, 2))), Written(op, s));
  }

  lemma StoredByte(m: Ram, addr: int, v: byte)
    ensures Poke(m, addr, v) == m[Word(addr) := v]
  {
  }

  lemma Modifies(s: Cpu, op: ModifyOp, mode: Mode)
    requires ByBits(Code(s, 0)) == Does(Modify(op, mode)) && !mode.Imm?
    ensures Running(s)
    ensures var (t, w) := ModifyEffect(op, s, s.ram[Located(mode, s)]);
            Step(s) == Next(t.(ram := s.ram[Located(mode, s) := w]), Bytes(mode), WriteTime(mode) + 2)
  {
    hide ByBits, Decode, ModifyEffect, Address, WriteCycles, Size, Join, Code, Located, WriteTime, Bytes;
    Decodes(s);
    AddressLaw(mode, s);
    TimeLaw(mode, s);
    var (t, w) := ModifyEffect(op, s, s.ram[Located(mode, s)]);
    ModifyEffectFrame(op, s, s.ram[Located(mode, s)]);
    StoredByte(s.ram, Address(mode, s, Code(s, 1), Join(Code(s, 1), Code(s, 2))), w);
    hide Poke;
  }

  lemma Implies(s: Cpu, op: ImpliedOp)
    requires ByBits(Code(s, 0)) == Does(Implied(op))
    ensures Running(s) && Step(s) == Advanced(ImpliedEffect(op, s), 1, 0)
  {
    hide ByBits, Decode, ImpliedEffect, Advanced, Peek, Join;
    Decodes(s);
  }

  lemma Flows(s: Cpu, op: FlowOp)
    requires ByBits(Code(s, 0)) == Does(Flow(op))
    ensures Running(s) && Step(s) == FlowEffect(op, s, Code(s, 1), Join(Code(s, 1), Code(s, 2)))
  {
    hide ByBits, Decode, FlowEffect, Peek, Join;
    Decodes(s);
  }

  // --------------------------------------------------- opcodes ending in 01

  /** ORA, AND, EOR, ADC, -, LDA, CMP, SBC by the highest three bits. */
  function Result(aaa: int, s: Cpu, v: byte): Cpu {
    match aaa
    case 0 => Signs(s.(a := Or(s.a, v)), Or(s.a, v))
    case 1 => Signs(s.(a := And(s.a, v)), And(s.a, v))
    case 2 => Signs(s.(a := Xor(s.a, v)), Xor(s.a, v))
    case 3 => Totals(s, Adc6510(s.f.d, s.a as bv8, v as bv8, s.f.c))
    case 5 => Signs(s.(a := v), v)
    case 6 => Carries(Signs(s, (s.a - v) % 0x100), s.a >= v)
    case _ => Totals(s, Sbc6510(s.f.d, s.a as bv8, v as bv8, s.f.c))
  }

  function Totals(s: Cpu, r: Alu): Cpu {
    Cpu(r.a as byte, s.x, s.y, s.sp, Flags(r.negative, r.overflow, s.f.b, s.f.d, s.f.i, r.zero, r.carry),
        s.pc, s.ram, s.clk)
  }

  lemma ResultLaw(aaa: int, s: Cpu, v: byte)
    requires 0 <= aaa < 8 && aaa != 4
    ensures ReadEffect(Accumulator(aaa), s, v) == Result(aaa, s, v)
  {
    hide And, Or, Xor, Adc6510, Sbc6510;
  }

  lemma GroupOne(s: Cpu, aaa: int, mode: Mode)
    requires Code(s, 0) % 4 == 1 && aaa == Code(s, 0) / 0x20 != 4 && mode == OddMode(Code(s, 0) / 4 % 8)
    ensures Running(s) && Step(s) == Next(Result(aaa, s, s.ram[Located(mode, s)]), Bytes(mode), ReadTime(mode, s))
  {
    hide Decode, Step, ReadEffect, Result, Located, ReadTime, Bytes, Code;
    Reads(s, Accumulator(aaa), mode);
    ResultLaw(aaa, s, s.ram[Located(mode, s)]);
  }

  // --------------------------------------------------- opcodes ending in 10

  /** ASL, ROL, LSR, ROR, -, -, DEC, INC: the new byte and the new carry. */
  function Moved(aaa: int, c: bool, v: byte): (byte, bool) {
    match aaa
    case 0 => (2 * (v as int) % 0x100, v >= 0x80)
    case 1 => ((2 * (v as int) + if c then 1 else 0) % 0x100, v >= 0x80)
    case 2 => (v / 2, v % 2 == 1)
    case 3 => (v / 2 + if c then 0x80 else 0, v % 2 == 1)
    case 6 => ((v + 0xff) % 0x100, c)
    case _ => ((v + 1) % 0x100, c)
  }

  lemma MovedLaw(aaa: int, s: Cpu, v: byte)
    requires 0 <= aaa < 8 && aaa != 4 && aaa != 5
    ensures var (w, c) := Moved(aaa, s.f.c, v);
            ModifyEffect(Shift(aaa), s, v) == (Carries(Signs(s, w), c), w)
  {
    hide *;
    if aaa < 2 {
      MovedLawLeft(aaa, s, v);
    } else if aaa < 4 {
      MovedLawRight(aaa, s, v);
    } else {
      MovedLawCount(aaa, s, v);
    }
  }

  lemma MovedLawLeft(aaa: int, s: Cpu, v: byte)
    requires aaa == 0 || aaa == 1
    ensures var (w, c) := Moved(aaa, s.f.c, v);
            ModifyEffect(Shift(aaa), s, v) == (Carries(Signs(s, w), c), w)
  {
    hide ReadEffect, Compared, Low, Bit, And, Or, Xor;
    MovedBytes(v, s.f.c);
  }

  lemma MovedLawRight(aaa: int, s: Cpu, v: byte)
    requires aaa == 2 || aaa == 3
    ensures var (w, c) := Moved(aaa, s.f.c, v);
            ModifyEffect(Shift(aaa), s, v) == (Carries(Signs(s, w), c), w)
  {
    hide ReadEffect, Compared, Low, Bit, And, Or, Xor;
    MovedBytes(v, s.f.c);
  }

  lemma MovedLawCount(aaa: int, s: Cpu, v: byte)
    requires aaa == 6 || aaa == 7
    ensures var (w, c) := Moved(aaa, s.f.c, v);
            ModifyEffect(Shift(aaa), s, v) == (Carries(Signs(s, w), c), w)
  {
    hide ReadEffect, Compared, Low, Bit, And, Or, Xor;
    MovedBytes(v, s.f.c);
  }

  lemma MovedBytes(v: byte, c: bool)
    ensures Low(2 * v) == 2 * (v as int) % 0x100 && Low(2 * v + One(c)) == (2 * (v as int) + if c then 1 else 0) % 0x100
    ensures Low(v - 1) == (v + 0xff) % 0x100 && Low(v + 1) == (v + 1) % 0x100 && Bit(v, 1) == (v % 2 == 1)
  {
  }

  lemma GroupTwo(s: Cpu, aaa: int, mode: Mode)
    requires Code(s, 0) % 4 == 2 && Code(s, 0) / 4 % 2 == 1
    requires aaa == Code(s, 0) / 0x20 != 4 && aaa != 5 && mode == EvenMode(Code(s, 0) / 4 % 8)
    ensures var (w, c) := Moved(aaa, s.f.c, s.ram[Located(mode, s)]);
            Running(s) && Step(s) == Next(Carries(Signs(s.(ram := s.ram[Located(mode, s) := w]), w), c),
                                          Bytes(mode), WriteTime(mode) + 2)
  {
    hide Decode, Step, ModifyEffect, Moved, Located, WriteTime, Bytes, Code;
    ColumnTwo(Code(s, 0), aaa, mode);
    Modifies(s, Shift(aaa), mode);
    MovedLaw(aaa, s, s.ram[Located(mode, s)]);
  }

  lemma ColumnTwo(op: int, aaa: int, mode: Mode)
    requires 0 <= op < 0x100 && op % 4 == 2 && op / 4 % 2 == 1
    requires aaa == op / 0x20 != 4 && aaa != 5 && mode == EvenMode(op / 4 % 8)
    ensures ByBits(op) == Does(Modify(Shift(aaa), mode)) && !mode.Imm?
  {
    hide Shift;
  }

  lemma GroupTwoAccumulator(s: Cpu, aaa: int)
    requires Code(s, 0) % 0x20 == 0x0a && aaa == Code(s, 0) / 0x20 < 4
    ensures var (w, c) := Moved(aaa, s.f.c, s.a);
            Running(s) && Step(s) == Next(Carries(Signs(s.(a := w), w), c), 1, 0)
  {
    hide Decode, Step, Moved, Code;
    Implies(s, match aaa case 0 => ASL_A case 1 => ROL_A case 2 => LSR_A case _ => ROR_A);
    MovedLaw(aaa, s, s.a);
    hide ModifyEffect;
  }

  // --------------------------------------------------- opcodes ending in 11

  lemma BothLaw(aaa: int, s: Cpu, v: byte)
    requires 0 <= aaa < 8 && aaa != 4 && aaa != 5
    ensures var (w, c) := Moved(aaa, s.f.c, v);
            ModifyEffect(Both(aaa), s, v) == (Result(aaa, Carries(s, c), w), w)
  {
    hide *;
    if aaa < 2 {
      BothLawLeft(aaa, s, v);
    } else if aaa < 4 {
      BothLawRight(aaa, s, v);
    } else {
      BothLawCount(aaa, s, v);
    }
  }

  lemma BothLawLeft(aaa: int, s: Cpu, v: byte)
    requires aaa == 0 || aaa == 1
    ensures var (w, c) := Moved(aaa, s.f.c, v);
            ModifyEffect(Both(aaa), s, v) == (Result(aaa, Carries(s, c), w), w)
  {
    hide ReadEffect, Result, Compared, Low, Bit, And, Or, Xor;
    MovedBytes(v, s.f.c);
    var (w, c) := Moved(aaa, s.f.c, v);
    ResultLaw(aaa, Carries(s, c), w);
    ComparesLikeCmp(s, w);
  }

  lemma BothLawRight(aaa: int, s: Cpu, v: byte)
    requires aaa == 2 || aaa == 3
    ensures var (w, c) := Moved(aaa, s.f.c, v);
            ModifyEffect(Both(aaa), s, v) == (Result(aaa, Carries(s, c), w), w)
  {
    hide ReadEffect, Result, Compared, Low, Bit, And, Or, Xor;
    MovedBytes(v, s.f.c);
    var (w, c) := Moved(aaa, s.f.c, v);
    ResultLaw(aaa, Carries(s, c), w);
    ComparesLikeCmp(s, w);
  }

  lemma BothLawCount(aaa: int, s: Cpu, v: byte)
    requires aaa == 6 || aaa == 7
    ensures var (w, c) := Moved(aaa, s.f.c, v);
            ModifyEffect(Both(aaa), s, v) == (Result(aaa, Carries(s, c), w), w)
  {
    hide ReadEffect, Result, Compared, Low, Bit, And, Or, Xor;
    MovedBytes(v, s.f.c);
    var (w, c) := Moved(aaa, s.f.c, v);
    ResultLaw(aaa, Carries(s, c), w);
    ComparesLikeCmp(s, w);
  }

  lemma ComparesLikeCmp(s: Cpu, w: byte)
    ensures ReadEffect(CMP, s, w) == Compared(s, s.a, w)
  {
    hide Compared;
  }

  /** An undocumented opcode does to memory what the one ending in 10 does, and then
      with the new byte what the one ending in 01 does. */
  lemma GroupThree(s: Cpu, aaa: int, mode: Mode)
    requires Code(s, 0) % 4 == 3 && Code(s, 0) / 4 % 8 != 2
    requires aaa == Code(s, 0) / 0x20 != 4 && aaa != 5 && mode == OddMode(Code(s, 0) / 4 % 8)
    ensures var (w, c) := Moved(aaa, s.f.c, s.ram[Located(mode, s)]);
            Running(s) && Step(s) == Next(Result(aaa, Carries(s, c), w).(ram := s.ram[Located(mode, s) := w]),
                                          Bytes(mode), WriteTime(mode) + 2)
  {
    hide Decode, Step, ModifyEffect, Moved, Result, Located, WriteTime, Bytes, Code;
    Modifies(s, Both(aaa), mode);
    BothLaw(aaa, s, s.ram[Located(mode, s)]);
  }

  /** The undocumented opcodes with an immediate operand. */
  lemma ImmediateLaw(s: Cpu)
    requires Code(s, 0) % 0x20 == 0x0b
    ensures var v, op := Code(s, 1), Code(s, 0);
            var ax := And(s.a, s.x);
            Running(s) && Step(s) == Next(
              if op < 0x40 then Carries(Signs(s.(a := And(s.a, v)), And(s.a, v)), And(s.a, v) >= 0x80)
              else if op == 0x4b then Carries(Signs(s.(a := And(s.a, v) / 2), And(s.a, v) / 2), And(s.a, v) % 2 == 1)
              else if op == 0x6b then Totals(s, Arr6510(s.f.d, s.a as bv8, v as bv8, s.f.c))
              else if op == 0x8b then
                Signs(s.(a := And(And(Or(s.a, 0xef), s.x), v)), And(And(Or(s.a, 0xef), s.x), v))
              else if op == 0xab then
                Signs(s.(a := And(Or(s.a, 0xee), v), x := And(Or(s.a, 0xee), v)), And(Or(s.a, 0xee), v))
              else if op == 0xcb then Carries(Signs(s.(x := (ax - v) % 0x100), (ax - v) % 0x100), ax >= v)
              else Result(7, s, v), 2, 0)
  {
    hide Decode, Step, And, Or, Arr6510, Sbc6510, Code, ByBits;
    var op := Code(s, 0);
    ImmediateBits(op);
    Reads(s, if op < 0x40 then ANC else if op == 0x4b then ASR else if op == 0x6b then ARR else if op == 0x8b then ANE
             else if op == 0xab then LXA else if op == 0xcb then SBX else SBC, Imm);
    FirstOperand(s);
  }

  lemma ImmediateBits(op: int)
    requires 0 <= op < 0x100 && op % 0x20 == 0x0b
    ensures ByBits(op) == Does(Read(if op < 0x40 then ANC else if op == 0x4b then ASR else if op == 0x6b then ARR
                                    else if op == 0x8b then ANE else if op == 0xab then LXA
                                    else if op == 0xcb then SBX else SBC, Imm))
  {
  }

  lemma FirstOperand(s: Cpu)
    ensures s.ram[Located(Imm, s)] == Code(s, 1)
  {
  }

  // ------------------------------------------------- loads, stores, comparisons

  /** LDX, LDY, LAX and LAS */
  lemma LoadLaw(s: Cpu, op: ReadOp, mode: Mode, v: byte)
    requires ByBits(Code(s, 0)) == Does(Read(op, mode)) && v == s.ram[Located(mode, s)]
    requires op.LDX? || op.LDY? || op.LAX? || op.LAS?
    ensures Running(s) && Step(s) == Next(match op
                                          case LDX => Signs(s.(x := v), v)
                                          case LDY => Signs(s.(y := v), v)
                                          case LAX => Signs(s.(a := v, x := v), v)
                                          case _ =>
                                            var w := And(s.sp, v);
                                            Signs(s.(a := w, x := w, sp := w), w),
                                          Bytes(mode), ReadTime(mode, s))
  {
    hide Decode, Step, ByBits, And, Code, Located, ReadTime, Bytes;
    Reads(s, op, mode);
  }

  /** Which opcodes those are, and where they find their operands. */
  lemma LoadOpcodes(op: int)
    requires 0 <= op < 0x100 && op / 0x20 == 5
    ensures op == 0xa0 ==> ByBits(op) == Does(Read(LDY, Imm))
    ensures op == 0xa2 ==> ByBits(op) == Does(Read(LDX, Imm))
    ensures op % 4 == 0 && op / 4 % 2 == 1 ==>
              ByBits(op) == Does(Read(LDY, match op / 8 % 4 case 0 => Zp case 1 => Abs case 2 => ZpX case _ => AbsX))
    ensures op % 4 == 2 && op / 4 % 2 == 1 ==>
              ByBits(op) == Does(Read(LDX, match op / 8 % 4 case 0 => Zp case 1 => Abs case 2 => ZpY case _ => AbsY))
    ensures op % 4 == 3 && op / 4 % 2 == 1 ==>
              ByBits(op) == Does(Read(LAX, match op / 8 % 4 case 0 => Zp case 1 => Abs case 2 => ZpY case _ => AbsY))
    ensures op == 0xa3 ==> ByBits(op) == Does(Read(LAX, IndX))
    ensures op == 0xb3 ==> ByBits(op) == Does(Read(LAX, IndY))
    ensures op == 0xbb ==> ByBits(op) == Does(Read(LAS, AbsY))
  {
  }

  /** CPX, CPY and BIT */
  lemma TestLaw(s: Cpu, mode: Mode, v: byte)
    requires Code(s, 0) % 4 == 0 && mode == EvenMode(Code(s, 0) / 4 % 8) && v == s.ram[Located(mode, s)]
    requires Code(s, 0) in {0xe0, 0xe4, 0xec, 0xc0, 0xc4, 0xcc, 0x24, 0x2c}
    ensures Running(s)
    ensures Code(s, 0) >= 0xe0 ==>
              Step(s) == Next(Carries(Signs(s, (s.x - v) % 0x100), s.x >= v), Bytes(mode), ReadTime(mode, s))
    ensures 0xc0 <= Code(s, 0) < 0xe0 ==>
              Step(s) == Next(Carries(Signs(s, (s.y - v) % 0x100), s.y >= v), Bytes(mode), ReadTime(mode, s))
    ensures Code(s, 0) < 0xc0 ==>
              Step(s) == Next(s.(f := s.f.(n := v / 0x80 % 2 == 1, v := v / 0x40 % 2 == 1, z := And(s.a, v) == 0)),
                              Bytes(mode), ReadTime(mode, s))
  {
    hide Decode, Step, And, Code, Located, ReadTime, Bytes;
    Reads(s, if Code(s, 0) >= 0xe0 then CPX else if Code(s, 0) >= 0xc0 then CPY else BIT, mode);
    AndSwaps(s.a, v);
  }

  lemma AndSwaps(x: byte, y: byte)
    ensures And(x, y) == And(y, x)
  {
  }

  /** STA, STX, STY and SAX */
  lemma StoreLaw(s: Cpu, op: WriteOp, mode: Mode)
    requires ByBits(Code(s, 0)) == Does(Write(op, mode)) && !mode.Imm?
    ensures var v := match op case STA => s.a case STX => s.x case STY => s.y case SAX => And(s.a, s.x);
            Running(s) && Step(s) == Next(s.(ram := s.ram[Located(mode, s) := v]), Bytes(mode), WriteTime(mode))
  {
    hide Decode, Step, ByBits, And, Code, Located, WriteTime, Bytes;
    Writes(s, op, mode);
  }

  lemma StoreOpcodes(op: int)
    requires 0 <= op < 0x100 && op / 0x20 == 4
    ensures op % 4 == 1 && op != 0x89 ==>
              ByBits(op) == Does(Write(STA, match op / 4 % 8
                                            case 0 => IndX case 1 => Zp case 3 => Abs case 4 => IndY
                                            case 5 => ZpX case 6 => AbsY case _ => AbsX))
    ensures op == 0x84 ==> ByBits(op) == Does(Write(STY, Zp))
    ensures op == 0x8c ==> ByBits(op) == Does(Write(STY, Abs))
    ensures op == 0x94 ==> ByBits(op) == Does(Write(STY, ZpX))
    ensures op == 0x86 ==> ByBits(op) == Does(Write(STX, Zp))
    ensures op == 0x8e ==> ByBits(op) == Does(Write(STX, Abs))
    ensures op == 0x96 ==> ByBits(op) == Does(Write(STX, ZpY))
    ensures op == 0x83 ==> ByBits(op) == Does(Write(SAX, IndX))
    ensures op == 0x87 ==> ByBits(op) == Does(Write(SAX, Zp))
    ensures op == 0x8f ==> ByBits(op) == Does(Write(SAX, Abs))
    ensures op == 0x97 ==> ByBits(op) == Does(Write(SAX, ZpY))
  {
  }

  /** SHA, SHX, SHY and SHS store the register ANDed with one more than the high byte
      of the address before indexing; across a page that value replaces the high byte. */
  lemma HighLaw(s: Cpu, base: word, index: byte, register: byte)
    requires Code(s, 0) in {0x93, 0x9b, 0x9c, 0x9e, 0x9f}
    requires base == if Code(s, 0) == 0x93 then Pointer(s, Code(s, 1)) else Code(s, 1) + 0x100 * Code(s, 2) as int
    requires index == if Code(s, 0) == 0x9c then s.x else s.y
    requires register == if Code(s, 0) == 0x9c then s.y else if Code(s, 0) == 0x9e then s.x else And(s.a, s.x)
    ensures var v := And(register, (base / 0x100 + 1) % 0x100);
            var lo := (base + index) % 0x100;
            var addr := if base % 0x100 + index > 0xff then lo + 0x100 * v as int else base + index;
            Running(s) && Step(s) == Next(s.(ram := s.ram[addr % 0x10000 := v],
                                             sp := if Code(s, 0) == 0x9b then And(s.a, s.x) else s.sp),
                                          if Code(s, 0) == 0x93 then 2 else 3, if Code(s, 0) == 0x93 then 4 else 2)
  {
    hide Decode, And, Code, Peek, PeekZeroWord, Pointer, HighStore, Poke, Word;
    Decodes(s);
    PointerLaw(s, Code(s, 1));
    var op := match Code(s, 0) case 0x93 | 0x9f => SHA case 0x9b => SHS case 0x9c => SHY case _ => SHX;
    HighBits(Code(s, 0));
    HighStoreLaw(op, base, index, register, s);
    var v := And(register, (base / 0x100 + 1) % 0x100);
    var (_, addr) := HighStore(op, base, index, s);
    StoredByte(s.ram, addr, v);
    Words(addr, s.pc);
    hide ByBits;
  }

  lemma Words(addr: int, pc: word)
    ensures Word(addr) == addr % 0x10000 && Word(pc + 2) == (pc + 2) % 0x10000 && Word(pc + 3) == (pc + 3) % 0x10000
  {
  }

  lemma HighBits(op: int)
    requires op in {0x93, 0x9b, 0x9c, 0x9e, 0x9f}
    ensures ByBits(op) == Does(match op
                               case 0x93 => WriteHigh(SHA, IndY) case 0x9b => WriteHigh(SHS, AbsY)
                               case 0x9c => WriteHigh(SHY, AbsX) case 0x9e => WriteHigh(SHX, AbsY)
                               case _ => WriteHigh(SHA, AbsY))
  {
  }

  lemma HighStoreLaw(op: ShOp, base: word, index: byte, register: byte, s: Cpu)
    requires register == match op case SHX => s.x case SHY => s.y case SHA | SHS => And(s.a, s.x)
    ensures var v := And(register, (base / 0x100 + 1) % 0x100);
            HighStore(op, base, index, s)
            == (v, if base % 0x100 + index > 0xff then (base + index) % 0x100 + 0x100 * v as int else base + index)
  {
    hide And;
  }

  // ------------------------------------------------ instructions of one byte

  /** CLC, SEC, CLI, SEI, CLV, CLD and SED end in 11000. */
  lemma FlagLaw(s: Cpu)
    requires Code(s, 0) in {0x18, 0x38, 0x58, 0x78, 0xb8, 0xd8, 0xf8}
    ensures Running(s)
    ensures Code(s, 0) == 0x18 ==> Step(s) == Next(s.(f := s.f.(c := false)), 1, 0)
    ensures Code(s, 0) == 0x38 ==> Step(s) == Next(s.(f := s.f.(c := true)), 1, 0)
    ensures Code(s, 0) == 0x58 ==> Step(s) == Next(s.(f := s.f.(i := false)), 1, 0)
    ensures Code(s, 0) == 0x78 ==> Step(s) == Next(s.(f := s.f.(i := true)), 1, 0)
    ensures Code(s, 0) == 0xb8 ==> Step(s) == Next(s.(f := s.f.(v := false)), 1, 0)
    ensures Code(s, 0) == 0xd8 ==> Step(s) == Next(s.(f := s.f.(d := false)), 1, 0)
    ensures Code(s, 0) == 0xf8 ==> Step(s) == Next(s.(f := s.f.(d := true)), 1, 0)
  {
    hide Decode, Step, Code, ByBits;
    FlagBits(Code(s, 0));
    match Code(s, 0) {
      case 0x18 => Implies(s, CLC);
      case 0x38 => Implies(s, SEC);
      case 0x58 => Implies(s, CLI);
      case 0x78 => Implies(s, SEI);
      case 0xb8 => Implies(s, CLV);
      case 0xd8 => Implies(s, CLD);
      case _ => Implies(s, SED);
    }
  }

  lemma FlagBits(op: int)
    requires op in {0x18, 0x38, 0x58, 0x78, 0xb8, 0xd8, 0xf8}
    ensures op == 0x18 ==> ByBits(op) == Does(Implied(CLC))
    ensures op == 0x38 ==> ByBits(op) == Does(Implied(SEC))
    ensures op == 0x58 ==> ByBits(op) == Does(Implied(CLI))
    ensures op == 0x78 ==> ByBits(op) == Does(Implied(SEI))
    ensures op == 0xb8 ==> ByBits(op) == Does(Implied(CLV))
    ensures op == 0xd8 ==> ByBits(op) == Does(Implied(CLD))
    ensures op == 0xf8 ==> ByBits(op) == Does(Implied(SED))
  {
  }

  /** TYA, TXA and TXS, the one transfer that leaves the flags alone */
  lemma TransferLaw(s: Cpu)
    requires Code(s, 0) in {0x98, 0x8a, 0x9a}
    ensures Running(s)
    ensures Code(s, 0) == 0x98 ==> Step(s) == Next(Signs(s.(a := s.y), s.y), 1, 0)
    ensures Code(s, 0) == 0x8a ==> Step(s) == Next(Signs(s.(a := s.x), s.x), 1, 0)
    ensures Code(s, 0) == 0x9a ==> Step(s) == Next(s.(sp := s.x), 1, 0)
  {
    hide Decode, Step, Code, ByBits;
    TransferBits(Code(s, 0));
    match Code(s, 0) {
      case 0x98 => Implies(s, TYA);
      case 0x8a => Implies(s, TXA);
      case _ => Implies(s, TXS);
    }
  }

  lemma TransferBits(op: int)
    requires op in {0x98, 0x8a, 0x9a}
    ensures op == 0x98 ==> ByBits(op) == Does(Implied(TYA))
    ensures op == 0x8a ==> ByBits(op) == Does(Implied(TXA))
    ensures op == 0x9a ==> ByBits(op) == Does(Implied(TXS))
  {
  }

  /** TAY, TAX and TSX */
  lemma TransferBackLaw(s: Cpu)
    requires Code(s, 0) in {0xa8, 0xaa, 0xba}
    ensures Running(s)
    ensures Code(s, 0) == 0xa8 ==> Step(s) == Next(Signs(s.(y := s.a), s.a), 1, 0)
    ensures Code(s, 0) == 0xaa ==> Step(s) == Next(Signs(s.(x := s.a), s.a), 1, 0)
    ensures Code(s, 0) == 0xba ==> Step(s) == Next(Signs(s.(x := s.sp), s.sp), 1, 0)
  {
    hide Decode, Step, Code, ByBits;
    TransferBackBits(Code(s, 0));
    match Code(s, 0) {
      case 0xa8 => Implies(s, TAY);
      case 0xaa => Implies(s, TAX);
      case _ => Implies(s, TSX);
    }
  }

  lemma TransferBackBits(op: int)
    requires op in {0xa8, 0xaa, 0xba}
    ensures op == 0xa8 ==> ByBits(op) == Does(Implied(TAY))
    ensures op == 0xaa ==> ByBits(op) == Does(Implied(TAX))
    ensures op == 0xba ==> ByBits(op) == Does(Implied(TSX))
  {
  }

  /** DEY, DEX, INY and INX */
  lemma CountLaw(s: Cpu)
    requires Code(s, 0) in {0x88, 0xca, 0xc8, 0xe8}
    ensures Running(s)
    ensures Code(s, 0) == 0x88 ==> Step(s) == Next(Signs(s.(y := (s.y + 0xff) % 0x100), (s.y + 0xff) % 0x100), 1, 0)
    ensures Code(s, 0) == 0xca ==> Step(s) == Next(Signs(s.(x := (s.x + 0xff) % 0x100), (s.x + 0xff) % 0x100), 1, 0)
    ensures Code(s, 0) == 0xc8 ==> Step(s) == Next(Signs(s.(y := (s.y + 1) % 0x100), (s.y + 1) % 0x100), 1, 0)
    ensures Code(s, 0) == 0xe8 ==> Step(s) == Next(Signs(s.(x := (s.x + 1) % 0x100), (s.x + 1) % 0x100), 1, 0)
  {
    hide Decode, Step, Code, ByBits;
    CountBits(Code(s, 0));
    match Code(s, 0) {
      case 0x88 => Implies(s, DEY);
      case 0xca => Implies(s, DEX);
      case 0xc8 => Implies(s, INY);
      case _ => Implies(s, INX);
    }
  }

  lemma CountBits(op: int)
    requires op in {0x88, 0xca, 0xc8, 0xe8}
    ensures op == 0x88 ==> ByBits(op) == Does(Implied(DEY))
    ensures op == 0xca ==> ByBits(op) == Does(Implied(DEX))
    ensures op == 0xc8 ==> ByBits(op) == Does(Implied(INY))
    ensures op == 0xe8 ==> ByBits(op) == Does(Implied(INX))
  {
  }

  /** NOPs read their operand in their own time and do nothing else. */
  lemma IdleLaw(s: Cpu, mode: Mode)
    requires ByBits(Code(s, 0)) == Does(Read(NOOP, mode))
    ensures Running(s) && Step(s) == Next(s, Bytes(mode), ReadTime(mode, s))
  {
    hide Decode, Step, ByBits, Code, Located, ReadTime, Bytes;
    Reads(s, NOOP, mode);
  }

  lemma IdleOpcodes(op: int)
    requires 0 <= op < 0x100
    ensures op in {0x80, 0x82, 0x89, 0xc2, 0xe2} ==> ByBits(op) == Does(Read(NOOP, Imm))
    ensures op in {0x04, 0x44, 0x64} ==> ByBits(op) == Does(Read(NOOP, Zp))
    ensures op in {0x14, 0x34, 0x54, 0x74, 0xd4, 0xf4} ==> ByBits(op) == Does(Read(NOOP, ZpX))
    ensures op == 0x0c ==> ByBits(op) == Does(Read(NOOP, Abs))
    ensures op in {0x1c, 0x3c, 0x5c, 0x7c, 0xdc, 0xfc} ==> ByBits(op) == Does(Read(NOOP, AbsX))
  {
  }

  lemma IdleLawImplied(s: Cpu)
    requires Code(s, 0) in {0x1a, 0x3a, 0x5a, 0x7a, 0xda, 0xea, 0xfa}
    ensures Running(s) && Step(s) == Next(s, 1, 0)
  {
    hide Decode, Step, Code;
    Implies(s, NOP);
  }

  /** Exactly these opcodes jam the processor. */
  lemma JamLaw(s: Cpu)
    ensures Running(s) <==> !(Code(s, 0) % 0x10 == 2 && (Code(s, 0) < 0x80 || Code(s, 0) / 0x10 % 2 == 1))
  {
    hide Decode, Code;
    Decodes(s);
    hide Shift, Both, Accumulator, OddMode, EvenMode, OnX;
  }

  // ------------------------------------------------------------------ the fetch

  /** Fetching takes a cycle a byte, and two for an instruction of one byte; JSR leaves
      its last byte for later. */
  lemma FetchLaw(op: byte)
    ensures FetchCycles(op) == match ByBits(op)
                               case Jams => 2
                               case Does(Read(_, mode)) => Bytes(mode)
                               case Does(Write(_, mode)) => Bytes(mode)
                               case Does(WriteHigh(_, mode)) => Bytes(mode)
                               case Does(Modify(_, mode)) => Bytes(mode)
                               case Does(Flow(f)) => if f.JMP? || f.JMP_IND? then 3 else 2
                               case Does(_) => 2
  {
    hide ByBits, FetchesThird;
    SwitchFollowsBits(op);
    SwitchesAgree(op);
    SizeLaw();
  }

  lemma SizeLaw()
    ensures forall mode :: Size(mode) == Bytes(mode)
  {
  }

  /** Three cycles in the columns c to f, and in 9 and b of the odd rows. */
  lemma FetchColumns(op: byte)
    ensures FetchCycles(op) == if op % 0x10 >= 0x0c || op % 0x20 == 0x19 || op % 0x20 == 0x1b then 3 else 2
  {
    OddRow(op);
  }

  lemma OddRow(op: byte)
    ensures op % 0x20 == op % 0x10 + if op / 0x10 % 2 == 1 then 0x10 else 0
  {
  }

  // ------------------------------------------------------- branches and stack

  /** A branch opcode names a flag by its two highest bits and the value it must have
      by the next; taken, it costs one cycle, across a page two. */
  lemma BranchLaw(s: Cpu, flag: bool, next: word, dest: word)
    requires Code(s, 0) % 0x20 == 0x10
    requires flag == match Code(s, 0) / 0x40 case 0 => s.f.n case 1 => s.f.v case 2 => s.f.c case _ => s.f.z
    requires next == (s.pc + 2) % 0x10000
    requires dest == (s.pc + 2 + if Code(s, 1) < 0x80 then Code(s, 1) as int else Code(s, 1) as int - 0x100) % 0x10000
    ensures Running(s)
    ensures Step(s) == if flag != (Code(s, 0) / 0x20 % 2 == 1) then s.(pc := next)
                       else s.(pc := dest, clk := s.clk + if next / 0x100 == dest / 0x100 then 1 else 2)
  {
    hide Decode, Code, Peek, Join;
    Decodes(s);
    BranchBits(Code(s, 0));
    DestLaw(s.pc, Code(s, 1));
    hide ByBits, Word, Signed;
  }

  lemma BranchBits(op: int)
    requires 0 <= op < 0x100 && op % 0x20 == 0x10
    ensures ByBits(op) == Does(Branch(match op / 0x20
                                      case 0 => BPL case 1 => BMI case 2 => BVC case 3 => BVS
                                      case 4 => BCC case 5 => BCS case 6 => BNE case _ => BEQ))
  {
  }

  lemma DestLaw(pc: word, p1: byte)
    ensures Word(pc + 2) == (pc + 2) % 0x10000
    ensures Word(Word(pc + 2) + Signed(p1)) == (pc + 2 + if p1 < 0x80 then p1 as int else p1 as int - 0x100) % 0x10000
  {
  }

  /** The eight branches one by one. */
  lemma BranchesByName(s: Cpu, dest: word)
    requires dest == (s.pc + 2 + if Code(s, 1) < 0x80 then Code(s, 1) as int else Code(s, 1) as int - 0x100) % 0x10000
    requires Code(s, 0) % 0x20 == 0x10 && dest != (s.pc + 2) % 0x10000
    ensures Running(s)
    ensures Code(s, 0) == 0x10 ==> (Step(s).pc == dest <==> !s.f.n)
    ensures Code(s, 0) == 0x30 ==> (Step(s).pc == dest <==> s.f.n)
    ensures Code(s, 0) == 0x50 ==> (Step(s).pc == dest <==> !s.f.v)
    ensures Code(s, 0) == 0x70 ==> (Step(s).pc == dest <==> s.f.v)
    ensures Code(s, 0) == 0x90 ==> (Step(s).pc == dest <==> !s.f.c)
    ensures Code(s, 0) == 0xb0 ==> (Step(s).pc == dest <==> s.f.c)
    ensures Code(s, 0) == 0xd0 ==> (Step(s).pc == dest <==> !s.f.z)
    ensures Code(s, 0) == 0xf0 ==> (Step(s).pc == dest <==> s.f.z)
  {
    hide Step, Running, Code;
    var flag := match Code(s, 0) / 0x40 case 0 => s.f.n case 1 => s.f.v case 2 => s.f.c case _ => s.f.z;
    BranchLaw(s, flag, (s.pc + 2) % 0x10000, dest);
  }

  /** N V 1 B D I Z C */
  function Packed(f: Flags, b: bool): byte {
    (if f.n then 0x80 else 0) + (if f.v then 0x40 else 0) + 0x20 + (if b then 0x10 else 0)
    + (if f.d then 0x08 else 0) + (if f.i then 0x04 else 0) + (if f.z then 0x02 else 0) + (if f.c then 0x01 else 0)
  }

  function Unpacked(v: byte): Flags {
    Flags(v / 0x80 % 2 == 1, v / 0x40 % 2 == 1, v / 0x10 % 2 == 1, v / 0x08 % 2 == 1,
          v / 0x04 % 2 == 1, v / 0x02 % 2 == 1, v % 2 == 1)
  }

  /** Memory with bytes pushed below `sp`, the first one highest, wrapping in page one. */
  function Pushed1(m: Ram, sp: int, v: byte): Ram { m[0x100 + sp % 0x100 := v] }

  function Pulled1(s: Cpu, k: nat): byte { s.ram[0x100 + (s.sp + k) % 0x100] }

  lemma PushLaw(s: Cpu, v: byte)
    ensures Push(s, v) == s.(ram := Pushed1(s.ram, s.sp, v), sp := (s.sp + 0xff) % 0x100)
  {
  }

  lemma PackedLaw(f: Flags, b: bool)
    ensures Status(f.(b := b)) == Packed(f, b)
  {
  }

  lemma UnpackedLaw(v: byte)
    ensures FromStatus(v) == Unpacked(v)
  {
  }

  lemma TopLaw(s: Cpu)
    ensures Top(s) == Pulled1(s, 1) && Top(Pulled(s)) == Pulled1(s, 2) && Top(Pulled(Pulled(s))) == Pulled1(s, 3)
  {
  }

  /** PHP, PLP, PHA and PLA */
  lemma StackLaw(s: Cpu)
    requires Code(s, 0) in {0x08, 0x28, 0x48, 0x68}
    ensures Running(s)
    ensures Code(s, 0) == 0x08 ==>
              Step(s) == Next(s.(ram := Pushed1(s.ram, s.sp, Packed(s.f, true)), sp := (s.sp + 0xff) % 0x100), 1, 1)
    ensures Code(s, 0) == 0x48 ==>
              Step(s) == Next(s.(ram := Pushed1(s.ram, s.sp, s.a), sp := (s.sp + 0xff) % 0x100), 1, 1)
    ensures Code(s, 0) == 0x28 ==> Step(s) == Next(s.(f := Unpacked(Pulled1(s, 1)), sp := (s.sp + 1) % 0x100), 1, 2)
    ensures Code(s, 0) == 0x68 ==>
              Step(s) == Next(Signs(s.(a := Pulled1(s, 1), sp := (s.sp + 1) % 0x100), Pulled1(s, 1)), 1, 2)
  {
    hide Decode, Step, Code, Push, Top, Status, FromStatus, Packed, Unpacked, Pushed1, Pulled1, Join;
    Flows(s, match Code(s, 0) case 0x08 => PHP case 0x28 => PLP case 0x48 => PHA case _ => PLA);
    PushLaw(s, s.a);
    PushLaw(s, Packed(s.f, true));
    PackedLaw(s.f, true);
    TopLaw(s);
    UnpackedLaw(Pulled1(s, 1));
  }

  /** A word pushed high byte first. */
  function Pushed2(m: Ram, sp: int, w: word): Ram { Pushed1(Pushed1(m, sp, w / 0x100), sp + 0xff, w % 0x100) }

  function Pushed3(m: Ram, sp: int, w: word, v: byte): Ram { Pushed1(Pushed2(m, sp, w), sp + 0xfe, v) }

  lemma PushWordLaw(s: Cpu, w: word)
    ensures PushWord(s, w) == s.(ram := Pushed2(s.ram, s.sp, w), sp := (s.sp + 0xfe) % 0x100)
  {
    PushLaw(s, w / 0x100);
    PushLaw(Push(s, w / 0x100), w % 0x100);
    hide Push, Poke;
  }

  lemma FrameLaw(s: Cpu, w: word, v: byte)
    ensures Push(PushWord(s, w), v) == s.(ram := Pushed3(s.ram, s.sp, w, v), sp := (s.sp + 0xfd) % 0x100)
  {
    PushWordLaw(s, w);
    PushLaw(PushWord(s, w), v);
    hide Push, Poke, PushWord, Pushed2;
  }

  function WordAt(m: Ram, at: int): word { m[at % 0x10000] + 0x100 * m[(at + 1) % 0x10000] as int }

  lemma VectorLaw(m: Ram, at: int)
    ensures PeekWord(m, at) == WordAt(m, at)
  {
  }

  /** JSR pushes the address of its own last byte, which it fetches only then. */
  lemma CallLaw(s: Cpu)
    requires Code(s, 0) == 0x20
    ensures Running(s)
    ensures var m := Pushed2(s.ram, s.sp, (s.pc + 2) % 0x10000);
            Step(s) == s.(ram := m, sp := (s.sp + 0xfe) % 0x100, clk := s.clk + 4,
                          pc := Code(s, 1) + 0x100 * m[(s.pc + 2) % 0x10000] as int)
  {
    hide Decode, Step, Code, PushWord, Pushed2, Push;
    Flows(s, JSR);
    PushWordLaw(s, (s.pc + 2) % 0x10000);
  }

  /** JMP, and JMP (a) whose pointer wraps in its page. */
  lemma JumpLaw(s: Cpu, a: word)
    requires (Code(s, 0) == 0x4c || Code(s, 0) == 0x6c) && a == Code(s, 1) + 0x100 * Code(s, 2) as int
    ensures Running(s)
    ensures Step(s) == if Code(s, 0) == 0x4c then s.(pc := a) else
                         var above := a / 0x100 * 0x100 + (a + 1) % 0x100;
                         s.(pc := s.ram[a] + 0x100 * s.ram[above] as int, clk := s.clk + 2)
  {
    hide Decode, Step, Code, Peek, Low, High;
    Flows(s, if Code(s, 0) == 0x4c then JMP else JMP_IND);
    SamePage(a);
    PeekLaw(s.ram, a);
    PeekLaw(s.ram, a / 0x100 * 0x100 + (a + 1) % 0x100);
  }

  lemma SamePage(a: word)
    ensures Join(Low(a + 1), High(a)) == a / 0x100 * 0x100 + (a + 1) % 0x100
  {
  }

  lemma PeekLaw(m: Ram, a: word)
    ensures Peek(m, a) == m[a]
  {
  }

  /** RTS resumes after the pulled address. */
  lemma ReturnLaw(s: Cpu)
    requires Code(s, 0) == 0x60
    ensures Running(s)
    ensures Step(s) == s.(sp := (s.sp + 2) % 0x100, clk := s.clk + 4,
                          pc := (Pulled1(s, 1) + 0x100 * Pulled1(s, 2) as int + 1) % 0x10000)
  {
    hide Decode, Step, Code, Top, Pulled1, Join, Word;
    Flows(s, RTS);
    TopLaw(s);
    ResumeLaw(Pulled1(s, 1), Pulled1(s, 2));
    SpLaw(s.sp);
    hide Low;
  }

  lemma ResumeLaw(lo: byte, hi: byte)
    ensures Word(Join(lo, hi) + 1) == (lo + 0x100 * hi as int + 1) % 0x10000
  {
  }

  lemma SpLaw(sp: byte)
    ensures Low(Low(sp + 1) + 1) == (sp + 2) % 0x100
  {
  }

  /** RTI resumes at it, with the flags pulled before. */
  lemma InterruptReturnLaw(s: Cpu)
    requires Code(s, 0) == 0x40
    ensures Running(s)
    ensures Step(s) == s.(sp := (s.sp + 3) % 0x100, clk := s.clk + 4, f := Unpacked(Pulled1(s, 1)),
                          pc := Pulled1(s, 2) + 0x100 * Pulled1(s, 3) as int)
  {
    hide Decode, Step, Code, Top, FromStatus, Unpacked, Pulled1;
    Flows(s, RTI);
    TopLaw(s);
    UnpackedLaw(Pulled1(s, 1));
  }

  lemma InterruptedLaw(s: Cpu, b: bool, vector: word)
    ensures var m := Pushed3(s.ram, s.sp, s.pc, Packed(s.f, b));
            Interrupted(s, b, vector)
            == s.(ram := m, sp := (s.sp + 0xfd) % 0x100, f := s.f.(b := b, i := true), pc := WordAt(m, vector))
  {
    hide Push, PushWord, Pushed3, Packed, Status, PeekWord, WordAt;
    var t := s.(f := s.f.(b := b));
    PackedLaw(s.f, b);
    FrameLaw(t, s.pc, Packed(s.f, b));
    VectorLaw(Pushed3(s.ram, s.sp, s.pc, Packed(s.f, b)), vector);
  }

  /** BRK pushes the address two bytes on and a status with the break bit set. */
  lemma BreakLaw(s: Cpu)
    requires Code(s, 0) == 0x00
    ensures Running(s)
    ensures var m := Pushed3(s.ram, s.sp, (s.pc + 2) % 0x10000, Packed(s.f, true));
            Step(s) == s.(ram := m, sp := (s.sp + 0xfd) % 0x100, f := s.f.(b := true, i := true),
                          pc := WordAt(m, 0xfffe), clk := s.clk + 5)
  {
    hide Decode, Step, Code, Interrupted, Pushed3, Packed, WordAt;
    Flows(s, BRK);
    InterruptedLaw(s.(pc := (s.pc + 2) % 0x10000), true, 0xfffe);
  }

  /** An IRQ or NMI pushes the address to resume at and a status with it clear. */
  lemma InterruptLaw(s: Cpu)
    ensures var m := Pushed3(s.ram, s.sp, s.pc, Packed(s.f, false));
            var t := s.(ram := m, sp := (s.sp + 0xfd) % 0x100, f := s.f.(b := false, i := true), clk := s.clk + 7);
            After(Irq, s) == t.(pc := WordAt(m, 0xfffe)) && After(Nmi, s) == t.(pc := WordAt(m, 0xfffa))
  {
    hide Interrupted, Pushed3, Packed, WordAt;
    InterruptedLaw(s, false, 0xfffe);
    InterruptedLaw(s, false, 0xfffa);
  }
}
