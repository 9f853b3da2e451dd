/**
 What one 6510 instruction does, with the status register kept whole: the
 reference both emulator cores are compared with.  Memory is flat RAM; `clk`
 counts the cycles charged after the opcode fetch.
 */
module CpuModel {
  import opened Arithmetic

  type byte = x: int | 0 <= x < 0x100
  type word = x: int | 0 <= x < 0x10000
  type Ram = m: seq<byte> | |m| == 0x10000 witness seq(0x10000, _ => 0)

  datatype Flags = Flags(n: bool, v: bool, b: bool, d: bool, i: bool, z: bool, c: bool)

  datatype Cpu = Cpu(a: byte, x: byte, y: byte, sp: byte, f: Flags, pc: word, ram: Ram, clk: nat)

  // ------------------------------------------------------------ bytes and words

  function Low(n: int): byte { n % 0x100 }

  function High(w: word): byte { w / 0x100 }

  function Word(n: int): word { n % 0x10000 }

  function Join(lo: byte, hi: byte): word { lo + 0x100 * hi }

  function And(x: byte, y: byte): byte { ((x as bv8) & (y as bv8)) as byte }

  function Or(x: byte, y: byte): byte { ((x as bv8) | (y as bv8)) as byte }

  function Xor(x: byte, y: byte): byte { ((x as bv8) ^ (y as bv8)) as byte }

  function One(c: bool): (r: byte)
    ensures r <= 1
  {
    if c then 1 else 0
  }

  /** Whether indexing leaves the page. */
  predicate Crosses(base: word, index: byte) { Low(base) + index > 0xff }

  function Peek(m: Ram, addr: int): byte { m[Word(addr)] }

  function Poke(m: Ram, addr: int, value: int): Ram { m[Word(addr) := Low(value)] }

  /** LOAD takes its address modulo 16 bits. */
  lemma PeekWrapped(m: Ram, addr: int)
    ensures Peek(m, Word(addr)) == Peek(m, addr)
  {
  }

  lemma PokeWrapped(m: Ram, addr: int, value: int)
    ensures Poke(m, Word(addr), value) == Poke(m, addr, value)
  {
  }

  /** STORE truncates its value to a byte. */
  lemma PokeLow(m: Ram, addr: int, value: int)
    ensures Poke(m, addr, Low(value)) == Poke(m, addr, value)
  {
  }

  function PeekZero(m: Ram, addr: int): byte { Peek(m, Low(addr)) }

  function PeekWord(m: Ram, addr: int): word { Join(Peek(m, addr), Peek(m, addr + 1)) }

  function PeekZeroWord(m: Ram, addr: int): word { Join(PeekZero(m, addr), PeekZero(m, addr + 1)) }

  // ------------------------------------------------------------------ the status

  function Bit(v: byte, weight: int): bool requires weight > 0 { v / weight % 2 == 1 }

  /** The byte PHP and interrupts push. */
  function Status(f: Flags): byte {
    0x80 * One(f.n) + 0x40 * One(f.v) + 0x20 + 0x10 * One(f.b)
    + 0x08 * One(f.d) + 0x04 * One(f.i) + 0x02 * One(f.z) + One(f.c)
  }

  function FromStatus(v: byte): Flags {
    Flags(Bit(v, 0x80), Bit(v, 0x40), Bit(v, 0x10), Bit(v, 0x08), Bit(v, 0x04), Bit(v, 0x02), Bit(v, 0x01))
  }

  /** What both cores keep in `reg_p`; its Z and N bits are never set. */
  datatype RegP = RegP(v: bool, b: bool, d: bool, i: bool, c: bool)

  function RegPOf(v: byte): RegP {
    RegP(Bit(v, 0x40), Bit(v, 0x10), Bit(v, 0x08), Bit(v, 0x04), Bit(v, 0x01))
  }

  /** The flags that `reg_p`, `flag_n` and `flag_z` stand for. */
  function Eager(p: RegP, flagN: byte, flagZ: byte): Flags {
    Flags(flagN >= 0x80, p.v, p.b, p.d, p.i, flagZ == 0, p.c)
  }

  /** LOCAL_STATUS puts the two lazy flags back in. */
  function LazyStatus(p: RegP, flagN: byte, flagZ: byte): (v: byte)
    ensures v == Status(Eager(p, flagN, flagZ))
  {
    var regP := 0x40 * One(p.v) + 0x10 * One(p.b) + 0x08 * One(p.d) + 0x04 * One(p.i) + One(p.c);
    regP + 0x80 * One(flagN >= 0x80) + 0x20 + 0x02 * One(flagZ == 0)
  }

  /** One bit forced on. */
  function WithBit(v: byte, weight: int): byte
    requires weight == 0x10 || weight == 0x20
  {
    if Bit(v, weight) then v else v + weight
  }

  /** PHP sets the break bit in the pushed byte only. */
  lemma StatusBreak(f: Flags)
    ensures WithBit(Status(f), 0x10) == Status(f.(b := true))
  {
  }

  function NZ(f: Flags, v: byte): Flags { f.(n := v >= 0x80, z := v == 0) }

  // ------------------------------------------------------------ instructions

  datatype Mode = Imm | Zp | ZpX | ZpY | Abs | AbsX | AbsY | IndX | IndY

  datatype ReadOp =
    | ADC | AND | BIT | CMP | CPX | CPY | EOR | LAS | LAX | LDA | LDX | LDY | NOOP | ORA | SBC
    | ANC | ANE | ARR | ASR | LXA | SBX

  datatype WriteOp = STA | STX | STY | SAX

  datatype ModifyOp = ASL | DEC | INC | LSR | ROL | ROR | DCP | ISB | RLA | RRA | SLO | SRE

  /** The stores whose value depends on the high byte of the address. */
  datatype ShOp = SHA | SHX | SHY | SHS

  datatype ImpliedOp =
    | ASL_A | LSR_A | ROL_A | ROR_A
    | CLC | CLD | CLI | CLV | SEC | SED | SEI
    | DEX | DEY | INX | INY | TAX | TAY | TSX | TXA | TXS | TYA | NOP

  datatype FlowOp = BRK | JMP | JMP_IND | JSR | RTI | RTS | PHA | PHP | PLA | PLP

  datatype Condition = BCC | BCS | BEQ | BMI | BNE | BPL | BVC | BVS

  datatype Instruction =
    | Read(rop: ReadOp, mode: Mode)
    | Write(wop: WriteOp, mode: Mode)
    | WriteHigh(sop: ShOp, mode: Mode)
    | Modify(mop: ModifyOp, mode: Mode)
    | Implied(iop: ImpliedOp)
    | Branch(cond: Condition)
    | Flow(fop: FlowOp)

  /** What an opcode stands for. */
  datatype Decoded = Jams | Does(instruction: Instruction)

  datatype MaybeMode = NoMode | In(mode: Mode)

  // ------------------------------------------------------------ addressing

  function Size(mode: Mode): nat { match mode case Abs | AbsX | AbsY => 3 case _ => 2 }

  /** The address before indexing, and the index. */
  function Base(mode: Mode, s: Cpu, p1: byte, p2: word): (word, byte) {
    match mode
    case Imm => (0, 0)
    case Zp => (p1, 0)
    case ZpX => (p1, s.x)
    case ZpY => (p1, s.y)
    case Abs => (p2, 0)
    case AbsX => (p2, s.x)
    case AbsY => (p2, s.y)
    case IndX => (PeekZeroWord(s.ram, p1 + s.x), 0)
    case IndY => (PeekZeroWord(s.ram, p1), s.y)
  }

  /** Memory wraps an address at 16 bits, the zero page at 8. */
  function Address(mode: Mode, s: Cpu, p1: byte, p2: word): int {
    var (base, index) := Base(mode, s, p1, p2);
    match mode case Zp | ZpX | ZpY => Low(base + index) case _ => base + index
  }

  lemma AddressFrame(mode: Mode, s: Cpu, t: Cpu, p1: byte, p2: word)
    requires t.x == s.x && t.y == s.y && t.ram == s.ram
    ensures Address(mode, t, p1, p2) == Address(mode, s, p1, p2)
  {
    hide Peek, Low, Join;
  }

  function Operand(mode: Mode, s: Cpu, p1: byte, p2: word): byte {
    if mode == Imm then p1 else Peek(s.ram, Address(mode, s, p1, p2))
  }

  /** A read pays one more cycle when indexing leaves the page; a write or a
      read-modify-write always pays it. */
  function ReadCycles(mode: Mode, s: Cpu, p1: byte, p2: word): nat {
    var (base, index) := Base(mode, s, p1, p2);
    match mode
    case Imm => 0
    case Zp | Abs => 1
    case ZpX | ZpY => 2
    case AbsX | AbsY => 1 + One(Crosses(base, index))
    case IndX => 4
    case IndY => 3 + One(Crosses(base, index))
  }

  function WriteCycles(mode: Mode): nat {
    match mode
    case Imm => 0
    case Zp | Abs => 1
    case ZpX | ZpY | AbsX | AbsY => 2
    case IndX | IndY => 4
  }

  function ModifyCycles(mode: Mode): nat { WriteCycles(mode) + 2 }

  // ------------------------------------------------------------ effects

  /** Accumulator and flags from an addition or subtraction. */
  function WithAlu(s: Cpu, r: Alu): Cpu {
    s.(a := r.a as byte, f := s.f.(n := r.negative, v := r.overflow, z := r.zero, c := r.carry))
  }

  function WithA(s: Cpu, v: byte): Cpu { s.(a := v, f := NZ(s.f, v)) }

  function Compared(s: Cpu, register: byte, v: byte): Cpu {
    s.(f := NZ(s.f, Low(register - v)).(c := register >= v))
  }

  const ANE_MAGIC: byte := 0xef
  const LXA_MAGIC: byte := 0xee

  function ReadEffect(op: ReadOp, s: Cpu, v: byte): Cpu {
    match op
    case ADC => WithAlu(s, Adc6510(s.f.d, s.a as bv8, v as bv8, s.f.c))
    case SBC => WithAlu(s, Sbc6510(s.f.d, s.a as bv8, v as bv8, s.f.c))
    case ARR => WithAlu(s, Arr6510(s.f.d, s.a as bv8, v as bv8, s.f.c))
    case AND => WithA(s, And(s.a, v))
    case ORA => WithA(s, Or(s.a, v))
    case EOR => WithA(s, Xor(s.a, v))
    case LDA => WithA(s, v)
    case LDX => s.(x := v, f := NZ(s.f, v))
    case LDY => s.(y := v, f := NZ(s.f, v))
    case LAX => WithA(s, v).(x := v)
    case LAS => var w := And(s.sp, v); WithA(s, w).(x := w, sp := w)
    case ANC => var w := And(s.a, v); s.(a := w, f := NZ(s.f, w).(c := w >= 0x80))
    case ASR => var w := And(s.a, v); s.(a := w / 2, f := NZ(s.f, w / 2).(c := Bit(w, 1)))
    case ANE => WithA(s, And(And(Or(s.a, ANE_MAGIC), s.x), v))
    case LXA => var w := And(Or(s.a, LXA_MAGIC), v); WithA(s, w).(x := w)
    case SBX => var w := And(s.a, s.x); s.(x := Low(w - v), f := NZ(s.f, Low(w - v)).(c := w >= v))
    case BIT => s.(f := s.f.(n := v >= 0x80, v := Bit(v, 0x40), z := And(v, s.a) == 0))
    case CMP => Compared(s, s.a, v)
    case CPX => Compared(s, s.x, v)
    case CPY => Compared(s, s.y, v)
    case NOOP => s
  }

  function Written(op: WriteOp, s: Cpu): byte {
    match op
    case STA => s.a
    case STX => s.x
    case STY => s.y
    case SAX => And(s.a, s.x)
  }

  /** The new registers and flags, and the byte written back. */
  function ModifyEffect(op: ModifyOp, s: Cpu, v: byte): (Cpu, byte) {
    match op
    case ASL => var w := Low(2 * v); (s.(f := NZ(s.f, w).(c := v >= 0x80)), w)
    case LSR => (s.(f := NZ(s.f, v / 2).(c := Bit(v, 1))), v / 2)
    case ROL => var w := Low(2 * v + One(s.f.c)); (s.(f := NZ(s.f, w).(c := v >= 0x80)), w)
    case ROR => var w := v / 2 + 0x80 * One(s.f.c); (s.(f := NZ(s.f, w).(c := Bit(v, 1))), w)
    case DEC => var w := Low(v - 1); (s.(f := NZ(s.f, w)), w)
    case INC => var w := Low(v + 1); (s.(f := NZ(s.f, w)), w)
    case DCP => var w := Low(v - 1); (Compared(s, s.a, w), w)
    case ISB => var w := Low(v + 1); (ReadEffect(SBC, s, w), w)
    case SLO => var w := Low(2 * v); (ReadEffect(ORA, s.(f := s.f.(c := v >= 0x80)), w), w)
    case RLA => var w := Low(2 * v + One(s.f.c)); (ReadEffect(AND, s.(f := s.f.(c := v >= 0x80)), w), w)
    case SRE => (ReadEffect(EOR, s.(f := s.f.(c := Bit(v, 1))), v / 2), v / 2)
    case RRA => var w := v / 2 + 0x80 * One(s.f.c); (ReadEffect(ADC, s.(f := s.f.(c := Bit(v, 1))), w), w)
  }

  /** Effects change registers and flags only, and do not look at the clock. */
  lemma ReadEffectFrame(op: ReadOp, s: Cpu, v: byte, clk: nat)
    ensures var t := ReadEffect(op, s, v);
            t.ram == s.ram && t.pc == s.pc && t.clk == s.clk && ReadEffect(op, s.(clk := clk), v) == t.(clk := clk)
  {
    hide And, Or, Xor, Adc6510, Sbc6510, Arr6510, Low, Bit;
  }

  lemma AdcIgnoresNZ(s: Cpu, v: byte)
    ensures ReadEffect(ADC, s.(f := NZ(s.f, v)), v) == ReadEffect(ADC, s, v)
  {
    hide And, Or, Xor, Adc6510, Sbc6510, Arr6510, Low, Bit;
    var f := NZ(s.f, v);
    assert f.d == s.f.d && f.c == s.f.c && f.i == s.f.i && f.b == s.f.b;
  }

  lemma LowLow(n: int)
    ensures Low(Low(n)) == Low(n)
  {
  }

  lemma ModifyEffectFrame(op: ModifyOp, s: Cpu, v: byte)
    ensures var t := ModifyEffect(op, s, v).0;
            t.x == s.x && t.y == s.y && t.ram == s.ram && t.pc == s.pc && t.clk == s.clk
  {
    hide And, Or, Xor, Adc6510, Sbc6510, Arr6510, Low, Bit, One, NZ;
  }

  lemma ModifyEffectClock(op: ModifyOp, s: Cpu, v: byte, clk: nat)
    ensures ModifyEffect(op, s.(clk := clk), v)
            == (ModifyEffect(op, s, v).0.(clk := clk), ModifyEffect(op, s, v).1)
  {
    hide ReadEffect, Low, Bit, One, NZ;
    match op {
      case ISB => ReadEffectFrame(SBC, s, Low(v + 1), clk);
      case SLO => ReadEffectFrame(ORA, s.(f := s.f.(c := v >= 0x80)), Low(2 * v), clk);
      case RLA => ReadEffectFrame(AND, s.(f := s.f.(c := v >= 0x80)), Low(2 * v + One(s.f.c)), clk);
      case SRE => ReadEffectFrame(EOR, s.(f := s.f.(c := Bit(v, 1))), v / 2, clk);
      case RRA => ReadEffectFrame(ADC, s.(f := s.f.(c := Bit(v, 1))), v / 2 + 0x80 * One(s.f.c), clk);
      case _ =>
    }
  }

  function WithShift(s: Cpu, op: ModifyOp): Cpu {
    var (t, w) := ModifyEffect(op, s, s.a);
    t.(a := w)
  }

  function ImpliedEffect(op: ImpliedOp, s: Cpu): Cpu {
    match op
    case ASL_A => WithShift(s, ASL)
    case LSR_A => WithShift(s, LSR)
    case ROL_A => WithShift(s, ROL)
    case ROR_A => WithShift(s, ROR)
    case CLC => s.(f := s.f.(c := false))
    case CLD => s.(f := s.f.(d := false))
    case CLI => s.(f := s.f.(i := false))
    case CLV => s.(f := s.f.(v := false))
    case SEC => s.(f := s.f.(c := true))
    case SED => s.(f := s.f.(d := true))
    case SEI => s.(f := s.f.(i := true))
    case DEX => ReadEffect(LDX, s, Low(s.x - 1))
    case DEY => ReadEffect(LDY, s, Low(s.y - 1))
    case INX => ReadEffect(LDX, s, Low(s.x + 1))
    case INY => ReadEffect(LDY, s, Low(s.y + 1))
    case TAX => ReadEffect(LDX, s, s.a)
    case TAY => ReadEffect(LDY, s, s.a)
    case TSX => ReadEffect(LDX, s, s.sp)
    case TXA => WithA(s, s.x)
    case TYA => WithA(s, s.y)
    case TXS => s.(sp := s.x)
    case NOP => s
  }

  // ------------------------------------------------------------ stack and flow

  function Push(s: Cpu, v: byte): Cpu { s.(ram := Poke(s.ram, 0x100 + s.sp, v), sp := Low(s.sp - 1)) }

  function PushWord(s: Cpu, w: word): Cpu { Push(Push(s, High(w)), Low(w)) }

  function Pulled(s: Cpu): Cpu { s.(sp := Low(s.sp + 1)) }

  /** The byte a pull returns. */
  function Top(s: Cpu): byte { Peek(s.ram, 0x100 + Low(s.sp + 1)) }

  function PulledWord(s: Cpu): (Cpu, word) {
    (Pulled(Pulled(s)), Join(Top(s), Top(Pulled(s))))
  }

  function Holds(cond: Condition, f: Flags): bool {
    match cond
    case BCC => !f.c case BCS => f.c
    case BNE => !f.z case BEQ => f.z
    case BPL => !f.n case BMI => f.n
    case BVC => !f.v case BVS => f.v
  }

  function Signed(v: byte): int { if v < 0x80 then v else v - 0x100 }

  function Branched(cond: Condition, s: Cpu, p1: byte): Cpu {
    var next := Word(s.pc + 2);
    var dest := Word(next + Signed(p1));
    if Holds(cond, s.f) then s.(pc := dest, clk := s.clk + 1 + One(High(next) != High(dest)))
    else s.(pc := next)
  }

  /** Push the program counter and the status, mask interrupts and jump. */
  function Interrupted(s: Cpu, break_: bool, vector: word): Cpu {
    var t := s.(f := s.f.(b := break_));
    var t := Push(PushWord(t, t.pc), Status(t.f));
    t.(f := t.f.(i := true), pc := PeekWord(t.ram, vector))
  }

  function FlowEffect(op: FlowOp, s: Cpu, p1: byte, p2: word): Cpu {
    match op
    case JMP => s.(pc := p2)
    case JMP_IND => s.(pc := Join(Peek(s.ram, p2), Peek(s.ram, Join(Low(p2 + 1), High(p2)))), clk := s.clk + 2)
    case JSR =>
      var t := PushWord(s, Word(s.pc + 2));
      t.(pc := Join(p1, Peek(t.ram, s.pc + 2)), clk := s.clk + 4)
    case RTS => var (t, w) := PulledWord(s); t.(pc := Word(w + 1), clk := s.clk + 4)
    case RTI =>
      var (t, w) := PulledWord(Pulled(s));
      t.(f := FromStatus(Top(s)), pc := w, clk := s.clk + 4)
    case BRK => Interrupted(s.(pc := Word(s.pc + 2)), true, 0xfffe).(clk := s.clk + 5)
    case PHA => Push(s, s.a).(pc := Word(s.pc + 1), clk := s.clk + 1)
    case PHP => Push(s, Status(s.f.(b := true))).(pc := Word(s.pc + 1), clk := s.clk + 1)
    case PLA => WithA(Pulled(s), Top(s)).(pc := Word(s.pc + 1), clk := s.clk + 2)
    case PLP => Pulled(s).(f := FromStatus(Top(s)), pc := Word(s.pc + 1), clk := s.clk + 2)
  }

  // ------------------------------------------------------------ one instruction

  function Advanced(s: Cpu, size: nat, cycles: nat): Cpu {
    s.(pc := Word(s.pc + size), clk := s.clk + cycles)
  }

  /** The value and the address of a store that depends on the high address byte. */
  function HighStore(op: ShOp, base: word, index: byte, s: Cpu): (byte, int) {
    var register := match op case SHX => s.x case SHY => s.y case SHA | SHS => And(s.a, s.x);
    var v := And(register, Low(High(base) + 1));
    (v, if Crosses(base, index) then Join(Low(base + index), v) else base + index)
  }

  function Exec(i: Instruction, s: Cpu, p1: byte, p2: word): Cpu {
    match i
    case Read(op, mode) =>
      Advanced(ReadEffect(op, s, Operand(mode, s, p1, p2)), Size(mode), ReadCycles(mode, s, p1, p2))
    case Write(op, mode) =>
      Advanced(s.(ram := Poke(s.ram, Address(mode, s, p1, p2), Written(op, s))), Size(mode), WriteCycles(mode))
    case WriteHigh(op, mode) =>
      var (base, index) := Base(mode, s, p1, p2);
      var (v, addr) := HighStore(op, base, index, s);
      var t := s.(ram := Poke(s.ram, addr, v), sp := if op.SHS? then And(s.a, s.x) else s.sp);
      Advanced(t, Size(mode), WriteCycles(mode))
    case Modify(op, mode) =>
      var addr := Address(mode, s, p1, p2);
      var (t, w) := ModifyEffect(op, s, Peek(s.ram, addr));
      Advanced(t.(ram := Poke(s.ram, addr, w)), Size(mode), ModifyCycles(mode))
    case Implied(op) => Advanced(ImpliedEffect(op, s), 1, 0)
    case Branch(cond) => Branched(cond, s, p1)
    case Flow(op) => FlowEffect(op, s, p1, p2)
  }
}
