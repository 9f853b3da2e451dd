/**
 Whole runs: any program, for any number of instructions, does the same on both
 6510 cores, and does the same whichever way its opcodes are fetched.
 */
module CpuRuns {
  import opened CpuModel
  import opened SwitchTables
  import opened SwitchRows
  import opened Core6510s
  import opened CoreDtvs
  import A = Switch6510
  import B = SwitchDtv

  /** The instruction an opcode stands for; none for the jamming ones. */
  function Decode(opcode: byte): Decoded { A.Meaning(A.Switch(opcode)) }

  predicate Running(s: Cpu) { Decode(Peek(s.ram, s.pc)).Does? }

  function Step(s: Cpu): Cpu
    requires Running(s)
  {
    var p1 := Peek(s.ram, s.pc + 1);
    Exec(Decode(Peek(s.ram, s.pc)).instruction, s, p1, Join(p1, Peek(s.ram, s.pc + 2)))
  }

  /** What can happen at an instruction boundary; interrupts come at any of them. */
  datatype Event = Instruction | Irq | Nmi

  /** A jammed CPU stays put. */
  function After(e: Event, s: Cpu): Cpu {
    match e
    case Instruction => if Running(s) then Step(s) else s
    case Irq => Interrupted(s, false, 0xfffe).(clk := s.clk + 7)
    case Nmi => Interrupted(s, false, 0xfffa).(clk := s.clk + 7)
  }

  function Run(es: seq<Event>, s: Cpu): Cpu {
    if es == [] then s else Run(es[1..], After(es[0], s))
  }

  // ---------------------------------------------------- the two cores in lockstep

  method Boundary6510(c: Core6510, e: Event)
    modifies c
    ensures c.View() == After(e, old(c.View()))
  {
    hide Exec, Peek, Join, Interrupted, A.Switch, A.Meaning;
    match e
    case Instruction =>
      var opcode, p1, p2 := Peek(c.ram, c.pc), Peek(c.ram, c.pc + 1), Peek(c.ram, c.pc + 2);
      if A.Meaning(A.Switch(opcode)).Does? {
        c.Execute(opcode, p1, Join(p1, p2));
      }
    case Irq => c.Interrupt(0xfffe);
    case Nmi => c.Interrupt(0xfffa);
  }

  method BoundaryDtv(c: CoreDtv, e: Event)
    modifies c
    ensures c.View() == After(e, old(c.View()))
  {
    hide Exec, Peek, Join, Interrupted, SameArm, A.Switch, A.Meaning, B.Switch, B.Meaning;
    match e
    case Instruction =>
      var opcode, p1, p2 := Peek(c.ram, c.pc), Peek(c.ram, c.pc + 1), Peek(c.ram, c.pc + 2);
      SwitchesAgree(opcode);
      if B.Meaning(B.Switch(opcode)).Does? {
        c.Execute(opcode, p1, Join(p1, p2));
      }
    case Irq => c.Irq();
    case Nmi => c.Nmi();
  }

  method Run6510(c: Core6510, es: seq<Event>)
    modifies c
    ensures c.View() == Run(es, old(c.View()))
  {
    hide After;
    var k := 0;
    while k < |es|
      invariant k <= |es| && Run(es[k..], c.View()) == Run(es, old(c.View()))
    {
      assert es[k..][1..] == es[k + 1..];
      Boundary6510(c, es[k]);
      k := k + 1;
    }
  }

  method RunDtv(c: CoreDtv, es: seq<Event>)
    modifies c
    ensures c.View() == Run(es, old(c.View()))
  {
    hide After;
    var k := 0;
    while k < |es|
      invariant k <= |es| && Run(es[k..], c.View()) == Run(es, old(c.View()))
    {
      assert es[k..][1..] == es[k + 1..];
      BoundaryDtv(c, es[k]);
      k := k + 1;
    }
  }

  /** Started equal and interrupted alike, the two cores end equal, whatever the
      program: registers, status, memory and cycles. */
  method Lockstep(c: Core6510, d: CoreDtv, es: seq<Event>)
    requires c.View() == d.View()
    modifies c, d
    ensures c.View() == d.View() == Run(es, old(c.View()))
  {
    Run6510(c, es);
    RunDtv(d, es);
  }

  // ------------------------------------------------------------------ the status

  /** LOCAL_SET_STATUS then LOCAL_STATUS gives the byte back with only the unused
      bit forced on; the other way round, nothing is lost. */
  lemma StatusRoundTrip(v: byte, f: Flags)
    ensures Status(FromStatus(v)) == WithBit(v, 0x20)
    ensures FromStatus(Status(f)) == f
  {
    BitsOfByte(v);
    BitsOfStatus(f);
    hide Bit;
  }

  lemma BitsOfByte(v: byte)
    ensures v == 0x80 * One(Bit(v, 0x80)) + 0x40 * One(Bit(v, 0x40)) + 0x20 * One(Bit(v, 0x20)) + 0x10 * One(Bit(v, 0x10))
                 + 0x08 * One(Bit(v, 0x08)) + 0x04 * One(Bit(v, 0x04)) + 0x02 * One(Bit(v, 0x02)) + One(Bit(v, 0x01))
  {
    hide Bit, Shifted, One;
    BitAndRest(v, 0x80);
    BitAndRest(v, 0x40);
    BitAndRest(v, 0x20);
    BitAndRest(v, 0x10);
    BitAndRest(v, 0x08);
    BitAndRest(v, 0x04);
    BitAndRest(v, 0x02);
    BitAndRest(v, 0x01);
  }

  lemma BitAndRest(v: byte, w: int)
    requires w == 0x80 || w == 0x40 || w == 0x20 || w == 0x10 || w == 0x08 || w == 0x04 || w == 0x02 || w == 0x01
    ensures Shifted(v, w) == One(Bit(v, w)) + 2 * Shifted(v, 2 * w)
    ensures Shifted(v, 1) == v && Shifted(v, 0x100) == 0
  {
  }

  function Shifted(v: byte, w: int): int
    requires w > 0
  {
    v / w
  }

  lemma BitsOfStatus(f: Flags)
    ensures FromStatus(Status(f)) == f
  {
    hide One, Bit, Status, Nibble;
    var h := Nibble(f.n, f.v, true, f.b);
    var l := Nibble(f.d, f.i, f.z, f.c);
    NibbleBits(f.n, f.v, true, f.b);
    NibbleBits(f.d, f.i, f.z, f.c);
    StatusNibbles(f);
    HighBits(Status(f), h, l);
    LowBits(Status(f), h, l);
  }

  lemma StatusNibbles(f: Flags)
    ensures Status(f) == 0x10 * Nibble(f.n, f.v, true, f.b) + Nibble(f.d, f.i, f.z, f.c)
  {
  }

  function Nibble(b3: bool, b2: bool, b1: bool, b0: bool): int {
    0x08 * One(b3) + 0x04 * One(b2) + 0x02 * One(b1) + One(b0)
  }

  lemma NibbleBits(b3: bool, b2: bool, b1: bool, b0: bool)
    ensures var n := Nibble(b3, b2, b1, b0);
            && 0 <= n < 0x10
            && Bit(n, 0x08) == b3 && Bit(n, 0x04) == b2 && Bit(n, 0x02) == b1 && Bit(n, 0x01) == b0
  {
  }

  lemma HighBits(v: int, h: int, l: int)
    requires v == 0x10 * h + l && 0 <= h < 0x10 && 0 <= l < 0x10
    ensures Bit(v, 0x80) == Bit(h, 0x08) && Bit(v, 0x40) == Bit(h, 0x04) && Bit(v, 0x10) == Bit(h, 0x01)
  {
    assert v / 0x80 == h / 0x08 && v / 0x40 == h / 0x04 && v / 0x10 == h;
  }

  lemma LowBits(v: int, h: int, l: int)
    requires v == 0x10 * h + l && 0 <= h < 0x10 && 0 <= l < 0x10
    ensures && Bit(v, 0x08) == Bit(l, 0x08) && Bit(v, 0x04) == Bit(l, 0x04)
            && Bit(v, 0x02) == Bit(l, 0x02) && Bit(v, 0x01) == Bit(l, 0x01)
  {
    assert v / 0x08 == 2 * h + l / 0x08;
    assert v / 0x04 == 4 * h + l / 0x04;
    assert v / 0x02 == 8 * h + l / 0x02;
  }
}
