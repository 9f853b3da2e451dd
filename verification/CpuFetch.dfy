/**
 The opcode fetch of 6510core.c: from the cached bank or through memory, packed
 into one word or into a structure.  A program cannot tell which is used.
 */
module CpuFetches {
  import opened CpuModel
  import opened SwitchTables
  import opened SwitchRows
  import opened Core6510s
  import opened CpuRuns
  import A = Switch6510
  import B = SwitchDtv

  /** The bank cache ends where a three-byte fetch would leave memory. */
  const BANK_LIMIT_MAX := 0xfffe

  /** FETCH_OPCODE: `bank_base` is memory itself, valid below `bankLimit`.  Without a
      third byte in fetch_tab, the high byte of `p2` is whatever the path leaves. */
  method FetchOpcode(c: Core6510, packed: bool, bankLimit: int)
    returns (p0: byte, p1: byte, p2: word)
    requires bankLimit <= BANK_LIMIT_MAX
    modifies c`clk
    ensures p0 == Peek(c.ram, c.pc) && p1 == Peek(c.ram, c.pc + 1)
    ensures FetchesThird(p0) ==> p2 == Join(p1, Peek(c.ram, c.pc + 2))
    ensures c.clk == old(c.clk) + FetchCycles(p0)
  {
    hide FetchesThird, Peek, Packed, Join;
    PackedParts(Peek(c.ram, c.pc), Peek(c.ram, c.pc + 1), Peek(c.ram, c.pc + 2));
    if packed {
      var o := FetchPacked(c, bankLimit);
      p0, p1, p2 := o % 0x100, o / 0x100 % 0x100, o / 0x100;
    } else {
      var ins, op16 := FetchStruct(c, bankLimit);
      p0, p1, p2 := ins, op16 % 0x100, op16;
    }
  }

  function FetchCycles(opcode: byte): nat { 2 + One(FetchesThird(opcode)) }

  /** The three bytes in one word. */
  function Packed(p0: byte, p1: byte, p2: byte): (o: int)
    ensures 0 <= o < 0x1000000
  {
    p0 + 0x100 * (p1 as int) + 0x10000 * (p2 as int)
  }

  lemma PackedParts(p0: byte, p1: byte, p2: byte)
    ensures Packed(p0, p1, p2) % 0x100 == p0 && Packed(p0, p1, p2) / 0x100 == Join(p1, p2)
    ensures Packed(p0, p1, 0) % 0x100 == p0 && Packed(p0, p1, 0) / 0x100 == Join(p1, 0)
    ensures Join(p1, p2) % 0x100 == p1 && Join(p1, 0) % 0x100 == p1
    ensures Packed(p0, 0, 0) == p0 && Packed(p0, 0, 0) + 0x100 * (p1 as int) == Packed(p0, p1, 0)
    ensures Packed(p0, p1, 0) + 0x10000 * (p2 as int) == Packed(p0, p1, p2)
  {
    PackedPart(p0, p1, p2);
    PackedPart(p0, p1, 0);
    hide Join;
  }

  lemma PackedPart(p0: byte, p1: byte, p2: byte)
    ensures Packed(p0, p1, p2) % 0x100 == p0 && Packed(p0, p1, p2) / 0x100 == Join(p1, p2)
    ensures Join(p1, p2) % 0x100 == p1
  {
    LowPart(p0, Join(p1, p2));
    LowPart(p1, p2);
  }

  lemma LowPart(lo: byte, hi: int)
    ensures (lo + 0x100 * hi) % 0x100 == lo && (lo + 0x100 * hi) / 0x100 == hi
  {
  }

  /** Below the limit of the bank cache no address wraps. */
  lemma ThreeBytes(m: Ram, pc: word)
    requires pc < BANK_LIMIT_MAX
    ensures Peek(m, pc) == m[pc] && Peek(m, pc + 1) == m[pc + 1] && Peek(m, pc + 2) == m[pc + 2]
  {
  }

  method FetchPacked(c: Core6510, bankLimit: int) returns (o: int)
    requires bankLimit <= BANK_LIMIT_MAX
    modifies c`clk
    ensures var p0, p1, p2 := Peek(c.ram, c.pc), Peek(c.ram, c.pc + 1), Peek(c.ram, c.pc + 2);
            && (o == Packed(p0, p1, p2) || (!FetchesThird(p0) && o == Packed(p0, p1, 0)))
            && c.clk == old(c.clk) + FetchCycles(p0)
  {
    hide FetchesThird, Packed, Peek;
    PackedParts(Peek(c.ram, c.pc), Peek(c.ram, c.pc + 1), Peek(c.ram, c.pc + 2));
    if c.pc < bankLimit {
      ThreeBytes(c.ram, c.pc);
      o := Packed(c.ram[c.pc], c.ram[c.pc + 1], c.ram[c.pc + 2]);
      c.clk := c.clk + 2;
      if FetchesThird(o % 0x100) {
        c.clk := c.clk + 1;
      }
    } else {
      o := Peek(c.ram, c.pc);
      c.clk := c.clk + 1;
      o := o + 0x100 * (Peek(c.ram, c.pc + 1) as int);
      c.clk := c.clk + 1;
      if FetchesThird(o % 0x100) {
        o := o + 0x10000 * (Peek(c.ram, c.pc + 2) as int);
        c.clk := c.clk + 1;
      }
    }
  }

  method FetchStruct(c: Core6510, bankLimit: int) returns (ins: byte, op16: word)
    requires bankLimit <= BANK_LIMIT_MAX
    modifies c`clk
    ensures ins == Peek(c.ram, c.pc)
    ensures var p1, p2 := Peek(c.ram, c.pc + 1), Peek(c.ram, c.pc + 2);
            op16 == Join(p1, p2) || (!FetchesThird(ins) && op16 == Join(p1, 0))
    ensures c.clk == old(c.clk) + FetchCycles(ins)
  {
    hide FetchesThird, Join, Peek;
    if c.pc < bankLimit {
      ThreeBytes(c.ram, c.pc);
      ins := c.ram[c.pc];
      op16 := Join(c.ram[c.pc + 1], c.ram[c.pc + 2]);
      c.clk := c.clk + 2;
      if FetchesThird(ins) {
        c.clk := c.clk + 1;
      }
    } else {
      ins := Peek(c.ram, c.pc);
      c.clk := c.clk + 1;
      var lo := Peek(c.ram, c.pc + 1);
      op16 := Join(lo, 0);
      c.clk := c.clk + 1;
      if FetchesThird(ins) {
        op16 := Join(lo, Peek(c.ram, c.pc + 2));
        c.clk := c.clk + 1;
      }
    }
  }

  /** An instruction that does not look at the high operand byte does not depend on it. */
  lemma ThirdIgnored(i: Instruction, s: Cpu, p1: byte, p2: word, q2: word)
    requires !UsesThird(i)
    ensures Exec(i, s, p1, p2) == Exec(i, s, p1, q2)
  {
    hide ReadEffect, ModifyEffect, ImpliedEffect, Peek, Poke, Low, Word, Join, Branched;
    match i {
      case Read(_, mode) => assert Base(mode, s, p1, p2) == Base(mode, s, p1, q2);
      case Write(_, mode) => assert Base(mode, s, p1, p2) == Base(mode, s, p1, q2);
      case WriteHigh(_, mode) => assert Base(mode, s, p1, p2) == Base(mode, s, p1, q2);
      case Modify(_, mode) => assert Base(mode, s, p1, p2) == Base(mode, s, p1, q2);
      case _ =>
    }
  }

  /** One instruction together with the cycles of its fetch. */
  function FetchedStep(s: Cpu): Cpu
    requires Running(s)
  {
    Step(s.(clk := s.clk + FetchCycles(Peek(s.ram, s.pc))))
  }

  /** Interrupts fetch no opcode. */
  function FetchedAfter(e: Event, s: Cpu): Cpu {
    match e
    case Instruction => if Running(s) then FetchedStep(s) else s
    case _ => After(e, s)
  }

  function FetchedRun(es: seq<Event>, s: Cpu): Cpu {
    if es == [] then s else FetchedRun(es[1..], FetchedAfter(es[0], s))
  }

  method FetchAndExecute(c: Core6510, packed: bool, bankLimit: int)
    requires bankLimit <= BANK_LIMIT_MAX && Running(c.View())
    modifies c
    ensures c.View() == FetchedStep(old(c.View()))
  {
    hide Exec, Peek, Join, FetchesThird, UsesThird, A.Switch, A.Meaning, B.Switch, B.Meaning;
    var p0, p1, p2 := FetchOpcode(c, packed, bankLimit);
    var third := Join(p1, Peek(c.ram, c.pc + 2));
    SwitchesAgree(p0);
    if !FetchesThird(p0) {
      ThirdIgnored(Decode(p0).instruction, c.View(), p1, p2, third);
    }
    c.Execute(p0, p1, p2);
  }

  method FetchedBoundary(c: Core6510, e: Event, packed: bool, bankLimit: int)
    requires bankLimit <= BANK_LIMIT_MAX
    modifies c
    ensures c.View() == FetchedAfter(e, old(c.View()))
  {
    hide Exec, Peek, Join, FetchedStep, Interrupted, A.Switch, A.Meaning;
    match e
    case Instruction =>
      if A.Meaning(A.Switch(Peek(c.ram, c.pc))).Does? {
        FetchAndExecute(c, packed, bankLimit);
      }
    case _ => Boundary6510(c, e);
  }

  /** Any program under any interrupts: the end state and the cycles do not depend on
      the encoding, nor on how far the bank cache reaches at each step (0 switches it off). */
  method RunFetched(c: Core6510, es: seq<Event>, packed: bool, bankLimits: nat -> int)
    requires forall k :: bankLimits(k) <= BANK_LIMIT_MAX
    modifies c
    ensures c.View() == FetchedRun(es, old(c.View()))
  {
    hide FetchedAfter;
    var k := 0;
    while k < |es|
      invariant k <= |es| && FetchedRun(es[k..], c.View()) == FetchedRun(es, old(c.View()))
    {
      assert es[k..][1..] == es[k + 1..];
      FetchedBoundary(c, es[k], packed, bankLimits(k));
      k := k + 1;
    }
  }
}
