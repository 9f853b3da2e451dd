/**
 Nested use of the stack: calls, saved registers and interrupts, each undone by
 its counterpart, in any shape, from any stack pointer, wrapping in page one.
 */
module StackNests {
  import opened CpuModel
  import opened CpuRuns

  /** A well-nested run.  A bracket holds its body, the state `end` its closing
      instruction meets, and what follows; `Other` is anything else that happens
      in between, ending in `next`. */
  datatype Nest =
    | Done
    | Other(next: Cpu, rest: Nest)
    | Call(body: Nest, end: Cpu, rest: Nest)
    | SaveA(body: Nest, end: Cpu, rest: Nest)
    | SaveP(body: Nest, end: Cpu, rest: Nest)
    | Interrupt(vector: word, body: Nest, end: Cpu, rest: Nest)

  // -------------------------------------------------------------- the live bytes

  /** The topmost `n` bytes of the stack, the last one pushed first. */
  function Live(m: Ram, sp: byte, n: nat): seq<byte>
    decreases n
  {
    if n == 0 then [] else [Peek(m, 0x100 + Low(sp + 1))] + Live(m, Low(sp + 1), n - 1)
  }

  /** The same stack pointer and the same `n` bytes above it. */
  predicate SameStack(s: Cpu, t: Cpu, n: nat) {
    t.sp == s.sp && Live(t.ram, t.sp, n) == Live(s.ram, s.sp, n)
  }

  /** A store below them leaves up to 255 bytes alone, wherever they wrap. */
  lemma {:induction false} LiveFrame(m: Ram, base: byte, v: byte, d: nat, n: nat)
    requires d + n <= 0xff
    decreases n
    ensures Live(Poke(m, 0x100 + base, v), Low(base + d), n) == Live(m, Low(base + d), n)
  {
    if n > 0 {
      hide Poke, Peek;
      NextByte(base, d);
      PeekElsewhere(m, base, Low(base + d + 1), v);
      LiveFrame(m, base, v, d + 1, n - 1);
    }
  }

  lemma NextByte(base: byte, d: nat)
    requires d < 0xff
    ensures Low(Low(base + d) + 1) == Low(base + d + 1) != base
    ensures Low(base) == base && Low(Low(base - 1) + 1) == base
  {
  }

  lemma PeekElsewhere(m: Ram, at: byte, other: byte, v: byte)
    requires other != at
    ensures Peek(Poke(m, 0x100 + at, v), 0x100 + other) == Peek(m, 0x100 + other)
  {
  }

  lemma PeekThere(m: Ram, at: byte, v: byte)
    ensures Peek(Poke(m, 0x100 + at, v), 0x100 + at) == v
  {
  }

  lemma PushedIsLive(s: Cpu, v: byte, n: nat)
    requires n <= 0xff
    ensures Live(Push(s, v).ram, Push(s, v).sp, n + 1) == [v] + Live(s.ram, s.sp, n)
  {
    hide Poke, Peek, Low;
    NextByte(s.sp, 0);
    PeekThere(s.ram, s.sp, v);
    LiveFrame(s.ram, s.sp, v, 0, n);
  }

  /** Whatever happens meanwhile, a pull returns what was pushed, and the stack is
      as it was before the push. */
  lemma PullUndoesPush(s: Cpu, v: byte, m: Cpu, n: nat)
    requires n <= 0xff && SameStack(Push(s, v), m, n + 1)
    ensures Top(m) == v && SameStack(s, Pulled(m), n)
  {
    hide Poke, Peek, Low;
    PushedIsLive(s, v, n);
    NextByte(s.sp, 0);
    assert Live(m.ram, m.sp, n + 1) == [Top(m)] + Live(m.ram, Pulled(m).sp, n);
    assert ([v] + Live(s.ram, s.sp, n))[1..] == Live(s.ram, s.sp, n);
    assert ([Top(m)] + Live(m.ram, Pulled(m).sp, n))[1..] == Live(m.ram, Pulled(m).sp, n);
  }

  lemma PullUndoesPushWord(s: Cpu, w: word, m: Cpu, n: nat)
    requires n <= 0xfe && SameStack(PushWord(s, w), m, n + 2)
    ensures PulledWord(m).1 == w && SameStack(s, PulledWord(m).0, n)
  {
    hide Push, SameStack, Pulled, Top, Join, High, Low;
    PullUndoesPush(Push(s, High(w)), Low(w), m, n + 1);
    PullUndoesPush(s, High(w), Pulled(m), n);
    JoinHalves(w);
  }

  lemma JoinHalves(w: word)
    ensures Join(Low(w), High(w)) == w
  {
  }

  // --------------------------------------------------------------- nested runs

  predicate Executes(s: Cpu, op: FlowOp) {
    Decode(Peek(s.ram, s.pc)) == Does(Flow(op))
  }

  /** The nest `n` takes the CPU from `s` to `t` while `live` bytes of stack above
      must survive.  All that is asked of the code in between is that it leaves the
      stack pointer where it was and those bytes alone; at most 256 bytes are live. */
  ghost predicate Runs(n: Nest, s: Cpu, t: Cpu, live: nat) {
    match n
    case Done => t == s
    case Other(next, rest) => SameStack(s, next, live) && Runs(rest, next, t, live)
    case Call(body, end, rest) =>
      && live + 2 <= 0x100 && Executes(s, JSR) && Executes(end, RTS)
      && Runs(body, Step(s), end, live + 2) && Runs(rest, Step(end), t, live)
    case SaveA(body, end, rest) =>
      && live + 1 <= 0x100 && Executes(s, PHA) && Executes(end, PLA)
      && Runs(body, Step(s), end, live + 1) && Runs(rest, Step(end), t, live)
    case SaveP(body, end, rest) =>
      && live + 1 <= 0x100 && Executes(s, PHP) && Executes(end, PLP)
      && Runs(body, Step(s), end, live + 1) && Runs(rest, Step(end), t, live)
    case Interrupt(vector, body, end, rest) =>
      && live + 3 <= 0x100 && Executes(end, RTI)
      && Runs(body, Interrupted(s, false, vector), end, live + 3) && Runs(rest, Step(end), t, live)
  }

  /** The flags an interrupt handler gives back; the break bit is not one of them. */
  predicate SameFlags(f: Flags, g: Flags) {
    f.n == g.n && f.v == g.v && f.d == g.d && f.i == g.i && f.z == g.z && f.c == g.c
  }

  /** Every bracket of the nest, at every depth, gives back what it took. */
  ghost predicate Restores(n: Nest, s: Cpu) {
    match n
    case Done => true
    case Other(next, rest) => Restores(rest, next)
    case Call(body, end, rest) =>
      && Executes(s, JSR) && Executes(end, RTS)
      && Step(end).pc == Word(s.pc + 3) && Step(end).sp == s.sp
      && Restores(body, Step(s)) && Restores(rest, Step(end))
    case SaveA(body, end, rest) =>
      && Executes(s, PHA) && Executes(end, PLA)
      && Step(end).a == s.a && Step(end).sp == s.sp
      && Restores(body, Step(s)) && Restores(rest, Step(end))
    case SaveP(body, end, rest) =>
      && Executes(s, PHP) && Executes(end, PLP)
      && SameFlags(Step(end).f, s.f) && Step(end).sp == s.sp
      && Restores(body, Step(s)) && Restores(rest, Step(end))
    case Interrupt(vector, body, end, rest) =>
      && Executes(end, RTI)
      && Step(end).pc == s.pc && SameFlags(Step(end).f, s.f) && Step(end).sp == s.sp
      && Restores(body, Interrupted(s, false, vector)) && Restores(rest, Step(end))
  }

  lemma CallReturns(s: Cpu, end: Cpu, n: nat)
    requires n + 2 <= 0x100 && Executes(s, JSR) && Executes(end, RTS) && SameStack(Step(s), end, n + 2)
    ensures SameStack(s, Step(end), n) && Step(end).pc == Word(s.pc + 3)
  {
    hide Decode, Peek, Poke, Live, Word, Push, Top, Join, Low, High;
    PullUndoesPushWord(s, Word(s.pc + 2), end, n);
    WordPlus(s.pc);
  }

  lemma WordPlus(pc: word)
    ensures Word(Word(pc + 2) + 1) == Word(pc + 3)
  {
  }

  lemma PullsA(s: Cpu, end: Cpu, n: nat)
    requires n + 1 <= 0x100 && Executes(s, PHA) && Executes(end, PLA) && SameStack(Step(s), end, n + 1)
    ensures SameStack(s, Step(end), n) && Step(end).a == s.a
  {
    hide Decode, Peek, Poke, Live, Word, Top, Low, NZ;
    PullUndoesPush(s, s.a, end, n);
  }

  lemma PullsP(s: Cpu, end: Cpu, n: nat)
    requires n + 1 <= 0x100 && Executes(s, PHP) && Executes(end, PLP) && SameStack(Step(s), end, n + 1)
    ensures SameStack(s, Step(end), n) && SameFlags(Step(end).f, s.f)
  {
    hide Decode, Peek, Poke, Live, Word, Top, Low, Status, FromStatus;
    var pushed := s.f.(b := true);
    PullUndoesPush(s, Status(pushed), end, n);
    StatusRoundTrip(0, pushed);
  }

  lemma HandlerReturns(s: Cpu, vector: word, end: Cpu, n: nat)
    requires n + 3 <= 0x100 && Executes(end, RTI) && SameStack(Interrupted(s, false, vector), end, n + 3)
    ensures SameStack(s, Step(end), n) && Step(end).pc == s.pc && SameFlags(Step(end).f, s.f)
  {
    hide Decode, Peek, Poke, Live, Word, Push, Top, Join, Low, High, Status, FromStatus;
    var t := s.(f := s.f.(b := false));
    var u := PushWord(t, t.pc);
    PullUndoesPush(u, Status(t.f), end, n + 2);
    PullUndoesPushWord(t, t.pc, Pulled(end), n);
    StatusRoundTrip(0, t.f);
  }

  /** Every well-nested run, of any shape and depth, leaves the stack pointer and the
      live bytes as they were, and every bracket in it restores what it saved. */
  lemma {:induction false} NestRestores(n: Nest, s: Cpu, t: Cpu, live: nat)
    requires Runs(n, s, t, live)
    ensures SameStack(s, t, live) && Restores(n, s)
    decreases n
  {
    hide Decode, Peek, Live, Step, Interrupted, SameFlags, SameStack;
    match n {
      case Done => StackUnchanged(s, live);
      case Other(next, rest) =>
        NestRestores(rest, next, t, live);
        StackChain(s, next, t, live);
      case Call(body, end, rest) =>
        NestRestores(body, Step(s), end, live + 2);
        CallReturns(s, end, live);
        NestRestores(rest, Step(end), t, live);
        StackChain(s, Step(end), t, live);
      case SaveA(body, end, rest) =>
        NestRestores(body, Step(s), end, live + 1);
        PullsA(s, end, live);
        NestRestores(rest, Step(end), t, live);
        StackChain(s, Step(end), t, live);
      case SaveP(body, end, rest) =>
        NestRestores(body, Step(s), end, live + 1);
        PullsP(s, end, live);
        NestRestores(rest, Step(end), t, live);
        StackChain(s, Step(end), t, live);
      case Interrupt(vector, body, end, rest) =>
        NestRestores(body, Interrupted(s, false, vector), end, live + 3);
        HandlerReturns(s, vector, end, live);
        NestRestores(rest, Step(end), t, live);
        StackChain(s, Step(end), t, live);
    }
  }

  lemma StackUnchanged(s: Cpu, n: nat)
    ensures SameStack(s, s, n)
  {
  }

  lemma StackChain(s: Cpu, t: Cpu, u: Cpu, n: nat)
    requires SameStack(s, t, n) && SameStack(t, u, n)
    ensures SameStack(s, u, n) && t.sp == s.sp
  {
  }
}
