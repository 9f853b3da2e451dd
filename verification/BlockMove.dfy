/**
 What the 65816 block moves do to memory: one byte at a time, the two indices
 stepping up (MVN) or down (MVP), wrapping at the index width.
 */
module BlockMoves {
  import opened CpuModel

  type Memory = m: seq<byte> | |m| == 0x1000000 witness seq(0x1000000, _ => 0)

  /** An index after `k` steps, in registers of 8 or 16 bits. */
  function Stepped(index: int, up: bool, k: int, width: int): (w: word)
    requires IsWidth(width)
    ensures w < width
  {
    (if up then index + k else index - k) % width
  }

  predicate IsWidth(width: int) { width == 0x100 || width == 0x10000 }

  function At(bank: byte, index: word): (a: nat)
    ensures a < 0x1000000
  {
    0x10000 * bank + index
  }

  /** A block move: banks, starting indices, direction and index width. */
  datatype Move = Move(src: byte, dst: byte, x: word, y: word, up: bool, width: int)

  predicate Proper(b: Move) { IsWidth(b.width) && b.x < b.width && b.y < b.width }

  /** Where the k-th byte comes from and goes to. */
  function From(b: Move, k: nat): (a: nat)
    requires Proper(b)
    ensures a < 0x1000000
  {
    At(b.src, Stepped(b.x, b.up, k, b.width))
  }

  function To(b: Move, k: nat): (a: nat)
    requires Proper(b)
    ensures a < 0x1000000
  {
    At(b.dst, Stepped(b.y, b.up, k, b.width))
  }

  /** Memory after `n` single-byte copies. */
  function Copied(b: Move, m: Memory, n: nat): Memory
    requires Proper(b)
  {
    if n == 0 then m else
    var q := Copied(b, m, n - 1);
    q[To(b, n - 1) := q[From(b, n - 1)]]
  }

  /** Neither index passes the end of its bank (or page) in `n` steps. */
  predicate NoWrap(b: Move, n: nat) {
    if b.up then b.x + n <= b.width && b.y + n <= b.width else n <= b.x + 1 && n <= b.y + 1
  }

  /** How far the destination runs ahead of the source, in the direction of the
      move; none when it is in another bank. */
  function Lead(b: Move): int {
    if b.src != b.dst then 0 else if b.up then b.y - b.x else b.x - b.y
  }

  /** Which byte of the source block ends up k-th: the k-th, unless the destination
      leads the source by d bytes, when the first d bytes are repeated. */
  function Origin(d: int, k: nat): (o: nat)
    ensures o <= k && (d > 0 ==> o < d)
    decreases k
  {
    if 0 < d <= k then Origin(d, k - d) else k
  }

  lemma Addresses(b: Move, n: nat, k: nat)
    requires Proper(b) && NoWrap(b, n) && k < n
    ensures From(b, k) == 0x10000 * b.src + (if b.up then b.x + k else b.x - k)
    ensures To(b, k) == 0x10000 * b.dst + (if b.up then b.y + k else b.y - k)
    ensures if b.up then b.x + k < b.width && b.y + k < b.width else 0 <= b.x - k && 0 <= b.y - k
  {
    hide Stepped;
    NotWrapped(b.x, b.up, k, b.width);
    NotWrapped(b.y, b.up, k, b.width);
  }

  lemma NotWrapped(index: int, up: bool, k: int, width: int)
    requires IsWidth(width) && 0 <= (if up then index + k else index - k) < width
    ensures Stepped(index, up, k, width) == if up then index + k else index - k
  {
  }

  lemma Separate(b: Move, n: nat, j: nat, k: nat)
    requires Proper(b) && NoWrap(b, n) && j < k < n
    ensures To(b, j) != To(b, k)
    ensures From(b, k) == To(b, j) <==> Lead(b) == k - j
  {
    Addresses(b, n, j);
    Addresses(b, n, k);
    hide From, To;
  }

  /** An address no step wrote to is unchanged. */
  lemma {:induction false} CopiedElsewhere(b: Move, m: Memory, n: nat, a: nat)
    requires Proper(b) && a < |m|
    requires forall k :: 0 <= k < n ==> To(b, k) != a
    ensures Copied(b, m, n)[a] == m[a]
  {
    if n > 0 {
      hide To, From;
      assert To(b, n - 1) != a;
      CopiedElsewhere(b, m, n - 1, a);
    }
  }

  /** Without wrap-around every byte of the destination is settled, whether the
      blocks overlap or not. */
  lemma {:induction false} CopiedAt(b: Move, m: Memory, n: nat, k: nat)
    requires Proper(b) && NoWrap(b, n) && k < n
    ensures Copied(b, m, n)[To(b, k)] == m[From(b, Origin(Lead(b), k))]
    decreases n
  {
    hide To, From, Lead;
    var d := Lead(b);
    if k < n - 1 {
      Separate(b, n, k, n - 1);
      CopiedAt(b, m, n - 1, k);
    } else if 0 < d <= k {
      Separate(b, n, k - d, k);
      CopiedAt(b, m, n - 1, k - d);
      assert From(b, k) == To(b, k - d);
      assert Origin(d, k) == Origin(d, k - d);
    } else {
      forall j | 0 <= j < k ensures To(b, j) != From(b, k) {
        Separate(b, n, j, k);
      }
      CopiedElsewhere(b, m, k, From(b, k));
    }
  }

  /** The destination does not lead into the part of the source still to be read. */
  predicate Safe(b: Move, n: nat) { Lead(b) <= 0 || n <= Lead(b) }

  /** The destination is a copy of the block that was there. */
  ghost predicate Arrives(b: Move, m: Memory, n: nat)
    requires Proper(b)
  {
    forall k :: 0 <= k < n ==> Copied(b, m, n)[To(b, k)] == m[From(b, k)]
  }

  /** Every source byte equals the one `d` before it, as far as there is one. */
  ghost predicate Repeats(b: Move, m: Memory, n: nat, d: int)
    requires Proper(b)
  {
    forall k :: 0 < d <= k < n ==> m[From(b, k)] == m[From(b, k - d)]
  }

  lemma SafeMoveCopiesBlock(b: Move, m: Memory, n: nat, k: nat)
    requires Proper(b) && NoWrap(b, n) && Safe(b, n) && k < n
    ensures Copied(b, m, n)[To(b, k)] == m[From(b, k)]
  {
    hide From, To, Copied, Lead;
    CopiedAt(b, m, n, k);
  }

  /** The block arrives exactly when it repeats itself at the distance by which the
      destination leads, which a safe move does not ask of it. */
  lemma ArrivesIffRepeats(b: Move, m: Memory, n: nat)
    requires Proper(b) && NoWrap(b, n)
    ensures Arrives(b, m, n) <==> Repeats(b, m, n, Lead(b))
  {
    hide From, To, Copied, Lead;
    var d := Lead(b);
    forall k | 0 <= k < n ensures Copied(b, m, n)[To(b, k)] == m[From(b, Origin(d, k))] {
      CopiedAt(b, m, n, k);
    }
    if Arrives(b, m, n) {
      forall k | 0 < d <= k < n ensures m[From(b, k)] == m[From(b, k - d)] {
        assert Origin(d, k) == Origin(d, k - d);
      }
    }
    if Repeats(b, m, n, d) {
      forall k | 0 <= k < n ensures m[From(b, Origin(d, k))] == m[From(b, k)] {
        RepeatsFromOrigin(b, m, n, d, k);
      }
    }
  }

  lemma {:induction false} RepeatsFromOrigin(b: Move, m: Memory, n: nat, d: int, k: nat)
    requires Proper(b) && Repeats(b, m, n, d) && k < n
    ensures m[From(b, Origin(d, k))] == m[From(b, k)]
    decreases k
  {
    hide From;
    if 0 < d <= k {
      RepeatsFromOrigin(b, m, n, d, k - d);
      assert m[From(b, k)] == m[From(b, k - d)];
    }
  }

  lemma UnsafeMoveDoesNot(b: Move, m: Memory, n: nat, k: nat)
    requires Proper(b) && NoWrap(b, n) && 0 < Lead(b) <= k < n
    requires m[From(b, k)] != m[From(b, k - Lead(b))]
    ensures !Arrives(b, m, n)
  {
    ArrivesIffRepeats(b, m, n);
    hide From, Lead, Arrives;
  }

  /** Whatever is in memory arrives exactly with a safe move: an unsafe one fails on
      the memory given. */
  lemma ArrivesAlwaysIffSafe(b: Move, n: nat) returns (bad: Memory)
    requires Proper(b) && NoWrap(b, n)
    ensures (forall m: Memory :: Arrives(b, m, n)) <==> Safe(b, n)
    ensures !Safe(b, n) ==> !Arrives(b, bad, n)
  {
    bad := seq(0x1000000, _ => 0)[From(b, 0) := 1];
    if Safe(b, n) {
      forall m: Memory ensures Arrives(b, m, n) {
        ArrivesIffRepeats(b, m, n);
      }
    } else {
      var d := Lead(b);
      Addresses(b, n, 0);
      Addresses(b, n, d);
      assert bad[From(b, d)] != bad[From(b, d - d)];
      ArrivesIffRepeats(b, bad, n);
    }
  }
}
