/**
 Warping a scheduler in time: every pending clock and the cached clock move by
 the same amount, modulo 2^64.
 */
module AlarmWarp {
  import opened AlarmModel

  /** Unsigned 64-bit addition or subtraction, wrapping. */
  function Shift(c: CLOCK, amount: CLOCK, direction: int): CLOCK {
    if direction == 0 then c
    else if direction > 0 then
      if c + amount <= CLOCK_MAX then c + amount else c + amount - CLOCK_MAX - 1
    else
      if amount <= c then c - amount else c - amount + CLOCK_MAX + 1
  }

  /** How far a warp moves a clock. */
  function Distance(amount: CLOCK, direction: int): int {
    if direction > 0 then amount else if direction < 0 then -(amount as int) else 0
  }

  /** A shift moves a clock by the amount, modulo 2^64, and exactly if it fits. */
  lemma ShiftMoves(c: CLOCK, amount: CLOCK, direction: int)
    ensures (Shift(c, amount, direction) - (c + Distance(amount, direction))) % 0x1_0000_0000_0000_0000 == 0
    ensures Fits(c, amount, direction) ==> Shift(c, amount, direction) == c + Distance(amount, direction)
  {
  }

  function ShiftSlots<A>(slots: seq<Slot<A>>, amount: CLOCK, direction: int): (r: seq<Slot<A>>)
    ensures |r| == |slots|
    ensures forall i :: 0 <= i < |r| ==> r[i] == Slot(slots[i].alarm, Shift(slots[i].clk, amount, direction))
  {
    seq(|slots|, i requires 0 <= i < |slots| => Slot(slots[i].alarm, Shift(slots[i].clk, amount, direction)))
  }

  function Warp<A>(s: Sched<A>, amount: CLOCK, direction: int): Sched<A> {
    s.(slots := ShiftSlots(s.slots, amount, direction), nextClk := Shift(s.nextClk, amount, direction))
  }

  /** `c` can be shifted without passing either end of the clock's range. */
  predicate Fits(c: CLOCK, amount: CLOCK, direction: int) {
    (direction > 0 ==> c + amount <= CLOCK_MAX) && (direction < 0 ==> amount <= c)
  }

  ghost predicate AllFit<A>(slots: seq<Slot<A>>, amount: CLOCK, direction: int) {
    forall i :: 0 <= i < |slots| ==> Fits(slots[i].clk, amount, direction)
  }

  /** Without wrap-around a shift keeps the order of clocks and their distances. */
  lemma ShiftKeepsOrder(c: CLOCK, d: CLOCK, amount: CLOCK, direction: int)
    requires Fits(c, amount, direction) && Fits(d, amount, direction)
    ensures c <= d <==> Shift(c, amount, direction) <= Shift(d, amount, direction)
    ensures Shift(d, amount, direction) - Shift(c, amount, direction) == d - c
  {
  }

  /** Warping moves every pending alarm by the amount, modulo 2^64, and exactly if all
      of them fit; the cached clock moves alike.  Who is pending, and in which slot,
      does not change. */
  lemma WarpMovesPending<A>(s: Sched<A>, amount: CLOCK, direction: int)
    requires Linked(s.slots, s.idx)
    ensures var w := Warp(s, amount, direction);
            Linked(w.slots, w.idx) && w.idx == s.idx && Pending(w).Keys == Pending(s).Keys
    ensures var m, n, d := Pending(s), Pending(Warp(s, amount, direction)), Distance(amount, direction);
            && (forall a :: a in m ==> (n[a] - (m[a] + d)) % 0x1_0000_0000_0000_0000 == 0)
            && (AllFit(s.slots, amount, direction) ==> forall a :: a in m ==> n[a] == m[a] + d)
    ensures Fits(s.nextClk, amount, direction) ==>
              Warp(s, amount, direction).nextClk == s.nextClk + Distance(amount, direction)
  {
    hide Shift;
    var w := Warp(s, amount, direction);
    assert Linked(w.slots, w.idx);
    assert Pending(w).Keys == Pending(s).Keys;
    ShiftMoves(s.nextClk, amount, direction);
    forall i | 0 <= i < |s.slots|
      ensures (w.slots[i].clk - (s.slots[i].clk + Distance(amount, direction))) % 0x1_0000_0000_0000_0000 == 0
      ensures Fits(s.slots[i].clk, amount, direction) ==> w.slots[i].clk == s.slots[i].clk + Distance(amount, direction)
    {
      ShiftMoves(s.slots[i].clk, amount, direction);
    }
  }

  /** Warping forth and back is the identity, even through wrap-around. */
  lemma WarpBack<A>(s: Sched<A>, amount: CLOCK, direction: int)
    ensures Warp(Warp(s, amount, direction), amount, -direction) == s
  {
    assert Warp(Warp(s, amount, direction), amount, -direction).slots == s.slots;
  }

  /** With something pending before the sentinel, a warp that fits keeps the invariant. */
  lemma WarpKeepsInv<A>(s: Sched<A>, amount: CLOCK, direction: int)
    requires Inv(s) && s.nextClk < CLOCK_MAX && AllFit(s.slots, amount, direction)
    ensures Inv(Warp(s, amount, direction))
  {
    var t := Warp(s, amount, direction);
    forall i | 0 <= i < |s.slots| ensures t.nextClk <= t.slots[i].clk {
      ShiftKeepsOrder(s.nextClk, s.slots[i].clk, amount, direction);
    }
  }

  /** With nothing pending the warp moves the sentinel itself, so the invariant
      survives exactly when nothing is shifted. */
  lemma WarpEmpty<A>(s: Sched<A>, amount: CLOCK, direction: int)
    requires Inv(s) && s.slots == []
    ensures Inv(Warp(s, amount, direction)) <==> direction == 0 || amount == 0
  {
    assert direction != 0 && amount != 0 ==> Shift(CLOCK_MAX, amount, direction) != CLOCK_MAX;
  }

  lemma {:induction false} ScanShifts<A>(slots: seq<Slot<A>>, amount: CLOCK, direction: int, keep: int)
    requires slots != [] && AllFit(slots, amount, direction)
    ensures Scan(ShiftSlots(slots, amount, direction), keep)
            == (Shift(Scan(slots, keep).0, amount, direction), Scan(slots, keep).1)
  {
    var n := |slots| - 1;
    assert ShiftSlots(slots, amount, direction)[..n] == ShiftSlots(slots[..n], amount, direction);
    if n > 0 {
      ScanShifts(slots[..n], amount, direction, keep);
      ShiftKeepsOrder(slots[n].clk, Scan(slots[..n], keep).0, amount, direction);
    }
  }

  lemma RescanShifts<A>(s: Sched<A>, amount: CLOCK, direction: int)
    requires s.slots != [] && AllFit(s.slots, amount, direction)
    ensures forall c :: Rescan(Warp(s, amount, direction).(nextClk := c)) == Warp(Rescan(s), amount, direction)
  {
    ScanShifts(s.slots, amount, direction, s.nextIdx);
  }

  /** Setting commutes with warping, under a clock moved by the same amount. */
  lemma SetCommutes<A>(s: Sched<A>, a: A, clk: CLOCK, amount: CLOCK, direction: int, later: CLOCK)
    requires Inv(s) && s.nextClk < CLOCK_MAX && AllFit(s.slots, amount, direction)
    requires later == clk + Distance(amount, direction)
    ensures Linked(Warp(s, amount, direction).slots, s.idx)
    ensures Set(Warp(s, amount, direction), a, later) == Warp(Set(s, a, clk), amount, direction)
  {
    var w := Warp(s, amount, direction);
    ShiftMoves(clk, amount, direction);
    ShiftKeepsOrder(s.nextClk, clk, amount, direction);
    if a in s.idx {
      var t := s.(slots := s.slots[s.idx[a] := Slot(a, clk)]);
      assert ShiftSlots(t.slots, amount, direction) == w.slots[s.idx[a] := Slot(a, later)];
      RescanShifts(t, amount, direction);
      hide Rescan, Shift;
      assert Warp(t, amount, direction) == w.(slots := w.slots[s.idx[a] := Slot(a, later)]);
    } else {
      assert ShiftSlots(s.slots + [Slot(a, clk)], amount, direction) == w.slots + [Slot(a, later)];
    }
  }

  /** Unsetting commutes with warping unless it empties the table, which resets
      the cached clock to the unshifted sentinel. */
  lemma UnsetCommutes<A>(s: Sched<A>, a: A, amount: CLOCK, direction: int)
    requires Inv(s) && s.nextClk < CLOCK_MAX && AllFit(s.slots, amount, direction)
    ensures Linked(Warp(s, amount, direction).slots, s.idx)
    ensures Unset(Warp(s, amount, direction), a) == Warp(Unset(s, a), amount, direction)
            <==> |s.slots| > 1 || a !in s.idx || direction == 0 || amount == 0
  {
    var w := Warp(s, amount, direction);
    if a in s.idx && |s.slots| > 1 {
      UnsetShifts(s, a, amount, direction);
    } else if a in s.idx {
      assert Unset(w, a).nextClk == CLOCK_MAX;
      assert Warp(Unset(s, a), amount, direction).slots == [];
    }
  }

  lemma UnsetShifts<A>(s: Sched<A>, a: A, amount: CLOCK, direction: int)
    requires Inv(s) && AllFit(s.slots, amount, direction) && a in s.idx && |s.slots| > 1
    ensures Linked(Warp(s, amount, direction).slots, s.idx)
    ensures Unset(Warp(s, amount, direction), a) == Warp(Unset(s, a), amount, direction)
  {
    hide Rescan, Shift, ShiftSlots, RemoveAt, Cached;
    var w := Warp(s, amount, direction);
    var i, last := s.idx[a], |s.slots| - 1;
    var t := s.(slots := RemoveAt(s.slots, i), idx := s.idx[s.slots[last].alarm := i] - {a});
    RemovalShifts(s.slots, i, amount, direction);
    SlotsShift(s.slots, amount, direction);
    AllFitRemoved(s.slots, i, amount, direction);
    RescanShifts(t, amount, direction);
    assert Warp(t, amount, direction) == w.(slots := RemoveAt(w.slots, i), idx := t.idx);
  }

  lemma SlotsShift<A>(slots: seq<Slot<A>>, amount: CLOCK, direction: int)
    ensures var shifted := ShiftSlots(slots, amount, direction);
            |shifted| == |slots| && forall k :: 0 <= k < |slots| ==> shifted[k].alarm == slots[k].alarm
  {
  }

  lemma RemovalShifts<A>(slots: seq<Slot<A>>, i: nat, amount: CLOCK, direction: int)
    requires i < |slots|
    ensures |ShiftSlots(slots, amount, direction)| == |slots|
    ensures ShiftSlots(RemoveAt(slots, i), amount, direction) == RemoveAt(ShiftSlots(slots, amount, direction), i)
  {
    hide Shift;
  }

  lemma AllFitRemoved<A>(slots: seq<Slot<A>>, i: nat, amount: CLOCK, direction: int)
    requires i < |slots| && AllFit(slots, amount, direction)
    ensures AllFit(RemoveAt(slots, i), amount, direction)
  {
  }

  /** A poll at a clock moved alike calls the same alarm with the same offset. */
  lemma DispatchCommutes<A>(s: Sched<A>, now: CLOCK, amount: CLOCK, direction: int, later: CLOCK)
    requires Inv(s) && s.nextClk < CLOCK_MAX && AllFit(s.slots, amount, direction)
    requires later == now + Distance(amount, direction)
    ensures var w := Warp(s, amount, direction);
            && (s.nextClk <= now <==> w.nextClk <= later)
            && w.slots[w.nextIdx].alarm == s.slots[s.nextIdx].alarm
            && later - w.nextClk == now - s.nextClk
  {
    ShiftMoves(now, amount, direction);
    ShiftKeepsOrder(s.nextClk, now, amount, direction);
  }
}
