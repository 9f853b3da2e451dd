/**
 The pending-alarm table as a value: the slots in use, every pending alarm's
 back-index into them, the cached earliest clock and the cached slot number.
 `AlarmContext` (AlarmContext.dfy) is proved to compute exactly these functions;
 what the scheduler promises is proved about them here.
 */
module AlarmModel {

  const CLOCK_MAX := 0xffff_ffff_ffff_ffff
  const MAX_PENDING := 0x100

  type CLOCK = c: int | 0 <= c <= CLOCK_MAX

  datatype Slot<A> = Slot(alarm: A, clk: CLOCK)

  datatype Sched<A> = Sched(slots: seq<Slot<A>>, idx: map<A, int>, nextClk: CLOCK, nextIdx: int)

  /** Slot and back-index are mutual inverses (so slots hold distinct alarms). */
  ghost predicate Linked<A>(slots: seq<Slot<A>>, idx: map<A, int>) {
    && (forall i :: 0 <= i < |slots| ==> slots[i].alarm in idx && idx[slots[i].alarm] == i)
    && (forall a :: a in idx ==> 0 <= idx[a] < |slots| && slots[idx[a]].alarm == a)
  }

  /** The cached clock is the earliest; when it is not the sentinel, the cached
      slot holds it.  (A cached clock of CLOCK_MAX names no slot.) */
  ghost predicate Cached<A>(slots: seq<Slot<A>>, nextClk: CLOCK, nextIdx: int) {
    && (forall i :: 0 <= i < |slots| ==> nextClk <= slots[i].clk)
    && (nextClk < CLOCK_MAX ==> 0 <= nextIdx < |slots| && slots[nextIdx].clk == nextClk)
  }

  ghost predicate Inv<A>(s: Sched<A>) {
    |s.slots| <= MAX_PENDING && Linked(s.slots, s.idx) && Cached(s.slots, s.nextClk, s.nextIdx)
  }

  /** The abstract scheduler: which alarms are pending, and when. */
  ghost function Pending<A>(s: Sched<A>): map<A, CLOCK>
    requires Linked(s.slots, s.idx)
  {
    map a | a in s.idx :: s.slots[s.idx[a]].clk
  }

  /** `c` is the earliest clock in `m`, or the sentinel when there is none earlier. */
  ghost predicate IsEarliest<A>(m: map<A, CLOCK>, c: CLOCK) {
    && (forall a :: a in m ==> c <= m[a])
    && (c < CLOCK_MAX ==> exists a :: a in m && m[a] == c)
  }

  // ---------------------------------------------------------------- operations

  /** Earliest clock of `slots` and the LAST slot holding it (ties are not FIFO);
      with no slot, the sentinel and the slot number left as it was. */
  function Scan<A>(slots: seq<Slot<A>>, keep: int): (r: (CLOCK, int))
    ensures forall i :: 0 <= i < |slots| ==> r.0 <= slots[i].clk
    ensures if |slots| == 0 then r == (CLOCK_MAX, keep)
            else 0 <= r.1 < |slots| && slots[r.1].clk == r.0
    ensures forall i :: 0 <= r.1 < i < |slots| ==> r.0 < slots[i].clk
  {
    if slots == [] then (CLOCK_MAX, keep)
    else
      var n := |slots| - 1;
      var r := Scan(slots[..n], keep);
      if slots[n].clk <= r.0 then (slots[n].clk, n) else r
  }

  function Rescan<A>(s: Sched<A>): (r: Sched<A>)
    ensures r.slots == s.slots && r.idx == s.idx
    ensures Cached(r.slots, r.nextClk, r.nextIdx)
  {
    var r := Scan(s.slots, s.nextIdx);
    s.(nextClk := r.0, nextIdx := r.1)
  }

  function Set<A(==)>(s: Sched<A>, a: A, clk: CLOCK): Sched<A>
    requires Linked(s.slots, s.idx)
  {
    if a !in s.idx then
      var n := |s.slots|;
      if n >= MAX_PENDING then s
      else
        var t := s.(slots := s.slots + [Slot(a, clk)], idx := s.idx[a := n]);
        if clk < s.nextClk then t.(nextClk := clk, nextIdx := n) else t
    else
      var i := s.idx[a];
      var t := s.(slots := s.slots[i := Slot(a, clk)]);
      if s.nextClk > clk || i == s.nextIdx then Rescan(t) else t
  }

  /** Swap-with-last removal of slot `i`. */
  function RemoveAt<A>(slots: seq<Slot<A>>, i: nat): (r: seq<Slot<A>>)
    requires i < |slots|
    ensures |r| == |slots| - 1
    ensures forall j :: 0 <= j < |r| ==> r[j] == if j == i then slots[|slots| - 1] else slots[j]
  {
    slots[i := slots[|slots| - 1]][..|slots| - 1]
  }

  function Unset<A(==)>(s: Sched<A>, a: A): Sched<A>
    requires Linked(s.slots, s.idx)
  {
    if a !in s.idx then s
    else if |s.slots| > 1 then
      var i, last := s.idx[a], |s.slots| - 1;
      var t := s.(slots := RemoveAt(s.slots, i),
                  idx := s.idx[s.slots[last].alarm := i] - {a});
      if s.nextIdx == i then Rescan(t)
      else if s.nextIdx == last then t.(nextIdx := i)
      else t
    else Sched([], map[], CLOCK_MAX, -1)
  }

  // ------------------------------------------------- refinement of the pending map

  /** The cached clock is the minimum of the pending map, and the cached slot
      names an alarm due at that clock. */
  lemma NextIsEarliest<A>(s: Sched<A>)
    requires Inv(s)
    ensures IsEarliest(Pending(s), s.nextClk)
    ensures s.nextClk < CLOCK_MAX ==>
              var a := s.slots[s.nextIdx].alarm;
              a in Pending(s) && Pending(s)[a] == s.nextClk
  {
    if s.nextClk < CLOCK_MAX {
      var a := s.slots[s.nextIdx].alarm;
      assert a in Pending(s) && Pending(s)[a] == s.nextClk;
    }
  }

  lemma {:induction false} SlotCount<A>(s: Sched<A>)
    requires Linked(s.slots, s.idx)
    ensures |Pending(s)| == |s.slots|
    decreases |s.slots|
  {
    assert Pending(s).Keys == s.idx.Keys;
    if s.slots != [] {
      var n := |s.slots| - 1;
      var a := s.slots[n].alarm;
      var t := s.(slots := s.slots[..n], idx := s.idx - {a});
      SlotCount(t);
      assert Pending(t).Keys == Pending(s).Keys - {a};
    } else {
      assert s.idx.Keys == {};
    }
  }

  lemma SetLinked<A>(s: Sched<A>, a: A, clk: CLOCK)
    requires Inv(s)
    ensures var t := Set(s, a, clk); Linked(t.slots, t.idx) && Cached(t.slots, t.nextClk, t.nextIdx)
    ensures a in s.idx || |s.slots| < MAX_PENDING ==> Pending(Set(s, a, clk)) == Pending(s)[a := clk]
  {
    hide Linked, Cached, Pending, Rescan;
    if a in s.idx {
      Reclocked(s, a, clk);
    } else if |s.slots| < MAX_PENDING {
      Appended(s, a, clk);
    }
  }

  lemma Reclocked<A>(s: Sched<A>, a: A, clk: CLOCK)
    requires Inv(s) && a in s.idx
    ensures var t := Set(s, a, clk); Linked(t.slots, t.idx) && Cached(t.slots, t.nextClk, t.nextIdx)
    ensures Pending(Set(s, a, clk)) == Pending(s)[a := clk]
  {
    hide Rescan;
    var t := Set(s, a, clk);
    assert t.idx == s.idx && t.slots == s.slots[s.idx[a] := Slot(a, clk)];
  }

  lemma Appended<A>(s: Sched<A>, a: A, clk: CLOCK)
    requires Inv(s) && a !in s.idx && |s.slots| < MAX_PENDING
    ensures var t := Set(s, a, clk); Linked(t.slots, t.idx) && Cached(t.slots, t.nextClk, t.nextIdx)
    ensures Pending(Set(s, a, clk)) == Pending(s)[a := clk]
  {
    hide Rescan;
    var t := Set(s, a, clk);
    assert t.idx == s.idx[a := |s.slots|] && t.slots == s.slots + [Slot(a, clk)];
  }

  /** alarm_set keeps the invariant and is a map update; only a full table drops it. */
  lemma SetRefines<A>(s: Sched<A>, a: A, clk: CLOCK)
    requires Inv(s)
    ensures Inv(Set(s, a, clk))
    ensures var m := Pending(s);
            Pending(Set(s, a, clk)) == if a in m || |m| < MAX_PENDING then m[a := clk] else m
  {
    SlotCount(s);
    SetLinked(s, a, clk);
    hide Linked;
    hide Cached;
  }

  lemma UnsetLinked<A>(s: Sched<A>, a: A)
    requires Linked(s.slots, s.idx)
    ensures Linked(Unset(s, a).slots, Unset(s, a).idx)
  {
    hide Rescan;
  }

  lemma UnsetCached<A>(s: Sched<A>, a: A)
    requires Inv(s)
    ensures var t := Unset(s, a); Cached(t.slots, t.nextClk, t.nextIdx)
  {
  }

  lemma UnsetPending<A>(s: Sched<A>, a: A)
    requires Linked(s.slots, s.idx)
    ensures Linked(Unset(s, a).slots, Unset(s, a).idx)
    ensures Pending(Unset(s, a)) == Pending(s) - {a}
  {
    UnsetLinked(s, a);
    hide Rescan;
    var t := Unset(s, a);
    if a in s.idx && |s.slots| > 1 {
      var i, last := s.idx[a], |s.slots| - 1;
      assert t.slots == RemoveAt(s.slots, i) && t.idx.Keys == s.idx.Keys - {a};
      forall b | b in s.idx && b != a
        ensures t.slots[t.idx[b]].clk == s.slots[s.idx[b]].clk
      {
        assert s.slots[s.idx[b]].alarm == b;
      }
    }
  }

  /** alarm_unset keeps the invariant, including after swap-with-last removal of
      the cached or the last slot, and removes exactly its own alarm. */
  lemma UnsetRefines<A>(s: Sched<A>, a: A)
    requires Inv(s)
    ensures Inv(Unset(s, a))
    ensures Pending(Unset(s, a)) == Pending(s) - {a}
  {
    UnsetPending(s, a);
    UnsetCached(s, a);
    hide Linked;
    hide Cached;
    hide Pending;
  }
}
