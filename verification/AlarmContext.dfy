/**
 The alarm scheduler in place: alarms on an intrusive doubly linked list, the
 pending ones in a fixed array with back-indices.
 */
module AlarmContexts {
  import opened AlarmModel
  import opened AlarmDispatch
  import opened AlarmWarp

  class Alarm {
    const context: AlarmContext
    /** Slot in the pending array, or -1. */
    var pendingIdx: int
    var next: Alarm?
    var prev: Alarm?

    constructor (context: AlarmContext)
      ensures this.context == context && pendingIdx == -1 && next == null && prev == null
    {
      this.context := context;
      pendingIdx, next, prev := -1, null, null;
    }
  }

  lemma {:induction false} SetOfSeq(s: seq<Alarm>)
    ensures |(set a: Alarm? | a in s)| <= |s|
  {
    if s != [] {
      SetOfSeq(s[1..]);
      assert (set a: Alarm? | a in s) == (set a: Alarm? | a in s[1..]) + {s[0]};
    }
  }

  lemma {:induction false} SubsetSize(s: set<Alarm?>, t: set<Alarm?>)
    requires s <= t
    ensures |s| <= |t|
  {
    assert t == s + (t - s);
  }

  lemma WarpMovesEach(s: Sched<Alarm?>, amount: CLOCK, direction: int)
    requires Linked(s.slots, s.idx)
    ensures var m, w := Pending(s), Warp(s, amount, direction);
            && Linked(w.slots, w.idx) && Pending(w).Keys == m.Keys
            && ((forall a :: a in m ==> Fits(m[a], amount, direction)) ==>
                  forall a :: a in m ==> Pending(w)[a] == m[a] + Distance(amount, direction))
  {
    hide Fits, Warp, Distance;
    WarpMovesPending(s, amount, direction);
    forall i | 0 <= i < |s.slots| ensures s.slots[i].alarm in Pending(s) && Pending(s)[s.slots[i].alarm] == s.slots[i].clk {
    }
  }

  lemma InvIsLinked(s: Sched<Alarm?>)
    requires Inv(s)
    ensures Linked(s.slots, s.idx)
  {
  }

  lemma SetUpdates(s: Sched<Alarm?>, a: Alarm?, clk: CLOCK)
    requires Inv(s)
    ensures Inv(Set(s, a, clk)) && Pending(Set(s, a, clk)) == AfterSet(Pending(s), a, clk)
  {
    hide Inv, Pending, Set;
    SetRefines(s, a, clk);
  }

  class AlarmContext {
    /** Head of the alarm list. */
    var alarms: Alarm?
    const pendingAlarms: array<Slot<Alarm?>>
    var numPending: nat
    var nextClk: CLOCK
    var nextIdx: int

    /** The alarms on the list, head first. */
    ghost var live: seq<Alarm>
    /** The alarms destroyed so far, in order. */
    ghost var freed: seq<Alarm>
    /** Clocks of the pending alarms. */
    ghost var pending: map<Alarm?, CLOCK>

    /** A finite acyclic doubly linked list of exactly the live alarms. */
    ghost predicate ListOk()
      reads this`alarms, this`live, live`next, live`prev
    {
      && alarms == (if live == [] then null else live[0])
      && (forall i, j :: 0 <= i < j < |live| ==> live[i] != live[j])
      && (forall i :: 0 <= i < |live| ==> live[i].context == this)
      && (forall i {:trigger live[i].next} :: 0 <= i < |live| ==>
            live[i].next == if i + 1 < |live| then live[i + 1] else null)
      && (forall i {:trigger live[i].prev} :: 0 <= i < |live| ==>
            live[i].prev == if i > 0 then live[i - 1] else null)
    }

    ghost function Idx(): map<Alarm?, int>
      reads this`live, live`pendingIdx
    {
      map a: Alarm? | a in live && a.pendingIdx >= 0 :: a.pendingIdx
    }

    ghost function Model(): Sched<Alarm?>
      requires numPending <= pendingAlarms.Length
      reads this`numPending, this`nextClk, this`nextIdx, this`live, live`pendingIdx, pendingAlarms
    {
      Sched(pendingAlarms[..numPending], Idx(), nextClk, nextIdx)
    }

    ghost predicate TableOk()
      reads this`live, this`numPending, live`pendingIdx
    {
      && numPending <= pendingAlarms.Length == MAX_PENDING
      && (forall a :: a in live ==> a.pendingIdx >= -1)
    }

    ghost predicate Valid()
      reads this, live, pendingAlarms
    {
      TableOk() && ListOk() && Inv(Model()) && pending == Pending(Model())
    }

    /** With at most 256 live alarms the table cannot be too full for one of them. */
    lemma RoomFor(alarm: Alarm)
      requires Valid() && alarm in live && |live| <= MAX_PENDING
      ensures alarm in pending || |pending| < MAX_PENDING
    {
      if alarm !in pending {
        var all := set a: Alarm? | a in live;
        SetOfSeq(live);
        assert pending.Keys <= all - {alarm};
        SubsetSize(pending.Keys, all - {alarm});
      }
    }

    /** A new context leaves the cached slot number undefined. */
    constructor ()
      ensures Valid() && fresh(pendingAlarms)
      ensures live == [] && freed == [] && pending == map[]
    {
      alarms := null;
      pendingAlarms := new Slot<Alarm?>[MAX_PENDING](_ => Slot(null, 0));
      numPending, nextClk, nextIdx := 0, CLOCK_MAX, *;
      live, freed, pending := [], [], map[];
    }

    method UpdateNextPending()
      requires numPending <= pendingAlarms.Length
      modifies this`nextClk, this`nextIdx
      ensures (nextClk, nextIdx) == Scan(pendingAlarms[..numPending], old(nextIdx))
    {
      var clk: CLOCK, idx := CLOCK_MAX, nextIdx;
      for i := 0 to numPending
        invariant (clk, idx) == Scan(pendingAlarms[..i], nextIdx)
      {
        assert pendingAlarms[..i + 1][..i] == pendingAlarms[..i];
        if pendingAlarms[i].clk <= clk {
          clk, idx := pendingAlarms[i].clk, i;
        }
      }
      nextClk, nextIdx := clk, idx;
    }

    /** Not pending yet: append a slot. */
    method Add(alarm: Alarm, cpuClk: CLOCK)
      requires alarm in live && alarm.pendingIdx < 0
      requires numPending < pendingAlarms.Length
      modifies this`numPending, this`nextClk, this`nextIdx, pendingAlarms, alarm`pendingIdx
      ensures numPending == old(numPending) + 1 && alarm.pendingIdx == old(numPending)
      ensures var s := old(Model());
              var t := s.(slots := s.slots + [Slot(alarm, cpuClk)], idx := s.idx[alarm := |s.slots|]);
              Model() == if cpuClk < s.nextClk then t.(nextClk := cpuClk, nextIdx := |s.slots|) else t
    {
      var newIdx := numPending;
      pendingAlarms[newIdx] := Slot(alarm, cpuClk);
      numPending := numPending + 1;
      if cpuClk < nextClk {
        nextClk, nextIdx := cpuClk, newIdx;
      }
      alarm.pendingIdx := newIdx;
    }

    /** Already pending: change the clock of its slot. */
    method Modify(alarm: Alarm, cpuClk: CLOCK)
      requires alarm in live && 0 <= alarm.pendingIdx < numPending <= pendingAlarms.Length
      modifies this`nextClk, this`nextIdx, pendingAlarms
      ensures var s, i := old(Model()), alarm.pendingIdx;
              var t := s.(slots := s.slots[i := Slot(alarm, cpuClk)]);
              Model() == if s.nextClk > cpuClk || i == s.nextIdx then Rescan(t) else t
    {
      pendingAlarms[alarm.pendingIdx] := Slot(alarm, cpuClk);
      if nextClk > cpuClk || alarm.pendingIdx == nextIdx {
        UpdateNextPending();
      }
    }

    method SetSlot(alarm: Alarm, cpuClk: CLOCK)
      requires Valid() && alarm in live
      modifies this`numPending, this`nextClk, this`nextIdx, pendingAlarms, alarm`pendingIdx
      ensures TableOk() && ListOk()
      ensures Model() == Set(old(Model()), alarm, cpuClk)
    {
      assert alarm.pendingIdx >= 0 ==> Model().idx[alarm] == alarm.pendingIdx < numPending;
      hide Linked, Cached, Scan, Rescan, Idx;
      if alarm.pendingIdx >= 0 {
        Modify(alarm, cpuClk);
      } else if numPending < MAX_PENDING {
        Add(alarm, cpuClk);
      }
    }

    /** alarm_set: (re)schedule an alarm; with a full table a new one is dropped. */
    method SetAlarm(alarm: Alarm, cpuClk: CLOCK)
      requires Valid() && alarm in live
      modifies this`numPending, this`nextClk, this`nextIdx, this`pending, pendingAlarms, alarm`pendingIdx
      ensures Valid()
      ensures Model() == Set(old(Model()), alarm, cpuClk)
      ensures pending == AfterSet(old(pending), alarm, cpuClk)
    {
      hide ListOk, Linked, Cached, Set, AfterSet, Idx;
      ghost var t := Set(Model(), alarm, cpuClk);
      SetUpdates(Model(), alarm, cpuClk);
      SetSlot(alarm, cpuClk);
      pending := AfterSet(pending, alarm, cpuClk);
      assert Model() == t;
    }

    /** Give up the last slot, moving its entry to slot `idx`. */
    method MoveLast(idx: nat)
      requires TableOk() && idx < numPending
      requires var a := pendingAlarms[numPending - 1].alarm; a in live && a.pendingIdx == numPending - 1
      modifies this`numPending, pendingAlarms, live`pendingIdx
      ensures numPending == old(numPending) - 1
      ensures pendingAlarms[..numPending] == RemoveAt(old(pendingAlarms[..numPending]), idx)
      ensures Idx() == old(Idx())[old(pendingAlarms[numPending - 1]).alarm := idx]
      ensures TableOk()
    {
      numPending := numPending - 1;
      var last := numPending;
      if last != idx {
        pendingAlarms[idx] := pendingAlarms[last];
        pendingAlarms[idx].alarm.pendingIdx := idx;
      }
    }

    /** Slot `idx` was given up and the last slot `last` moved there. */
    method RepairCache(idx: nat, last: nat)
      requires numPending <= pendingAlarms.Length
      modifies this`nextClk, this`nextIdx
      ensures var s := old(Model());
              Model() == if s.nextIdx == idx then Rescan(s)
                         else if s.nextIdx == last then s.(nextIdx := idx) else s
    {
      if nextIdx == idx {
        UpdateNextPending();
      } else if nextIdx == last {
        nextIdx := idx;
      }
    }

    /** Fill the alarm's slot with the last one and repair the cache. */
    method Remove(alarm: Alarm)
      requires TableOk() && alarm in live && 0 <= alarm.pendingIdx < numPending
      requires var a := pendingAlarms[numPending - 1].alarm; a in live && a.pendingIdx == numPending - 1
      modifies this`numPending, this`nextClk, this`nextIdx, pendingAlarms, live`pendingIdx
      ensures TableOk()
      ensures var s, i := old(Model()), old(alarm.pendingIdx);
              var t := s.(slots := RemoveAt(s.slots, i), idx := s.idx[s.slots[|s.slots| - 1].alarm := i] - {alarm});
              Model() == if s.nextIdx == i then Rescan(t)
                         else if s.nextIdx == |s.slots| - 1 then t.(nextIdx := i) else t
    {
      hide Scan, RemoveAt;
      ghost var s := Model();
      var idx, last := alarm.pendingIdx, numPending - 1;
      MoveLast(idx);
      ghost var t := s.(slots := RemoveAt(s.slots, idx), idx := s.idx[s.slots[last].alarm := idx]);
      assert Model() == t;
      RepairCache(idx, last);
      alarm.pendingIdx := -1;
      assert Idx() == t.idx - {alarm};
    }

    method UnsetSlot(alarm: Alarm)
      requires Valid() && alarm in live
      modifies this`numPending, this`nextClk, this`nextIdx, pendingAlarms, live`pendingIdx
      ensures TableOk() && ListOk()
      ensures Model() == Unset(old(Model()), alarm)
    {
      ghost var s := Model();
      if alarm.pendingIdx >= 0 {
        assert s.idx[alarm] == alarm.pendingIdx;
        if numPending > 1 {
          assert var a := pendingAlarms[numPending - 1].alarm; a in live && a.pendingIdx == numPending - 1;
          hide Linked, Cached, Scan, Rescan, RemoveAt, ListOk, Inv;
          Remove(alarm);
          assert Model() == Unset(s, alarm);
        } else {
          Clear(alarm);
        }
      } else {
        assert alarm !in s.idx;
      }
    }

    /** The only pending alarm stops pending. */
    method Clear(alarm: Alarm)
      requires Valid() && alarm in live && alarm.pendingIdx >= 0 && numPending <= 1
      modifies this`numPending, this`nextClk, this`nextIdx, alarm`pendingIdx
      ensures TableOk() && ListOk()
      ensures Model() == Sched([], map[], CLOCK_MAX, -1)
    {
      ghost var s := Model();
      forall a | a in live && a.pendingIdx >= 0 ensures a == alarm {
        assert s.idx[a] == 0 && s.idx[alarm] == 0;
      }
      hide Inv;
      numPending, nextClk, nextIdx := 0, CLOCK_MAX, -1;
      alarm.pendingIdx := -1;
      assert Idx() == map[];
    }

    /** alarm_unset: the alarm, and no other, stops pending. */
    method UnsetAlarm(alarm: Alarm)
      requires Valid() && alarm in live
      modifies this`numPending, this`nextClk, this`nextIdx, this`pending, pendingAlarms, live`pendingIdx
      ensures Valid()
      ensures alarm.pendingIdx == -1
      ensures Model() == Unset(old(Model()), alarm)
      ensures pending == old(pending) - {alarm}
    {
      hide ListOk, Linked, Cached;
      ghost var t := Unset(Model(), alarm);
      UnsetRefines(Model(), alarm);
      UnsetSlot(alarm);
      pending := pending - {alarm};
      assert Model() == t;
    }

    // -------------------------------------------------------------- alarm list

    /** Put an alarm that is not pending at the head of the list. */
    method Link(alarm: Alarm)
      requires ListOk() && alarm !in live && alarm.context == this
      modifies this`alarms, this`live, live`prev, alarm`next, alarm`prev
      ensures ListOk() && live == [alarm] + old(live)
    {
      if alarms == null {
        alarms := alarm;
        alarm.next := null;
      } else {
        alarm.next := alarms;
        alarms.prev := alarm;
        alarms := alarm;
      }
      alarm.prev := null;
      ghost var was := live;
      live := [alarm] + live;
      assert forall i :: 0 < i < |live| ==> live[i] == was[i - 1];
    }

    /** alarm_new: a new alarm heads the list and is not pending. */
    method NewAlarm() returns (alarm: Alarm)
      requires Valid()
      modifies this`alarms, this`live, live`prev
      ensures Valid() && fresh(alarm)
      ensures live == [alarm] + old(live)
      ensures Model() == old(Model()) && alarm.pendingIdx == -1
    {
      alarm := new Alarm(this);
      ghost var s := Model();
      Link(alarm);
      assert Idx() == s.idx;
      hide Linked, Cached;
    }

    /** Take any member, head, middle or tail, off the list. */
    method Unlink(alarm: Alarm, ghost k: nat)
      requires ListOk() && k < |live| && live[k] == alarm
      modifies this`alarms, this`live, live`next, live`prev
      ensures ListOk() && live == old(live)[..k] + old(live)[k + 1..]
      ensures alarm.next == old(alarm.next)
    {
      ghost var was := live;
      assert alarm.next == if k + 1 < |was| then was[k + 1] else null;
      assert alarm.prev == if k > 0 then was[k - 1] else null;
      if alarm == alarms {
        alarms := alarm.next;
      }
      if alarm.next != null {
        alarm.next.prev := alarm.prev;
      }
      if alarm.prev != null {
        alarm.prev.next := alarm.next;
      }
      live := live[..k] + live[k + 1..];
      assert forall i :: 0 <= i < |live| ==> live[i] == was[if i < k then i else i + 1];
    }

    lemma OnlyOnce(k: nat)
      requires ListOk() && k < |live|
      ensures live[k] !in live[..k] + live[k + 1..]
    {
    }

    /** Take an alarm that is not pending off the list. */
    method Detach(alarm: Alarm, ghost k: nat)
      requires Valid() && k < |live| && live[k] == alarm && alarm.pendingIdx == -1
      modifies this`alarms, this`live, live`next, live`prev
      ensures Valid() && Model() == old(Model())
      ensures live == old(live)[..k] + old(live)[k + 1..] && alarm !in live
    {
      hide ListOk, Linked, Cached;
      ghost var s := Model();
      assert forall a :: a in live && a != alarm ==> a in live[..k] || a in live[k + 1..];
      OnlyOnce(k);
      Unlink(alarm, k);
      assert Idx() == s.idx;
    }

    /** alarm_destroy: the alarm is no longer pending nor on the list; null is ignored. */
    method DestroyAlarm(alarm: Alarm?, ghost k: nat)
      requires Valid() && (alarm != null ==> k < |live| && live[k] == alarm)
      modifies this, pendingAlarms, live
      ensures Valid()
      ensures alarm == null ==> live == old(live) && freed == old(freed) && Model() == old(Model())
      ensures alarm != null ==>
                && live == old(live)[..k] + old(live)[k + 1..] && alarm !in live
                && freed == old(freed) + [alarm]
                && pending == old(pending) - {alarm}
    {
      if alarm == null {
        return;
      }
      UnsetAlarm(alarm);
      Detach(alarm, k);
      freed := freed + [alarm];
    }

    lemma Heads()
      requires Valid()
      ensures alarms == if live == [] then null else live[0]
      ensures live != [] ==> live[0].next == if |live| > 1 then live[1] else null
    {
    }

    /** alarm_context_destroy: frees every live alarm exactly once, in list order. */
    method DestroyAll()
      requires Valid()
      modifies this, pendingAlarms, live
      ensures Valid() && live == []
      ensures freed == old(freed) + old(live)
    {
      hide *;
      var ap := alarms;
      ghost var all, done := live, 0;
      Heads();
      while ap != null
        invariant 0 <= done <= |all| && live == all[done..]
        invariant Valid() && ap == alarms == if live == [] then null else live[0]
        invariant live != [] ==> live[0].next == if |live| > 1 then live[1] else null
        invariant freed == old(freed) + all[..done]
        decreases |live|
      {
        var next := ap.next;
        DestroyAlarm(ap, 0);
        done := done + 1;
        ap := next;
        Heads();
      }
    }

    // --------------------------------------------------------- clock and polling

    method WarpSlots(amount: CLOCK, direction: int)
      requires numPending <= pendingAlarms.Length
      modifies this`nextClk, pendingAlarms
      ensures Model() == Warp(old(Model()), amount, direction)
    {
      ghost var s := Model();
      if direction == 0 {
        assert ShiftSlots(s.slots, amount, direction) == s.slots;
        return;
      }
      for i := 0 to numPending
        modifies pendingAlarms
        invariant forall j :: 0 <= j < i ==> pendingAlarms[j] == ShiftSlots(s.slots, amount, direction)[j]
        invariant forall j :: i <= j < numPending ==> pendingAlarms[j] == s.slots[j]
      {
        pendingAlarms[i] := Slot(pendingAlarms[i].alarm, Shift(pendingAlarms[i].clk, amount, direction));
      }
      nextClk := Shift(nextClk, amount, direction);
      assert pendingAlarms[..numPending] == ShiftSlots(s.slots, amount, direction);
    }

    /** alarm_context_time_warp: shifts every pending clock and the cached one.  The
        context stays valid exactly when the warped table keeps the invariant. */
    method TimeWarp(amount: CLOCK, direction: int)
      requires Valid()
      modifies this`nextClk, this`pending, pendingAlarms
      ensures Model() == Warp(old(Model()), amount, direction)
      ensures pending == Pending(Warp(old(Model()), amount, direction))
      ensures Valid() <==> Inv(Warp(old(Model()), amount, direction))
      ensures pending.Keys == old(pending).Keys
      ensures (forall a :: a in pending ==> Fits(old(pending)[a], amount, direction)) ==>
                forall a :: a in pending ==> pending[a] == old(pending)[a] + Distance(amount, direction)
    {
      hide Inv, Warp, Linked, Fits, Distance, Pending;
      ghost var t := Warp(Model(), amount, direction);
      InvIsLinked(Model());
      WarpMovesEach(Model(), amount, direction);
      WarpSlots(amount, direction);
      pending := Pending(t);
      assert Model() == t;
      assert TableOk() && ListOk();
    }

    /** What a poll compares the clock with is the earliest pending clock. */
    lemma Earliest()
      requires Valid()
      ensures IsEarliest(pending, nextClk)
    {
      NextIsEarliest(Model());
    }

    /** The alarm in the cached slot, which is the one to call back next. */
    method Next() returns (alarm: Alarm)
      requires Valid() && nextClk < CLOCK_MAX
      ensures alarm in live && (alarm as Alarm?) in pending && pending[alarm] == nextClk
      ensures 0 <= nextIdx < numPending <= pendingAlarms.Length && alarm == pendingAlarms[nextIdx].alarm
    {
      NextIsEarliest(Model());
      alarm := pendingAlarms[nextIdx].alarm;
      assert (alarm as Alarm?) in Idx();
    }

    /** alarm_context_dispatch: call back the alarm in the cached slot.  All the
        scheduler sees of the callback is what it does to its own alarm. */
    method Dispatch(cpuClk: CLOCK, reaction: Reaction) returns (f: Firing<Alarm?>)
      requires Valid() && nextClk <= cpuClk < CLOCK_MAX
      requires reaction.Rearm? ==> cpuClk < reaction.clk
      modifies this`numPending, this`nextClk, this`nextIdx, this`pending, pendingAlarms, live`pendingIdx
      ensures Valid()
      ensures f.reaction == reaction && Fires(old(pending), cpuClk, f)
      ensures 0 <= old(nextIdx) < pendingAlarms.Length && f.alarm == old(pendingAlarms[..])[old(nextIdx)].alarm
      ensures pending == React(old(pending), f)
    {
      hide Valid;
      Earliest();
      var offset := cpuClk - nextClk;
      var alarm := Next();
      f := Firing(alarm, nextClk, offset, reaction);
      match reaction
      case Cancel => UnsetAlarm(alarm);
      case Rearm(clk) => SetAlarm(alarm, clk);
    }

    /** PROCESS_ALARMS: call back until nothing is due.  The k-th callback does
        whatever `reactions` says, as long as it keeps the callback contract. */
    method ProcessAlarms(cpuClk: CLOCK, reactions: nat -> Reaction) returns (calls: seq<Firing<Alarm?>>)
      requires Valid() && cpuClk < CLOCK_MAX
      requires forall k :: reactions(k).Rearm? ==> cpuClk < reactions(k).clk
      modifies this`numPending, this`nextClk, this`nextIdx, this`pending, pendingAlarms, live`pendingIdx
      ensures Valid()
      ensures Polled(old(pending), cpuClk, calls, pending)
    {
      hide Valid;
      calls := [];
      while cpuClk >= nextClk
        invariant Valid()
        invariant Calling(old(pending), cpuClk, calls, pending)
        decreases |Due(pending, cpuClk)|
      {
        ghost var m := pending;
        var f := Dispatch(cpuClk, reactions(|calls|));
        CallShrinksDue(m, cpuClk, f);
        CallingOnce(old(pending), cpuClk, calls, m, f);
        calls := calls + [f];
      }
      Earliest();
    }
  }
}
