/**
 The polling loop: while the earliest alarm is due, call its callback.  A
 callback is known only by its contract: it cancels its own alarm or moves it
 strictly past the current clock, and touches no other alarm.  Which alarm is
 taken among those due at the same clock is left open.
 */
module AlarmDispatch {
  import opened AlarmModel

  datatype Reaction = Cancel | Rearm(clk: CLOCK)

  /** One callback call: whose, when it was due, the offset it was told, and what it did. */
  datatype Firing<A> = Firing(alarm: A, due: CLOCK, offset: CLOCK, reaction: Reaction)

  function React<A(==)>(m: map<A, CLOCK>, f: Firing<A>): map<A, CLOCK> {
    match f.reaction
    case Cancel => m - {f.alarm}
    case Rearm(c) => m[f.alarm := c]
  }

  ghost predicate Fires<A>(m: map<A, CLOCK>, now: CLOCK, f: Firing<A>) {
    && f.alarm in m && m[f.alarm] == f.due <= now
    && IsEarliest(m, f.due)
    && f.offset == now - f.due
    && (f.reaction.Rearm? ==> now < f.reaction.clk)
  }

  ghost predicate NoneDue<A>(m: map<A, CLOCK>, now: CLOCK) {
    forall a :: a in m ==> now < m[a]
  }

  /** Calling back `fs` one after the other takes the pending map from `m` to `n`. */
  ghost predicate Calling<A>(m: map<A, CLOCK>, now: CLOCK, fs: seq<Firing<A>>, n: map<A, CLOCK>) {
    if fs == [] then m == n
    else Fires(m, now, fs[0]) && Calling(React(m, fs[0]), now, fs[1..], n)
  }

  /** `fs` is a complete run of the polling loop at clock `now`, from `m` to `n`. */
  ghost predicate Polled<A>(m: map<A, CLOCK>, now: CLOCK, fs: seq<Firing<A>>, n: map<A, CLOCK>) {
    Calling(m, now, fs, n) && NoneDue(n, now)
  }

  lemma {:induction false} CallingOnce<A>(
    m: map<A, CLOCK>, now: CLOCK, fs: seq<Firing<A>>, n: map<A, CLOCK>, f: Firing<A>)
    requires Calling(m, now, fs, n) && Fires(n, now, f)
    ensures Calling(m, now, fs + [f], React(n, f))
  {
    if fs == [] {
      assert (fs + [f])[1..] == [];
    } else {
      CallingOnce(React(m, fs[0]), now, fs[1..], n, f);
      assert (fs + [f])[1..] == fs[1..] + [f];
    }
  }

  ghost function Due<A>(m: map<A, CLOCK>, now: CLOCK): set<A> {
    set a | a in m && m[a] <= now
  }

  /** The loop's measure: every call leaves one alarm fewer due. */
  lemma CallShrinksDue<A>(m: map<A, CLOCK>, now: CLOCK, f: Firing<A>)
    requires Fires(m, now, f)
    ensures Due(React(m, f), now) == Due(m, now) - {f.alarm}
    ensures |Due(React(m, f), now)| < |Due(m, now)|
  {
    assert f.alarm in Due(m, now);
  }

  ghost predicate Calls<A>(fs: seq<Firing<A>>, k: int, a: A) {
    0 <= k < |fs| && fs[k].alarm == a
  }

  /** An alarm that is due is called exactly once, for the clock it was set to,
      with the time passed since; its new state is what its callback chose. */
  lemma {:induction false} DueFiresOnce<A>(m: map<A, CLOCK>, now: CLOCK, fs: seq<Firing<A>>, n: map<A, CLOCK>, a: A)
    returns (k: nat)
    requires Polled(m, now, fs, n) && a in m && m[a] <= now
    ensures Calls(fs, k, a) && fs[k].due == m[a] && fs[k].offset == now - m[a]
    ensures forall j :: Calls(fs, j, a) ==> j == k
    ensures match fs[k].reaction case Cancel => a !in n case Rearm(c) => a in n && n[a] == c
  {
    if fs[0].alarm == a {
      k := 0;
      OthersUntouched(React(m, fs[0]), now, fs[1..], n, a);
      assert forall j :: Calls(fs, j, a) && j > 0 ==> Calls(fs[1..], j - 1, a);
    } else {
      k := DueFiresOnce(React(m, fs[0]), now, fs[1..], n, a);
      k := k + 1;
      assert forall j :: Calls(fs, j, a) ==> Calls(fs[1..], j - 1, a);
    }
  }

  /** An alarm that is not due (or not pending) is not called and keeps its clock. */
  lemma {:induction false} OthersUntouched<A>(m: map<A, CLOCK>, now: CLOCK, fs: seq<Firing<A>>, n: map<A, CLOCK>, a: A)
    requires Calling(m, now, fs, n) && (a in m ==> now < m[a])
    ensures forall k :: !Calls(fs, k, a)
    ensures a in n <==> a in m
    ensures a in m ==> n[a] == m[a]
  {
    if fs != [] {
      OthersUntouched(React(m, fs[0]), now, fs[1..], n, a);
      assert forall k :: Calls(fs, k, a) ==> Calls(fs[1..], k - 1, a);
    }
  }

  /** Calls come in order of the clocks they were set for. */
  lemma {:induction false} InOrder<A>(m: map<A, CLOCK>, now: CLOCK, fs: seq<Firing<A>>, n: map<A, CLOCK>)
    requires Calling(m, now, fs, n)
    ensures forall i, j :: 0 <= i <= j < |fs| ==> fs[i].due <= fs[j].due
    ensures forall j :: 0 <= j < |fs| ==> fs[j].due <= now
  {
    if fs != [] {
      var m' := React(m, fs[0]);
      InOrder(m', now, fs[1..], n);
      forall j | 0 < j < |fs| ensures fs[0].due <= fs[j].due <= now {
        assert fs[1..][j - 1] == fs[j];
        assert fs[1] == fs[1..][0];
      }
    }
  }

  // ------------------------------------------------------------- whole runs

  /** What happens to a scheduler over time: devices set and unset alarms, and
      the CPU polls at some clock. */
  datatype Event<A> = DoSet(alarm: A, clk: CLOCK) | DoUnset(alarm: A) | Poll(now: CLOCK, calls: seq<Firing<A>>)

  ghost function AfterSet<A>(m: map<A, CLOCK>, a: A, clk: CLOCK): map<A, CLOCK> {
    if a in m || |m| < MAX_PENDING then m[a := clk] else m
  }

  ghost predicate Step<A>(m: map<A, CLOCK>, e: Event<A>, n: map<A, CLOCK>) {
    match e
    case DoSet(a, c) => n == AfterSet(m, a, c)
    case DoUnset(a) => n == m - {a}
    case Poll(now, fs) => Polled(m, now, fs, n)
  }

  /** `ms` are the pending maps before, between and after the events. */
  ghost predicate IsRun<A>(ms: seq<map<A, CLOCK>>, es: seq<Event<A>>) {
    |ms| == |es| + 1 && forall i :: 0 <= i < |es| ==> Step(ms[i], es[i], ms[i + 1])
  }

  /** Between `lo` and `hi` nobody sets or unsets `a`, and no poll is as late as `t`. */
  ghost predicate Waits<A>(es: seq<Event<A>>, lo: nat, hi: nat, a: A, t: CLOCK)
    requires lo <= hi <= |es|
  {
    forall i :: lo <= i < hi ==>
      match es[i]
      case DoSet(b, _) => b != a
      case DoUnset(b) => b != a
      case Poll(now, _) => now < t
  }

  ghost predicate CalledAt<A>(es: seq<Event<A>>, i: int, a: A) {
    0 <= i < |es| && es[i].Poll? && exists k :: Calls(es[i].calls, k, a)
  }

  /** Never early: until a poll reaches `t`, the alarm stays pending at `t` uncalled. */
  lemma {:induction false} NeverEarly<A>(ms: seq<map<A, CLOCK>>, es: seq<Event<A>>, lo: nat, hi: nat, a: A)
    requires IsRun(ms, es) && lo <= hi <= |es|
    requires a in ms[lo] && Waits(es, lo, hi, a, ms[lo][a])
    ensures a in ms[hi] && ms[hi][a] == ms[lo][a]
    ensures forall i :: lo <= i < hi ==> !CalledAt(es, i, a)
    decreases hi - lo
  {
    if lo < hi {
      NeverEarly(ms, es, lo, hi - 1, a);
      assert Step(ms[hi - 1], es[hi - 1], ms[hi]);
      match es[hi - 1]
      case DoSet(_, _) =>
      case DoUnset(_) =>
      case Poll(now, fs) => OthersUntouched(ms[hi - 1], now, fs, ms[hi], a);
    }
  }

  /** Never missed: an alarm pending at `t` is called at the first poll at or after
      `t`, exactly once, with the exact lateness as its offset, and not before. */
  lemma NeverMissed<A>(ms: seq<map<A, CLOCK>>, es: seq<Event<A>>, lo: nat, hi: nat, a: A) returns (k: nat)
    requires IsRun(ms, es) && lo <= hi < |es|
    requires a in ms[lo] && Waits(es, lo, hi, a, ms[lo][a])
    requires es[hi].Poll? && ms[lo][a] <= es[hi].now
    ensures forall i :: lo <= i < hi ==> !CalledAt(es, i, a)
    ensures Calls(es[hi].calls, k, a) && (forall j :: Calls(es[hi].calls, j, a) ==> j == k)
    ensures es[hi].calls[k].due == ms[lo][a]
    ensures es[hi].calls[k].offset == es[hi].now - ms[lo][a]
  {
    NeverEarly(ms, es, lo, hi, a);
    assert Step(ms[hi], es[hi], ms[hi + 1]);
    k := DueFiresOnce(ms[hi], es[hi].now, es[hi].calls, ms[hi + 1], a);
  }
}
