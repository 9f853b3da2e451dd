/** Transmit and receive conservation: no byte is invented, reordered or lost
    except by being overwritten (transmit) or discarded with OVERRUN (receive). */
module AciaTraffic {
  import opened AlarmModel
  import opened AciaModel
  import opened AciaRuns

  // ------------------------------------------------------------------ transmit

  /** Data register writes, reads and alarm firings: CMD, CTRL and the open
      device stay as they are. */
  predicate Traffic(g: Config, e: BusEvent) {
    !e.HwReset? && (e.Write? ==> Select(g.mode, e.addr) == DR)
  }

  /** A one-byte mailbox that each write overwrites and each firing empties. */
  function Mailbox(m: Option<bv8>, e: BusEvent): Option<bv8> {
    match e
    case Write(_, _, byte, _) => Some(byte)
    case TxFire(_) => None
    case _ => m
  }

  function MailboxAfter(m: Option<bv8>, es: seq<BusEvent>): Option<bv8> {
    if es == [] then m else Mailbox(MailboxAfter(m, es[..|es| - 1]), es[|es| - 1])
  }

  /** What the mailbox, starting as `m`, delivers over `es`. */
  function Delivered(m: Option<bv8>, mask: bv8, es: seq<BusEvent>): seq<Sent> {
    if es == [] then []
    else
      var front, e := es[..|es| - 1], es[|es| - 1];
      var box := MailboxAfter(m, front);
      Delivered(m, mask, front)
      + (if e.TxFire? && box.Some? then [Sent(e.clk, box.value & mask)] else [])
  }

  /** The transmitter holds `m`: a waiting byte is armed and its TDRE bit clear. */
  ghost predicate Holds(g: Config, s: Acia, m: Option<bv8>) {
    && Coupled(g, s)
    && s.wire.open && s.r.cmd & CMD_DTR != 0
    && (s.inTx == DR_WRITTEN <==> m.Some?)
    && (m.Some? ==> s.r.txdata == m.value && s.r.status & SR_TRANSMIT_EMPTY == 0)
    && (s.inTx != NO_TRANSMIT ==> s.tx.at.Some?)
  }

  /** What traffic leaves alone. */
  predicate SameSetup(s: Acia, t: Acia) {
    t.r.datamask == s.r.datamask && t.ticks == s.ticks
  }

  lemma WriteStep(g: Config, s: Acia, clk: CLOCK, byte: bv8, m: Option<bv8>)
    requires Holds(g, s, m)
    ensures var t := StoreDR(s, clk, byte);
            Holds(g, t, Some(byte)) && SameSetup(s, t) && t.sent == s.sent
  {
    StoreOthersKeepCoupled(g, s, clk, byte);
    hide Later, DataMask;
  }

  lemma TxStep(g: Config, s: Acia, clk: CLOCK, m: Option<bv8>)
    requires Holds(g, s, m)
    ensures var t := TxAlarm(g, s, clk);
            && Holds(g, t, None) && SameSetup(s, t)
            && t.sent == s.sent + (if m.Some? then [Sent(clk, m.value & s.r.datamask)] else [])
  {
    AlarmsKeepCoupled(g, s, clk, None);
    hide Later, DataMask;
  }

  lemma RxStep(g: Config, s: Acia, clk: CLOCK, input: Option<bv8>, m: Option<bv8>)
    requires Holds(g, s, m)
    ensures var t := RxAlarm(g, s, clk, input);
            Holds(g, t, m) && SameSetup(s, t) && t.sent == s.sent
  {
    AlarmsKeepCoupled(g, s, clk, input);
    hide Later, DataMask;
  }

  lemma ReadStep(g: Config, s: Acia, addr: bv16, dcd: bool, dsr: bool, m: Option<bv8>)
    requires Holds(g, s, m)
    ensures Holds(g, Read(g, s, addr, dcd, dsr).0, m)
    ensures SameSetup(s, Read(g, s, addr, dcd, dsr).0) && Read(g, s, addr, dcd, dsr).0.sent == s.sent
  {
    ReadKeepsCoupled(g, s, addr, dcd, dsr);
    ReadFrame(g, s, addr, dcd, dsr);
    hide Read, Coupled, DataMask;
    assert Holds(g, Read(g, s, addr, dcd, dsr).0, m);
  }

  lemma ReadFrame(g: Config, s: Acia, addr: bv16, dcd: bool, dsr: bool)
    ensures var t := Read(g, s, addr, dcd, dsr).0;
            && t == s.(r := s.r.(status := t.r.status, lastRead := t.r.lastRead), int_ := t.int_)
            && t.r.status & SR_TRANSMIT_EMPTY == s.r.status & SR_TRANSMIT_EMPTY
            && (Select(g.mode, addr) != DR ==>
                  && t.r.status & SR_RECEIVE_FULL == s.r.status & SR_RECEIVE_FULL
                  && t.r.status & SR_OVERRUN == s.r.status & SR_OVERRUN)
  {
    StatusBits(g, s.r.status, s.wire.open && dcd, s.wire.open && dsr);
    hide ModemStatus;
    var t := Read(g, s, addr, dcd, dsr).0;
    match Select(g.mode, addr)
    case DR =>
      assert t == s.(r := s.r.(status := s.r.status & !SR_CLEARED_BY_READ, lastRead := s.r.rxdata));
      assert s.r.status & !SR_CLEARED_BY_READ & SR_TRANSMIT_EMPTY == s.r.status & SR_TRANSMIT_EMPTY;
    case SR =>
    case CTRL => assert t == s.(r := s.r.(lastRead := s.r.ctrl));
    case CMD => assert t == s.(r := s.r.(lastRead := s.r.cmd));
    case _ => assert t == s;
  }

  lemma TrafficStep(g: Config, s: Acia, e: BusEvent, m: Option<bv8>)
    requires Holds(g, s, m) && Traffic(g, e)
    ensures Holds(g, Apply(g, s, e), Mailbox(m, e)) && SameSetup(s, Apply(g, s, e))
    ensures Apply(g, s, e).sent
            == s.sent + (if e.TxFire? && m.Some? then [Sent(e.clk, m.value & s.r.datamask)] else [])
  {
    match e {
      case Write(clk, _, byte, _) => WriteStep(g, s, clk, byte, m);
      case ReadReg(_, addr, dcd, dsr) => ReadStep(g, s, addr, dcd, dsr, m);
      case TxFire(clk) => TxStep(g, s, clk, m);
      case RxFire(clk, input) => RxStep(g, s, clk, input, m);
    }
    hide StoreDR, Read, TxAlarm, RxAlarm, Holds;
    assert Holds(g, Apply(g, s, e), Mailbox(m, e)) && SameSetup(s, Apply(g, s, e));
  }

  /** Over any traffic the transmitter holds exactly what the mailbox does; so a
      waiting byte always has an armed alarm and a clear TDRE bit. */
  lemma {:induction false} HoldsMailbox(g: Config, ss: seq<Acia>, es: seq<BusEvent>, m: Option<bv8>, n: nat)
    requires DeviceRun(g, ss, es) && n <= |es| && Holds(g, ss[0], m)
    requires forall i :: 0 <= i < |es| ==> Traffic(g, es[i])
    ensures Holds(g, ss[n], MailboxAfter(m, es[..n])) && SameSetup(ss[0], ss[n])
  {
    hide Apply, Holds, Coupled;
    if n > 0 {
      HoldsMailbox(g, ss, es, m, n - 1);
      assert es[..n][..n - 1] == es[..n - 1];
      TrafficStep(g, ss[n - 1], es[n - 1], MailboxAfter(m, es[..n - 1]));
      assert MailboxAfter(m, es[..n]) == Mailbox(MailboxAfter(m, es[..n - 1]), es[n - 1]);
      assert Holds(g, ss[n], MailboxAfter(m, es[..n]));
    } else {
      assert es[..n] == [];
    }
  }

  lemma DeliveredStep(m: Option<bv8>, mask: bv8, es: seq<BusEvent>, n: nat)
    requires 0 < n <= |es|
    ensures var box := MailboxAfter(m, es[..n - 1]);
            Delivered(m, mask, es[..n]) == Delivered(m, mask, es[..n - 1])
              + (if es[n - 1].TxFire? && box.Some? then [Sent(es[n - 1].clk, box.value & mask)] else [])
  {
    assert es[..n][..n - 1] == es[..n - 1];
  }

  /** Over any traffic the driver is handed exactly what the mailbox delivers: the
      latest byte written since the previous firing, masked, once. */
  lemma {:induction false} SendsLatestWrites(g: Config, ss: seq<Acia>, es: seq<BusEvent>, m: Option<bv8>, n: nat)
    requires DeviceRun(g, ss, es) && n <= |es| && Holds(g, ss[0], m)
    requires forall i :: 0 <= i < |es| ==> Traffic(g, es[i])
    ensures ss[n].sent == ss[0].sent + Delivered(m, ss[0].r.datamask, es[..n])
  {
    hide Apply, Holds, Coupled;
    if n > 0 {
      SendsLatestWrites(g, ss, es, m, n - 1);
      HoldsMailbox(g, ss, es, m, n - 1);
      var box, mask, e := MailboxAfter(m, es[..n - 1]), ss[0].r.datamask, es[n - 1];
      TrafficStep(g, ss[n - 1], e, box);
      DeliveredStep(m, mask, es, n);
      hide Delivered, MailboxAfter, DeviceRun;
      assert ss[n].sent == ss[0].sent + Delivered(m, mask, es[..n]);
    }
  }

  /** A byte written is sent by the next firing unless it is overwritten first. */
  lemma {:induction false} NextFiringSends(g: Config, ss: seq<Acia>, es: seq<BusEvent>, m: Option<bv8>, w: nat, f: nat)
    requires DeviceRun(g, ss, es) && Holds(g, ss[0], m)
    requires forall i :: 0 <= i < |es| ==> Traffic(g, es[i])
    requires w < f < |es| && es[w].Write? && es[f].TxFire?
    requires forall i :: w < i < f ==> !es[i].Write? && !es[i].TxFire?
    ensures ss[f + 1].sent == ss[f].sent + [Sent(es[f].clk, es[w].byte & ss[0].r.datamask)]
  {
    HoldsMailbox(g, ss, es, m, f);
    MailboxKeeps(m, es, w, f);
    TrafficStep(g, ss[f], es[f], MailboxAfter(m, es[..f]));
    hide Holds, Apply;
  }

  lemma {:induction false} MailboxKeeps(m: Option<bv8>, es: seq<BusEvent>, w: nat, f: nat)
    requires w < f <= |es| && es[w].Write?
    requires forall i :: w < i < f ==> !es[i].Write? && !es[i].TxFire?
    ensures MailboxAfter(m, es[..f]) == Some(es[w].byte)
    decreases f
  {
    assert es[..f][..f - 1] == es[..f - 1];
    if w < f - 1 {
      MailboxKeeps(m, es, w, f - 1);
    }
  }

  /** The transmitter is free for the next byte no sooner than `ticks` after the
      last one handed over since position `from` of the log. */
  ghost predicate Paced(s: Acia, from: nat, now: CLOCK) {
    && from <= |s.sent|
    && (forall i :: from <= i < |s.sent| - 1 ==> s.sent[i].clk + s.ticks <= s.sent[i + 1].clk)
    && (from < |s.sent| ==> s.sent[|s.sent| - 1].clk + s.ticks <= if s.tx.active then s.tx.clk else now)
  }

  lemma PacedStep(g: Config, s: Acia, e: BusEvent, m: Option<bv8>, from: nat, now: CLOCK)
    requires Holds(g, s, m) && Traffic(g, e) && Enabled(s, e)
    requires Paced(s, from, now) && now <= e.clk && 1 <= s.ticks && e.clk + s.ticks <= CLOCK_MAX
    ensures Paced(Apply(g, s, e), from, e.clk)
  {
    TrafficStep(g, s, e, m);
    var t := Apply(g, s, e);
    assert t.tx == match e
                   case Write(clk, _, _, _) => if s.tx.active then s.tx else Armed(clk + 1)
                   case TxFire(clk) => t.tx
                   case _ => s.tx;
    assert e.TxFire? && t.tx.active ==> t.tx.clk == e.clk + s.ticks;
    hide Apply, Holds;
  }

  /** Consecutive bytes are handed to the driver at least one character time apart. */
  lemma {:induction false} SendsArePaced(g: Config, ss: seq<Acia>, es: seq<BusEvent>, m: Option<bv8>, n: nat)
    requires DeviceRun(g, ss, es) && n <= |es| && Holds(g, ss[0], m)
    requires forall i :: 0 <= i < |es| ==> Traffic(g, es[i])
    requires 1 <= ss[0].ticks && (forall i :: 0 <= i < |es| ==> es[i].clk + ss[0].ticks <= CLOCK_MAX)
    requires forall i, j :: 0 <= i <= j < |es| ==> es[i].clk <= es[j].clk
    ensures Paced(ss[n], |ss[0].sent|, if n > 0 then es[n - 1].clk else 0)
    ensures forall i :: |ss[0].sent| <= i < |ss[n].sent| - 1 ==>
                          ss[n].sent[i].clk + ss[0].ticks <= ss[n].sent[i + 1].clk
  {
    hide Apply, Holds;
    HoldsMailbox(g, ss, es, m, n);
    if n > 0 {
      SendsArePaced(g, ss, es, m, n - 1);
      HoldsMailbox(g, ss, es, m, n - 1);
      PacedStep(g, ss[n - 1], es[n - 1], MailboxAfter(m, es[..n - 1]), |ss[0].sent|,
                if n > 1 then es[n - 2].clk else 0);
    }
  }

  // ----------------------------------------- a byte that waits, outside traffic

  predicate Waiting(s: Acia) { s.inTx == DR_WRITTEN }

  /** A byte waits and no alarm will send it. */
  predicate Stuck(s: Acia) { Waiting(s) && s.tx.at.None? }

  predicate Writes(g: Config, e: BusEvent, r: Register) { e.Write? && Select(g.mode, e.addr) == r }

  predicate Posts(g: Config, s: Acia, e: BusEvent) { Writes(g, e, DR) && Has(s.r.cmd, CMD_DTR) }

  /** The byte is given up unsent: a reset of either kind, a write that opens the
      device with transmit interrupts on, or a firing while the device is closed. */
  predicate GivesUp(g: Config, s: Acia, e: BusEvent) {
    || e.HwReset? || Writes(g, e, SR) || (e.TxFire? && !s.wire.open)
    || (Writes(g, e, CMD) && Has(e.byte, CMD_DTR) && !s.wire.open && Transmitter(e.byte) == CMD_TX_WITH_IRQ)
  }

  /** A command write that drops RTS disarms the transmitter if the receiver is
      active, or if the write opens or closes the device. */
  predicate Stops(g: Config, s: Acia, e: BusEvent) {
    && Writes(g, e, CMD) && Transmitter(e.byte) == CMD_NO_RTS
    && (s.rx.active || (if s.wire.open then !Has(e.byte, CMD_DTR) && !g.ip232 else Has(e.byte, CMD_DTR)))
  }

  /** The transmitter is armed again, or nothing waits any more. */
  predicate Frees(g: Config, s: Acia, e: BusEvent) {
    || Posts(g, s, e) || GivesUp(g, s, e) || e.TxFire?
    || (Writes(g, e, CMD) && Transmitter(e.byte) != CMD_NO_RTS)
  }

  lemma CommandWaits(g: Config, s: Acia, clk: CLOCK, byte: bv8, opens: bool)
    ensures Waiting(StoreCMD(g, s, clk, byte, opens))
            <==> Waiting(s) && !(Has(byte, CMD_DTR) && !s.wire.open && Transmitter(byte) == CMD_TX_WITH_IRQ)
  {
    hide Ticks, Later, DataMask, Has, Transmitter;
  }

  lemma LinesDisarm(g: Config, s: Acia, clk: CLOCK)
    requires s.tx.at == if s.tx.active then Some(s.tx.clk) else None
    ensures SetHandshakeLines(g, s, clk).tx.at.None?
            <==> Transmitter(s.r.cmd) == CMD_NO_RTS && (s.rx.active || s.tx.at.None?)
  {
    hide Ticks, Later, DataMask, Has, Transmitter;
  }

  lemma CommandDisarms(g: Config, s: Acia, clk: CLOCK, byte: bv8, opens: bool)
    requires Coupled(g, s)
    ensures StoreCMD(g, s, clk, byte, opens).tx.at.None?
            <==> && Transmitter(byte) == CMD_NO_RTS
                 && (s.tx.at.None? || s.rx.active
                     || (if s.wire.open then !Has(byte, CMD_DTR) && !g.ip232 else Has(byte, CMD_DTR)))
  {
    hide Ticks, Later, DataMask, Has, Transmitter, SetHandshakeLines;
    var t := s.(r := s.r.(cmd := byte));
    if Has(byte, CMD_DTR) && !s.wire.open {
      LinesDisarm(g, OpenDevice(g, t, clk, opens), clk);
    } else if s.wire.open && !Has(byte, CMD_DTR) && !g.ip232 {
      LinesDisarm(g, t.(wire := t.wire.(open := false), tx := Disarmed(t.tx)), clk);
    } else {
      LinesDisarm(g, t, clk);
    }
  }

  lemma ResetFate(g: Config, s: Acia, clk: CLOCK)
    ensures !Waiting(StoreSR(g, s, clk)) && !Waiting(Reset(g, s, clk))
  {
    hide Ticks, Later, DataMask, Has, Transmitter;
  }

  lemma OtherFates(g: Config, s: Acia, clk: CLOCK, byte: bv8, input: Option<bv8>)
    requires Coupled(g, s)
    ensures var t := StoreDR(s, clk, byte);
            && (Waiting(t) <==> Waiting(s) || Has(s.r.cmd, CMD_DTR))
            && (t.tx.at.None? <==> s.tx.at.None? && !Has(s.r.cmd, CMD_DTR))
    ensures StoreCTRL(g, s, clk, byte).inTx == s.inTx && StoreCTRL(g, s, clk, byte).tx == s.tx
    ensures StoreECTRL(g, s, clk, byte).inTx == s.inTx && StoreECTRL(g, s, clk, byte).tx == s.tx
    ensures RxAlarm(g, s, clk, input).inTx == s.inTx && RxAlarm(g, s, clk, input).tx == s.tx
    ensures !Waiting(TxAlarm(g, s, clk))
  {
    hide Ticks, Later, DataMask, Has, Transmitter;
  }

  /** A byte waits after an event if the event posts it, or if one waited that the
      event neither sends nor gives up; and it is stuck if it waits and the event
      stops the transmitter, or if it was stuck and the event does not free it. */
  lemma FateStep(g: Config, s: Acia, e: BusEvent)
    requires Coupled(g, s)
    ensures Waiting(Apply(g, s, e)) <==> Posts(g, s, e) || (Waiting(s) && !e.TxFire? && !GivesUp(g, s, e))
    ensures Stuck(Apply(g, s, e)) <==> (Waiting(s) && Stops(g, s, e)) || (Stuck(s) && !Frees(g, s, e))
  {
    hide StoreDR, StoreSR, StoreCMD, StoreCTRL, StoreECTRL, TxAlarm, RxAlarm, Reset, Transmitter, Has, Coupled,
      ModemStatus, Select;
    match e {
      case Write(clk, addr, byte, opens) =>
        CommandWaits(g, s, clk, byte, opens);
        CommandDisarms(g, s, clk, byte, opens);
        ResetFate(g, s, clk);
        OtherFates(g, s, clk, byte, None);
      case ReadReg(_, addr, dcd, dsr) =>
        assert Read(g, s, addr, dcd, dsr).0.tx == s.tx && Read(g, s, addr, dcd, dsr).0.inTx == s.inTx;
      case TxFire(clk) => OtherFates(g, s, clk, 0, None);
      case RxFire(clk, input) => OtherFates(g, s, clk, 0, input);
      case HwReset(clk) => ResetFate(g, s, clk);
    }
  }

  /** At `i` a waiting byte's transmitter is stopped, and nothing frees it before `n`. */
  ghost predicate StoppedAt(g: Config, ss: seq<Acia>, es: seq<BusEvent>, i: nat, n: nat)
    requires |es| < |ss| && i < n <= |es|
  {
    && Waiting(ss[i]) && Stops(g, ss[i], es[i])
    && forall j :: i < j < n ==> !Frees(g, ss[j], es[j])
  }

  /** Over any run, with any register writes, a byte is stuck exactly if its
      transmitter was stopped (or it was stuck to begin with) and not freed since. */
  lemma StuckIffStopped(g: Config, ss: seq<Acia>, es: seq<BusEvent>, n: nat)
    requires DeviceRun(g, ss, es) && n <= |es| && Coupled(g, ss[0])
    ensures Stuck(ss[n])
            <==> (Stuck(ss[0]) && forall j :: 0 <= j < n ==> !Frees(g, ss[j], es[j]))
                 || exists i :: 0 <= i < n && StoppedAt(g, ss, es, i, n)
  {
    hide Apply, Stuck, Waiting, Stops, Frees, StoppedAt, Since, Coupled;
    var b := seq(|ss|, i requires 0 <= i < |ss| => Stuck(ss[i]));
    var on := seq(|es|, i requires 0 <= i < |es| => Waiting(ss[i]) && Stops(g, ss[i], es[i]));
    var off := seq(|es|, i requires 0 <= i < |es| => Frees(g, ss[i], es[i]));
    forall i | 0 <= i < |es| ensures b[i + 1] <==> on[i] || (b[i] && !off[i]) {
      AlwaysCoupled(g, ss, es, i);
      FateStep(g, ss[i], es[i]);
    }
    OnSince(b, on, off, n);
    forall i | 0 <= i < n ensures Since(on, off, i, n) <==> StoppedAt(g, ss, es, i, n) {
      SinceStopped(g, ss, es, on, off, i, n);
    }
    assert forall j :: 0 <= j < n ==> off[j] == Frees(g, ss[j], es[j]);
  }

  lemma SinceStopped(g: Config, ss: seq<Acia>, es: seq<BusEvent>, on: seq<bool>, off: seq<bool>, i: nat, n: nat)
    requires |es| < |ss| && i < n <= |es| == |on| == |off|
    requires on[i] == (Waiting(ss[i]) && Stops(g, ss[i], es[i]))
    requires forall j :: 0 <= j < n ==> off[j] == Frees(g, ss[j], es[j])
    ensures Since(on, off, i, n) <==> StoppedAt(g, ss, es, i, n)
  {
    hide Waiting, Stops, Frees;
    if Since(on, off, i, n) {
      forall j | i < j < n ensures !Frees(g, ss[j], es[j]) { assert !off[j]; }
    }
  }

  // ------------------------------------------------------------------- receive

  predicate Full(s: Acia) { s.r.status & SR_RECEIVE_FULL != 0 }
  predicate Overrun(s: Acia) { s.r.status & SR_OVERRUN != 0 }

  /** A byte is taken from the driver. */
  predicate Takes(s: Acia, e: BusEvent) {
    e.RxFire? && s.wire.open && e.input.Some?
  }

  predicate ReadsDR(g: Config, e: BusEvent) {
    e.ReadReg? && Select(g.mode, e.addr) == DR
  }

  predicate ProgrammedReset(g: Config, e: BusEvent) {
    e.Write? && Select(g.mode, e.addr) == SR
  }

  /** A byte taken is latched into an empty register, masked to the word length,
      or discarded with OVERRUN set and the latched byte untouched. */
  lemma TakenByte(g: Config, s: Acia, e: BusEvent)
    requires Coupled(g, s) && Takes(s, e)
    ensures var t := Apply(g, s, e);
            && Full(t)
            && (!Full(s) ==> t.r.rxdata == e.input.value & DataMask(s.r.ctrl) && Overrun(t) == Overrun(s))
            && (Full(s) ==> t.r.rxdata == s.r.rxdata && Overrun(t))
  {
  }

  lemma HandshakeRegs(g: Config, s: Acia, clk: CLOCK)
    ensures var q := SetHandshakeLines(g, s, clk).r; q.rxdata == s.r.rxdata && q.status == s.r.status
  {
    assert SetHandshakeLines(g, s, clk).r ==
      if Transmitter(s.r.cmd) == CMD_NO_RTS || s.rx.active then s.r else s.r.(datamask := DataMask(s.r.ctrl));
    hide SetHandshakeLines;
  }

  lemma StoreCMDFrame(g: Config, s: Acia, clk: CLOCK, byte: bv8, opens: bool)
    ensures var q := StoreCMD(g, s, clk, byte, opens).r; q.rxdata == s.r.rxdata && q.status == s.r.status
  {
    hide Ticks, Later, DataMask, Transmitter, SetHandshakeLines;
    var t := s.(r := s.r.(cmd := byte));
    if byte & CMD_DTR != 0 && !s.wire.open {
      assert OpenDevice(g, t, clk, opens).r == t.r.(datamask := DataMask(s.r.ctrl));
      HandshakeRegs(g, OpenDevice(g, t, clk, opens), clk);
    } else if s.wire.open && byte & CMD_DTR == 0 && !g.ip232 {
      HandshakeRegs(g, t.(wire := t.wire.(open := false), tx := Disarmed(t.tx)), clk);
    } else {
      HandshakeRegs(g, t, clk);
    }
  }

  lemma StoreSRFrame(g: Config, s: Acia, clk: CLOCK)
    ensures StoreSR(g, s, clk).r == s.r.(status := s.r.status & !SR_OVERRUN,
                                         cmd := s.r.cmd & (CMD_PARITY_TYPE | CMD_PARITY_ENABLED))
  {
    assert Transmitter(s.r.cmd & (CMD_PARITY_TYPE | CMD_PARITY_ENABLED)) == CMD_NO_RTS;
    hide Ticks, Later, DataMask, Transmitter;
  }

  lemma StatusBits(g: Config, status: bv8, dcd: bool, dsr: bool)
    ensures status & !SR_TRANSMIT_EMPTY & SR_RECEIVE_FULL == status & SR_RECEIVE_FULL
    ensures status & !SR_TRANSMIT_EMPTY & SR_OVERRUN == status & SR_OVERRUN
    ensures (status | SR_TRANSMIT_EMPTY) & SR_RECEIVE_FULL == status & SR_RECEIVE_FULL
    ensures (status | SR_TRANSMIT_EMPTY) & SR_OVERRUN == status & SR_OVERRUN
    ensures status & !SR_OVERRUN & SR_RECEIVE_FULL == status & SR_RECEIVE_FULL
    ensures status & !SR_OVERRUN & SR_OVERRUN == 0
    ensures ModemStatus(g, status, dcd, dsr) & SR_RECEIVE_FULL == status & SR_RECEIVE_FULL
    ensures ModemStatus(g, status, dcd, dsr) & SR_OVERRUN == status & SR_OVERRUN
    ensures ModemStatus(g, status, dcd, dsr) & SR_TRANSMIT_EMPTY == status & SR_TRANSMIT_EMPTY
  {
  }

  /** `t` has latched what `s` has; OVERRUN may have been cleared. */
  ghost predicate SameReceiver(s: Acia, t: Acia, cleared: bool) {
    Full(t) == Full(s) && t.r.rxdata == s.r.rxdata && Overrun(t) == (Overrun(s) && !cleared)
  }

  lemma WriteFrame(g: Config, s: Acia, clk: CLOCK, addr: bv16, byte: bv8, opens: bool)
    ensures SameReceiver(s, Store(g, s, clk, addr, byte, opens), Select(g.mode, addr) == SR)
  {
    hide StoreDR, StoreSR, StoreCMD, StoreCTRL, StoreECTRL, SameReceiver, Select;
    SilentWrites(g, s, clk, byte, opens);
    StatusWrite(g, s, clk);
  }

  lemma StatusWrite(g: Config, s: Acia, clk: CLOCK)
    ensures SameReceiver(s, StoreSR(g, s, clk), true)
  {
    hide StoreSR;
    StatusBits(g, s.r.status, false, false);
    StoreSRFrame(g, s, clk);
  }

  lemma SilentWrites(g: Config, s: Acia, clk: CLOCK, byte: bv8, opens: bool)
    ensures SameReceiver(s, s, false)
    ensures SameReceiver(s, StoreDR(s, clk, byte), false)
    ensures SameReceiver(s, StoreCMD(g, s, clk, byte, opens), false)
    ensures SameReceiver(s, StoreCTRL(g, s, clk, byte), false)
    ensures SameReceiver(s, StoreECTRL(g, s, clk, byte), false)
  {
    hide StoreCMD, DataMask, Ticks, Later;
    StatusBits(g, s.r.status, false, false);
    StoreCMDFrame(g, s, clk, byte, opens);
    assert StoreDR(s, clk, byte).r == if s.r.cmd & CMD_DTR == 0 then s.r.(txdata := byte)
                                      else s.r.(txdata := byte, status := s.r.status & !SR_TRANSMIT_EMPTY);
    assert StoreCTRL(g, s, clk, byte).r == s.r.(ctrl := byte, datamask := DataMask(byte));
    assert StoreECTRL(g, s, clk, byte).r ==
      if s.r.ctrl & CTRL_BPS == 0 then s.r.(ectrl := byte, datamask := DataMask(s.r.ctrl)) else s.r;
  }

  lemma TxFrame(g: Config, s: Acia, clk: CLOCK)
    ensures SameReceiver(s, TxAlarm(g, s, clk), false)
  {
    StatusBits(g, s.r.status, false, false);
    assert TxAlarm(g, s, clk).r ==
      if s.inTx == DR_WRITTEN && s.wire.open then s.r.(status := s.r.status | SR_TRANSMIT_EMPTY) else s.r;
  }

  /** Nothing but a data register read or a byte taken changes what is latched,
      and nothing but those and a programmed reset changes OVERRUN. */
  lemma ReceiverFrame(g: Config, s: Acia, e: BusEvent)
    requires !Takes(s, e) && !ReadsDR(g, e) && !e.HwReset?
    ensures SameReceiver(s, Apply(g, s, e), ProgrammedReset(g, e))
  {
    match e {
      case Write(clk, addr, byte, opens) => WriteFrame(g, s, clk, addr, byte, opens);
      case ReadReg(_, addr, dcd, dsr) => ReadFrame(g, s, addr, dcd, dsr);
      case TxFire(clk) => TxFrame(g, s, clk);
      case RxFire(clk, input) => assert RxAlarm(g, s, clk, input).r == s.r;
    }
    hide Store, Read, TxAlarm, RxAlarm, Select;
    assert SameReceiver(s, Apply(g, s, e), ProgrammedReset(g, e));
  }

  lemma DRReadEmpties(g: Config, s: Acia, e: BusEvent)
    requires ReadsDR(g, e)
    ensures var t := Apply(g, s, e);
            !Full(t) && !Overrun(t) && Read(g, s, e.addr, e.dcd, e.dsr).1 == s.r.rxdata
  {
  }

  /** The byte taken at `d` was discarded and no programmed reset has hidden that before `hi`. */
  ghost predicate Lost(g: Config, ss: seq<Acia>, es: seq<BusEvent>, d: nat, hi: nat)
    requires |es| < |ss| && d < hi <= |es|
  {
    Takes(ss[d], es[d]) && Full(ss[d]) && forall r :: d < r < hi ==> !ProgrammedReset(g, es[r])
  }

  /** What is latched before `hi` is the byte taken at `i`, masked as it was then. */
  ghost predicate Latched(ss: seq<Acia>, es: seq<BusEvent>, i: nat, hi: nat)
    requires |es| < |ss| && i < hi <= |es|
  {
    Takes(ss[i], es[i]) && ss[hi].r.rxdata == es[i].input.value & DataMask(ss[i].r.ctrl)
  }

  /** One more event: a programmed reset hides every loss, a byte taken while full is one. */
  lemma LostStep(g: Config, ss: seq<Acia>, es: seq<BusEvent>, lo: nat, hi: nat)
    requires |es| < |ss| && lo + 1 < hi <= |es|
    ensures forall d :: lo < d < hi - 1 ==>
              (Lost(g, ss, es, d, hi) <==> Lost(g, ss, es, d, hi - 1) && !ProgrammedReset(g, es[hi - 1]))
    ensures Lost(g, ss, es, hi - 1, hi) <==> Takes(ss[hi - 1], es[hi - 1]) && Full(ss[hi - 1])
    ensures Takes(ss[hi - 1], es[hi - 1]) ==> !ProgrammedReset(g, es[hi - 1])
  {
    forall d | lo < d < hi - 1
      ensures Lost(g, ss, es, d, hi) <==> Lost(g, ss, es, d, hi - 1) && !ProgrammedReset(g, es[hi - 1])
    {
      assert Lost(g, ss, es, d, hi) ==> !ProgrammedReset(g, es[hi - 1]);
    }
  }

  /** Since the data register was read at `lo`: it is full exactly when a byte has
      been taken, it holds the first one taken, masked to the word length of that
      moment, and OVERRUN is set exactly when a later byte was discarded and no
      programmed reset came after.  (`first`, `gone`: -1 when there is none.) */
  lemma {:induction false} FirstByteIsKept(g: Config, ss: seq<Acia>, es: seq<BusEvent>, lo: nat, hi: nat)
    returns (first: int, gone: int)
    requires DeviceRun(g, ss, es) && Coupled(g, ss[0]) && lo < hi <= |es|
    requires ReadsDR(g, es[lo])
    requires forall i :: lo < i < hi ==> !ReadsDR(g, es[i]) && !es[i].HwReset?
    ensures Full(ss[hi]) <==> first >= 0
    ensures if first >= 0 then
              && lo < first < hi && Latched(ss, es, first, hi)
              && (forall i :: lo < i < first ==> !Takes(ss[i], es[i]))
            else forall i :: lo < i < hi ==> !Takes(ss[i], es[i])
    ensures Overrun(ss[hi]) <==> gone >= 0
    ensures if gone >= 0 then lo < gone < hi && Lost(g, ss, es, gone, hi)
            else forall d :: lo < d < hi ==> !Lost(g, ss, es, d, hi)
    decreases hi
  {
    hide Apply, Coupled, DataMask, Lost, Full, Overrun, ProgrammedReset, ReadsDR;
    if hi == lo + 1 {
      DRReadEmpties(g, ss[lo], es[lo]);
      first, gone := -1, -1;
    } else {
      var n := hi - 1;
      first, gone := FirstByteIsKept(g, ss, es, lo, n);
      var s, e := ss[n], es[n];
      AlwaysCoupled(g, ss, es, n);
      LostStep(g, ss, es, lo, hi);
      if Takes(s, e) {
        TakenByte(g, s, e);
        if first < 0 {
          first := n;
        }
        assert Latched(ss, es, first, hi);
        if Full(s) {
          gone := n;
        }
      } else {
        ReceiverFrame(g, s, e);
        assert first >= 0 ==> Latched(ss, es, first, hi);
        gone := if ProgrammedReset(g, e) then -1 else gone;
      }
    }
  }
}
