/** What the ACIA promises over whole runs of register accesses and alarm firings. */
module AciaRuns {
  import opened AlarmModel
  import opened AciaModel

  datatype BusEvent =
    | Write(clk: CLOCK, addr: bv16, byte: bv8, opens: bool)
    | ReadReg(clk: CLOCK, addr: bv16, dcd: bool, dsr: bool)
    | TxFire(clk: CLOCK)
    | RxFire(clk: CLOCK, input: Option<bv8>)
    | HwReset(clk: CLOCK)

  function Apply(g: Config, s: Acia, e: BusEvent): Acia {
    match e
    case Write(clk, addr, byte, opens) => Store(g, s, clk, addr, byte, opens)
    case ReadReg(_, addr, dcd, dsr) => Read(g, s, addr, dcd, dsr).0
    case TxFire(clk) => TxAlarm(g, s, clk)
    case RxFire(clk, input) => RxAlarm(g, s, clk, input)
    case HwReset(clk) => Reset(g, s, clk)
  }

  /** An alarm fires only when the scheduler holds it and its time has come. */
  predicate Enabled(s: Acia, e: BusEvent) {
    match e
    case TxFire(clk) => s.tx.at.Some? && s.tx.at.value <= clk
    case RxFire(clk, _) => s.rx.at.Some? && s.rx.at.value <= clk
    case _ => true
  }

  /** `ss` are the states before, between and after the events. */
  ghost predicate DeviceRun(g: Config, ss: seq<Acia>, es: seq<BusEvent>) {
    && |ss| == |es| + 1
    && (forall i :: 0 <= i < |es| ==> Enabled(ss[i], es[i]) && ss[i + 1] == Apply(g, ss[i], es[i]))
  }

  // ------------------------------------------------------------------ coupling

  /** The device's own notes agree with the scheduler and the CPU. */
  ghost predicate Coupled(g: Config, s: Acia) {
    && s.tx.at == (if s.tx.active then Some(s.tx.clk) else None)
    && (s.rx.active ==> s.rx.at == Some(s.rx.clk))
    && s.int_.line == (g.interrupts && s.int_.flag)
    && s.r.datamask == DataMask(s.r.ctrl)
    && s.inTx <= DR_WRITTEN
  }

  lemma HandshakeKeepsCoupled(g: Config, s: Acia, clk: CLOCK)
    requires Coupled(g, s)
    ensures Coupled(g, SetHandshakeLines(g, s, clk))
  {
    hide Ticks, Later, DataMask;
  }

  lemma StoreCMDKeepsCoupled(g: Config, s: Acia, clk: CLOCK, byte: bv8, opens: bool)
    requires Coupled(g, s)
    ensures Coupled(g, StoreCMD(g, s, clk, byte, opens))
  {
    hide Ticks, Later, DataMask, SetHandshakeLines;
    var t := s.(r := s.r.(cmd := byte));
    if byte & CMD_DTR != 0 && !s.wire.open {
      HandshakeKeepsCoupled(g, OpenDevice(g, t, clk, opens), clk);
    } else if s.wire.open && byte & CMD_DTR == 0 && !g.ip232 {
      HandshakeKeepsCoupled(g, t.(wire := t.wire.(open := false), tx := Disarmed(t.tx)), clk);
    } else {
      HandshakeKeepsCoupled(g, t, clk);
    }
  }

  lemma StoreSRKeepsCoupled(g: Config, s: Acia, clk: CLOCK)
    requires Coupled(g, s)
    ensures Coupled(g, StoreSR(g, s, clk))
  {
    hide Ticks, Later, DataMask, SetHandshakeLines;
    var t := s.(r := s.r.(status := s.r.status & !SR_OVERRUN,
                          cmd := s.r.cmd & (CMD_PARITY_TYPE | CMD_PARITY_ENABLED)),
                wire := s.wire.(open := s.wire.open && g.ip232),
                inTx := NO_TRANSMIT, int_ := SetInt(g, s.int_, false), tx := Disarmed(s.tx));
    HandshakeKeepsCoupled(g, t, clk);
    assert StoreSR(g, s, clk) == SetHandshakeLines(g, t, clk);
  }

  lemma StoreOthersKeepCoupled(g: Config, s: Acia, clk: CLOCK, byte: bv8)
    requires Coupled(g, s)
    ensures Coupled(g, StoreDR(s, clk, byte))
    ensures Coupled(g, StoreCTRL(g, s, clk, byte))
    ensures Coupled(g, StoreECTRL(g, s, clk, byte))
  {
    hide Ticks, Later, DataMask;
  }

  lemma AlarmsKeepCoupled(g: Config, s: Acia, clk: CLOCK, input: Option<bv8>)
    requires Coupled(g, s)
    ensures Coupled(g, TxAlarm(g, s, clk))
    ensures Coupled(g, RxAlarm(g, s, clk, input))
  {
    hide Later, DataMask;
  }

  lemma ReadKeepsCoupled(g: Config, s: Acia, addr: bv16, dcd: bool, dsr: bool)
    requires Coupled(g, s)
    ensures Coupled(g, Read(g, s, addr, dcd, dsr).0)
  {
    hide ModemStatus, DataMask;
  }

  lemma StoreKeepsCoupled(g: Config, s: Acia, clk: CLOCK, addr: bv16, byte: bv8, opens: bool)
    requires Coupled(g, s)
    ensures Coupled(g, Store(g, s, clk, addr, byte, opens))
  {
    hide StoreSR, StoreCMD, StoreDR, StoreCTRL, StoreECTRL, Coupled, Select;
    StoreSRKeepsCoupled(g, s, clk);
    StoreCMDKeepsCoupled(g, s, clk, byte, opens);
    StoreOthersKeepCoupled(g, s, clk, byte);
  }

  lemma ApplyKeepsCoupled(g: Config, s: Acia, e: BusEvent)
    requires Coupled(g, s)
    ensures Coupled(g, Apply(g, s, e))
  {
    hide Store, Read, TxAlarm, RxAlarm, Reset;
    match e {
      case Write(clk, addr, byte, opens) => StoreKeepsCoupled(g, s, clk, addr, byte, opens);
      case ReadReg(_, addr, dcd, dsr) => ReadKeepsCoupled(g, s, addr, dcd, dsr);
      case TxFire(clk) => AlarmsKeepCoupled(g, s, clk, None);
      case RxFire(clk, input) => AlarmsKeepCoupled(g, s, clk, input);
      case HwReset(clk) => ResetCouples(g, s, clk);
    }
  }

  /** The coupling holds at every point of every run. */
  lemma {:induction false} AlwaysCoupled(g: Config, ss: seq<Acia>, es: seq<BusEvent>, n: nat)
    requires DeviceRun(g, ss, es) && n <= |es| && Coupled(g, ss[0])
    ensures Coupled(g, ss[n])
  {
    if n > 0 {
      AlwaysCoupled(g, ss, es, n - 1);
      ApplyKeepsCoupled(g, ss[n - 1], es[n - 1]);
    }
  }

  /** A hardware reset establishes the coupling from anywhere, except that a device
      without interrupts cannot take back a line it never raised. */
  lemma ResetCouples(g: Config, s: Acia, clk: CLOCK)
    ensures Coupled(g, Reset(g, s, clk)) <==> g.interrupts || !s.int_.line
  {
  }

  // --------------------------------------------------------- what lasts in a run

  /** Switched on at `i` and not off again before `n`. */
  ghost predicate Since(on: seq<bool>, off: seq<bool>, i: nat, n: nat)
    requires i < n <= |on| == |off|
  {
    on[i] && forall j :: i < j < n ==> !off[j]
  }

  /** What some events switch on and others off is on exactly if it was switched on,
      or on from the start, and not off since. */
  lemma {:induction false} OnSince(b: seq<bool>, on: seq<bool>, off: seq<bool>, n: nat)
    requires |b| == |on| + 1 && |on| == |off| && n <= |on|
    requires forall i :: 0 <= i < |on| ==> (b[i + 1] <==> on[i] || (b[i] && !off[i]))
    ensures b[n] <==> (b[0] && forall j :: 0 <= j < n ==> !off[j]) || exists i :: 0 <= i < n && Since(on, off, i, n)
  {
    if n > 0 {
      var k := n - 1;
      OnSince(b, on, off, k);
      assert b[k + 1] <==> on[k] || (b[k] && !off[k]);
      if on[k] {
        assert Since(on, off, k, n);
      } else if off[k] {
        assert forall i :: 0 <= i < n && Since(on, off, i, n) ==> i == k || !off[k];
      } else {
        assert forall i :: 0 <= i < k ==> (Since(on, off, i, k) <==> Since(on, off, i, n));
      }
    }
  }

  // ------------------------------------- where the receiver's converse fails

  /** The receive alarm is pending although the receiver is not active. */
  predicate Stale(s: Acia) { !s.rx.active && s.rx.at.Some? }

  /** A write that drops RTS strands the alarm of an active receiver, or of one that
      the same write starts by opening the device. */
  predicate StrandsReceiver(g: Config, s: Acia, e: BusEvent) {
    e.Write? && match Select(g.mode, e.addr)
                case SR => s.rx.active
                case CMD =>
                  && Transmitter(e.byte) == CMD_NO_RTS
                  && (s.rx.active || (Has(e.byte, CMD_DTR) && !s.wire.open))
                case _ => false
  }

  /** The next receive firing, a reset, or a write that raises RTS again. */
  predicate RecoversReceiver(g: Config, e: BusEvent) {
    || e.RxFire? || e.HwReset?
    || (e.Write? && Select(g.mode, e.addr) == CMD && Transmitter(e.byte) != CMD_NO_RTS)
  }

  lemma StaleLines(g: Config, s: Acia, clk: CLOCK)
    requires s.rx.active ==> s.rx.at.Some?
    ensures Stale(SetHandshakeLines(g, s, clk)) <==> Transmitter(s.r.cmd) == CMD_NO_RTS && s.rx.at.Some?
  {
    hide Ticks, Later, DataMask, Has, Transmitter;
  }

  lemma StaleStoreCMD(g: Config, s: Acia, clk: CLOCK, byte: bv8, opens: bool)
    requires Coupled(g, s)
    ensures Stale(StoreCMD(g, s, clk, byte, opens))
            <==> Transmitter(byte) == CMD_NO_RTS
                 && (Stale(s) || s.rx.active || (Has(byte, CMD_DTR) && !s.wire.open))
  {
    hide Ticks, Later, DataMask, Has, Transmitter, SetHandshakeLines;
    var t := s.(r := s.r.(cmd := byte));
    if Has(byte, CMD_DTR) && !s.wire.open {
      StaleLines(g, OpenDevice(g, t, clk, opens), clk);
    } else if s.wire.open && !Has(byte, CMD_DTR) && !g.ip232 {
      StaleLines(g, t.(wire := t.wire.(open := false), tx := Disarmed(t.tx)), clk);
    } else {
      StaleLines(g, t, clk);
    }
  }

  lemma StaleStoreSR(g: Config, s: Acia, clk: CLOCK)
    requires Coupled(g, s)
    ensures Stale(StoreSR(g, s, clk)) <==> Stale(s) || s.rx.active
  {
    assert Transmitter(Keep(s.r.cmd, CMD_PARITY_TYPE | CMD_PARITY_ENABLED)) == CMD_NO_RTS;
    hide Ticks, Later, DataMask, Transmitter;
  }

  lemma StaleOthers(g: Config, s: Acia, clk: CLOCK, byte: bv8, input: Option<bv8>)
    ensures Stale(StoreDR(s, clk, byte)) == Stale(s)
    ensures Stale(StoreCTRL(g, s, clk, byte)) == Stale(s)
    ensures Stale(StoreECTRL(g, s, clk, byte)) == Stale(s)
    ensures Stale(TxAlarm(g, s, clk)) == Stale(s)
    ensures !Stale(RxAlarm(g, s, clk, input)) && !Stale(Reset(g, s, clk))
  {
    hide Ticks, Later, DataMask, Has;
  }

  /** One event strands the alarm, or leaves it stranded unless it recovers it. */
  lemma StaleStep(g: Config, s: Acia, e: BusEvent)
    requires Coupled(g, s)
    ensures Stale(Apply(g, s, e)) <==> StrandsReceiver(g, s, e) || (Stale(s) && !RecoversReceiver(g, e))
  {
    hide StoreDR, StoreSR, StoreCMD, StoreCTRL, StoreECTRL, TxAlarm, RxAlarm, Reset, Transmitter, Has, Coupled,
      ModemStatus, Select;
    match e {
      case Write(clk, addr, byte, opens) =>
        StaleStoreCMD(g, s, clk, byte, opens);
        StaleStoreSR(g, s, clk);
        StaleOthers(g, s, clk, byte, None);
      case ReadReg(_, addr, dcd, dsr) => assert Read(g, s, addr, dcd, dsr).0.rx == s.rx;
      case TxFire(clk) => StaleOthers(g, s, clk, 0, None);
      case RxFire(clk, input) => StaleOthers(g, s, clk, 0, input);
      case HwReset(clk) => StaleOthers(g, s, clk, 0, None);
    }
  }

  /** Event `i` strands the receive alarm and nothing recovers it before `n`. */
  ghost predicate StrandedAt(g: Config, ss: seq<Acia>, es: seq<BusEvent>, i: nat, n: nat)
    requires |es| < |ss| && i < n <= |es|
  {
    StrandsReceiver(g, ss[i], es[i]) && forall j :: i < j < n ==> !RecoversReceiver(g, es[j])
  }

  /** Over any run the receive alarm is pending exactly when the receiver is active,
      unless an earlier event stranded the alarm (or it was stranded to begin with)
      and nothing has recovered it since. */
  lemma ConverseIffNotStranded(g: Config, ss: seq<Acia>, es: seq<BusEvent>, n: nat)
    requires DeviceRun(g, ss, es) && n <= |es| && Coupled(g, ss[0])
    ensures (ss[n].rx.active <==> ss[n].rx.at.Some?)
            <==> !(Stale(ss[0]) && forall j :: 0 <= j < n ==> !RecoversReceiver(g, es[j]))
                 && !exists i :: 0 <= i < n && StrandedAt(g, ss, es, i, n)
  {
    hide Apply, StrandsReceiver, RecoversReceiver, StrandedAt, Since, Coupled;
    AlwaysCoupled(g, ss, es, n);
    var b := seq(|ss|, i requires 0 <= i < |ss| => Stale(ss[i]));
    var on := seq(|es|, i requires 0 <= i < |es| => StrandsReceiver(g, ss[i], es[i]));
    var off := seq(|es|, i requires 0 <= i < |es| => RecoversReceiver(g, es[i]));
    forall i | 0 <= i < |es| ensures b[i + 1] <==> on[i] || (b[i] && !off[i]) {
      AlwaysCoupled(g, ss, es, i);
      StaleStep(g, ss[i], es[i]);
    }
    OnSince(b, on, off, n);
    forall i | 0 <= i < n ensures Since(on, off, i, n) <==> StrandedAt(g, ss, es, i, n) {
      SinceStranded(g, ss, es, on, off, i, n);
    }
    assert forall j :: 0 <= j < n ==> off[j] == RecoversReceiver(g, es[j]);
    assert ss[n].rx.active ==> ss[n].rx.at.Some? by { CoupledReceiver(g, ss[n]); }
  }

  lemma CoupledReceiver(g: Config, s: Acia)
    requires Coupled(g, s)
    ensures s.rx.active ==> s.rx.at.Some?
  {
  }

  lemma SinceStranded(g: Config, ss: seq<Acia>, es: seq<BusEvent>, on: seq<bool>, off: seq<bool>, i: nat, n: nat)
    requires |es| < |ss| && i < n <= |es| == |on| == |off| && on[i] == StrandsReceiver(g, ss[i], es[i])
    requires forall j :: 0 <= j < n ==> off[j] == RecoversReceiver(g, es[j])
    ensures Since(on, off, i, n) <==> StrandedAt(g, ss, es, i, n)
  {
    hide StrandsReceiver, RecoversReceiver;
    if Since(on, off, i, n) {
      forall j | i < j < n ensures !RecoversReceiver(g, es[j]) { assert !off[j]; }
    }
  }

  /** A stranded alarm stays pending for one more firing, which then cancels it. */
  lemma ReceiverOutlivesRts(g: Config, s: Acia, e: BusEvent, later: CLOCK, input: Option<bv8>)
    requires Coupled(g, s) && StrandsReceiver(g, s, e)
    ensures var t := Apply(g, s, e);
            && !t.rx.active && t.rx.at.Some?
            && RxAlarm(g, t, later, input).rx.at == None
  {
    StaleStep(g, s, e);
    hide Apply, Coupled, Has;
  }

  // --------------------------------------------------------- callback contract

  /** At any setting one character takes at least one clock tick exactly when the
      machine runs through as many cycles in a character as the line does bits. */
  lemma TicksPositiveAt(g: Config, ctrl: bv8, ectrl: bv8, cmd: bv8)
    ensures Ticks(g, ctrl, ectrl, cmd) >= 1
            <==> g.cyclesPerSecond * BitTimes(ctrl, cmd) as real >= Bps(g.mode, ctrl, ectrl)
  {
    hide Bps, BitTimes;
    AtLeastOne(g.cyclesPerSecond, Bps(g.mode, ctrl, ectrl), BitTimes(ctrl, cmd) as real);
  }

  lemma AtLeastOne(c: real, bps: real, bits: real)
    requires bps > 0.0
    ensures (c / bps * bits).Floor >= 1 <==> c * bits >= bps
  {
    var q := c / bps;
    Factors(c, q, bps, bits);
    Scaled(q * bits, bps);
  }

  lemma Factors(c: real, q: real, bps: real, bits: real)
    requires bps > 0.0 && q == c / bps
    ensures q * bits * bps == c * bits
  {
    assert q * bps == c;
  }

  lemma Scaled(x: real, bps: real)
    requires bps > 0.0
    ensures x * bps >= bps <==> x >= 1.0
  {
    if x >= 1.0 {
      assert (x - 1.0) * bps >= 0.0;
    } else {
      assert (1.0 - x) * bps > 0.0;
    }
  }

  /** The highest speed a mode can be set to. */
  function Fastest(mode: Mode): real {
    match mode
    case Normal => 19200.0
    case SwiftLink => 38400.0
    case Turbo232 => 230400.0
  }

  /** So it does at every setting of a mode exactly when the machine is fast enough
      for seven bits at its highest speed: 19200/7, 38400/7 or 230400/7. */
  lemma TicksPositive(g: Config)
    ensures (forall ctrl, ectrl, cmd :: Ticks(g, ctrl, ectrl, cmd) >= 1)
            <==> g.cyclesPerSecond >= Fastest(g.mode) / 7.0
  {
    var c, fastest := g.cyclesPerSecond, Fastest(g.mode);
    if c >= fastest / 7.0 {
      forall ctrl, ectrl, cmd ensures Ticks(g, ctrl, ectrl, cmd) >= 1 {
        EnoughForAll(g, ctrl, ectrl, cmd);
      }
    } else {
      TicksPositiveAt(g, FastestSetting(g.mode), 0, 0);
      FastestIsReached(g.mode);
      hide Ticks, Bps, BitTimes, Fastest, FastestSetting;
    }
  }

  /** The top speed with five data bits. */
  function FastestSetting(mode: Mode): bv8 { if mode == Turbo232 then 0x60 else 0x6f }

  lemma FastestIsReached(mode: Mode)
    ensures Bps(mode, FastestSetting(mode), 0) == Fastest(mode) && BitTimes(FastestSetting(mode), 0) == 7
  {
  }

  lemma EnoughForAll(g: Config, ctrl: bv8, ectrl: bv8, cmd: bv8)
    requires g.cyclesPerSecond >= Fastest(g.mode) / 7.0
    ensures Ticks(g, ctrl, ectrl, cmd) >= 1
  {
    TicksPositiveAt(g, ctrl, ectrl, cmd);
    NotFaster(g.mode, ctrl, ectrl);
    Enough(g.cyclesPerSecond, Fastest(g.mode), BitTimes(ctrl, cmd) as real);
    hide Ticks, Bps, BitTimes, Fastest;
  }

  lemma NotFaster(mode: Mode, ctrl: bv8, ectrl: bv8)
    ensures Bps(mode, ctrl, ectrl) <= Fastest(mode)
  {
    hide Rate;
  }

  lemma Enough(c: real, fastest: real, bits: real)
    requires c >= fastest / 7.0 && fastest > 0.0 && bits >= 7.0
    ensures c * bits >= fastest
  {
    assert (bits - 7.0) * c >= 0.0;
  }

  /** The speed that suffices for a Turbo232 suffices in every mode. */
  lemma TicksAtLeastOne(g: Config, ctrl: bv8, ectrl: bv8, cmd: bv8)
    requires g.cyclesPerSecond >= 230400.0 / 7.0
    ensures Ticks(g, ctrl, ectrl, cmd) >= 1
  {
    EnoughForAll(g, ctrl, ectrl, cmd);
    hide Ticks;
  }

  /** The character time in use is the old one or that of the current registers. */
  lemma TicksFromRegisters(g: Config, s: Acia, e: BusEvent)
    ensures var t := Apply(g, s, e);
            t.ticks == s.ticks || t.ticks == Ticks(g, t.r.ctrl, t.r.ectrl, t.r.cmd)
  {
    hide Ticks, Later, DataMask, ModemStatus, SetHandshakeLines, OpenDevice, StoreCMD, StoreSR;
  }

  /** Over any run of a fast enough machine the character time stays positive. */
  lemma {:induction false} TicksStayPositive(g: Config, ss: seq<Acia>, es: seq<BusEvent>, n: nat)
    requires DeviceRun(g, ss, es) && n <= |es|
    requires g.cyclesPerSecond >= 230400.0 / 7.0 && ss[0].ticks >= 1
    ensures ss[n].ticks >= 1
  {
    if n > 0 {
      TicksStayPositive(g, ss, es, n - 1);
      TicksFromRegisters(g, ss[n - 1], es[n - 1]);
      TicksAtLeastOne(g, ss[n].r.ctrl, ss[n].r.ectrl, ss[n].r.cmd);
      hide Apply, Ticks;
    }
  }

  /** Each callback cancels its own alarm or moves it past the clock, and leaves
      the other one and the time of a character alone. */
  lemma CallbacksKeepContract(g: Config, s: Acia, clk: CLOCK, input: Option<bv8>)
    requires s.ticks >= 1 && clk + s.ticks <= CLOCK_MAX
    ensures var t := TxAlarm(g, s, clk);
            t.rx.at == s.rx.at && t.ticks == s.ticks && (t.tx.at.Some? ==> clk < t.tx.at.value)
    ensures var t := RxAlarm(g, s, clk, input);
            t.tx.at == s.tx.at && t.ticks == s.ticks && (t.rx.at.Some? ==> clk < t.rx.at.value)
  {
  }
}
