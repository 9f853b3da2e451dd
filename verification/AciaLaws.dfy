/**
 What the ACIA does, said in the terms of its data sheet: register addresses, bits,
 character times, and when it interrupts, over single events and over whole runs.
 */
module AciaLaws {
  import opened AlarmModel
  import opened AciaModel
  import opened AciaRuns
  import opened AciaTraffic

  // ----------------------------------------- what a command write leaves alone

  lemma LinesFrame(g: Config, s: Acia, clk: CLOCK)
    ensures var t := SetHandshakeLines(g, s, clk);
            && t.r == s.r.(datamask := t.r.datamask) && t.int_ == s.int_ && t.sent == s.sent && t.inTx == s.inTx
            && t.wire.open == s.wire.open
  {
    hide Ticks, Later, DataMask, Has, Transmitter;
    var t := SetHandshakeLines(g, s, clk);
    assert t.r == if Transmitter(s.r.cmd) == CMD_NO_RTS || s.rx.active then s.r
                  else s.r.(datamask := DataMask(s.r.ctrl));
    assert t.int_ == s.int_ && t.sent == s.sent && t.inTx == s.inTx && t.wire.open == s.wire.open;
    hide SetHandshakeLines;
  }

  lemma OpenFrame(g: Config, s: Acia, clk: CLOCK, opens: bool)
    ensures var t := OpenDevice(g, s, clk, opens);
            && t.r == s.r.(datamask := t.r.datamask) && t.int_ == s.int_ && t.sent == s.sent
  {
    hide Ticks, Later, DataMask, Has, Transmitter;
  }

  /** Only the command, the character time, the transmitter, the receiver and the wire. */
  lemma CommandFrame(g: Config, s: Acia, clk: CLOCK, byte: bv8, opens: bool)
    ensures var t := StoreCMD(g, s, clk, byte, opens);
            t.r == s.r.(cmd := byte, datamask := t.r.datamask) && t.int_ == s.int_ && t.sent == s.sent
  {
    hide Ticks, Later, DataMask, Has, Transmitter, SetHandshakeLines, OpenDevice;
    var t := s.(r := s.r.(cmd := byte));
    if Has(byte, CMD_DTR) && !s.wire.open {
      OpenFrame(g, t, clk, opens);
      LinesFrame(g, OpenDevice(g, t, clk, opens), clk);
    } else if s.wire.open && !Has(byte, CMD_DTR) && !g.ip232 {
      LinesFrame(g, t.(wire := t.wire.(open := false), tx := Disarmed(t.tx)), clk);
    } else {
      LinesFrame(g, t, clk);
    }
  }

  // ---------------------------------------------------------------- interrupts

  /** A byte taken with receive interrupts on, or a transmit firing with transmit
      interrupts on, whether it sends or not. */
  predicate Raises(s: Acia, e: BusEvent) {
    || (Takes(s, e) && s.r.cmd & 0x02 == 0)
    || (e.TxFire? && s.r.cmd & 0x0c == 0x04)
  }

  /** A status read, a programmed reset or a hardware reset. */
  predicate Lowers(g: Config, e: BusEvent) {
    || e.HwReset?
    || (e.Write? && Select(g.mode, e.addr) == SR)
    || (e.ReadReg? && Select(g.mode, e.addr) == SR)
  }

  lemma IrqOfWrites(g: Config, s: Acia, clk: CLOCK, byte: bv8, opens: bool)
    ensures StoreDR(s, clk, byte).int_ == s.int_ && StoreCTRL(g, s, clk, byte).int_ == s.int_
    ensures StoreECTRL(g, s, clk, byte).int_ == s.int_ && StoreCMD(g, s, clk, byte, opens).int_ == s.int_
    ensures !StoreSR(g, s, clk).int_.flag && !Reset(g, s, clk).int_.flag
  {
    hide Ticks, Later, DataMask, Has, Transmitter, StoreCMD, SetHandshakeLines;
    CommandFrame(g, s, clk, byte, opens);
    LinesKeepInt(g, s, clk);
  }

  lemma LinesKeepInt(g: Config, s: Acia, clk: CLOCK)
    ensures forall t: Acia :: SetHandshakeLines(g, t, clk).int_ == t.int_
  {
    hide SetHandshakeLines;
    forall t: Acia ensures SetHandshakeLines(g, t, clk).int_ == t.int_ {
      LinesFrame(g, t, clk);
    }
  }

  lemma IrqOfAlarms(g: Config, s: Acia, clk: CLOCK, input: Option<bv8>)
    ensures TxAlarm(g, s, clk).int_.flag <==> s.int_.flag || s.r.cmd & 0x0c == 0x04
    ensures RxAlarm(g, s, clk, input).int_.flag
            <==> s.int_.flag || (s.wire.open && input.Some? && s.r.cmd & 0x02 == 0)
  {
    hide Later, Receive;
  }

  lemma IrqStep(g: Config, s: Acia, e: BusEvent)
    ensures Apply(g, s, e).int_.flag <==> Raises(s, e) || (s.int_.flag && !Lowers(g, e))
  {
    hide StoreDR, StoreSR, StoreCMD, StoreCTRL, StoreECTRL, TxAlarm, RxAlarm, Reset, ModemStatus, Select;
    match e {
      case Write(clk, addr, byte, opens) => IrqOfWrites(g, s, clk, byte, opens);
      case ReadReg(_, _, _, _) =>
      case TxFire(clk) => IrqOfAlarms(g, s, clk, None);
      case RxFire(clk, input) => IrqOfAlarms(g, s, clk, input);
      case HwReset(clk) => IrqOfWrites(g, s, clk, 0, false);
    }
  }

  ghost predicate RaisedAt(g: Config, ss: seq<Acia>, es: seq<BusEvent>, i: nat, n: nat)
    requires |es| < |ss| && i < n <= |es|
  {
    Raises(ss[i], es[i]) && forall j :: i < j < n ==> !Lowers(g, es[j])
  }

  /** Over any run the ACIA interrupts the CPU exactly if something raised its
      interrupt (or it was raised to begin with) and nothing has lowered it since. */
  lemma InterruptsIffRaised(g: Config, ss: seq<Acia>, es: seq<BusEvent>, n: nat)
    requires DeviceRun(g, ss, es) && n <= |es| && Coupled(g, ss[0])
    ensures ss[n].int_.flag
            <==> (ss[0].int_.flag && forall j :: 0 <= j < n ==> !Lowers(g, es[j]))
                 || exists i :: 0 <= i < n && RaisedAt(g, ss, es, i, n)
    ensures ss[n].int_.line <==> g.interrupts && ss[n].int_.flag
  {
    hide Apply, Raises, Lowers, RaisedAt, Since, Coupled;
    LineIsFlag(g, ss, es, n);
    var b := seq(|ss|, i requires 0 <= i < |ss| => ss[i].int_.flag);
    var on := seq(|es|, i requires 0 <= i < |es| => Raises(ss[i], es[i]));
    var off := seq(|es|, i requires 0 <= i < |es| => Lowers(g, es[i]));
    forall i | 0 <= i < |es| ensures b[i + 1] <==> on[i] || (b[i] && !off[i]) {
      IrqStep(g, ss[i], es[i]);
    }
    OnSince(b, on, off, n);
    forall i | 0 <= i < n ensures Since(on, off, i, n) <==> RaisedAt(g, ss, es, i, n) {
      SinceRaised(g, ss, es, on, off, i, n);
    }
    assert forall j :: 0 <= j < n ==> off[j] == Lowers(g, es[j]);
  }

  lemma LineIsFlag(g: Config, ss: seq<Acia>, es: seq<BusEvent>, n: nat)
    requires DeviceRun(g, ss, es) && n <= |es| && Coupled(g, ss[0])
    ensures ss[n].int_.line <==> g.interrupts && ss[n].int_.flag
  {
    hide Apply;
    AlwaysCoupled(g, ss, es, n);
  }

  lemma SinceRaised(g: Config, ss: seq<Acia>, es: seq<BusEvent>, on: seq<bool>, off: seq<bool>, i: nat, n: nat)
    requires |es| < |ss| && i < n <= |es| == |on| == |off| && on[i] == Raises(ss[i], es[i])
    requires forall j :: 0 <= j < n ==> off[j] == Lowers(g, es[j])
    ensures Since(on, off, i, n) <==> RaisedAt(g, ss, es, i, n)
  {
    hide Raises, Lowers;
    if Since(on, off, i, n) {
      forall j | i < j < n ensures !Lowers(g, es[j]) { assert !off[j]; }
    }
  }

  // ----------------------------------------------------------- the status byte

  /** A status read shows the interrupt in bit 7 (which the register itself never
      holds), the missing carrier in bit 5 or, on the C64 and C128, with the missing
      data set ready in bit 6, and the other bits as they are. */
  lemma StatusRead(g: Config, s: Acia, addr: bv16, dcd: bool, dsr: bool)
    requires Select(g.mode, addr) == SR && s.r.status & 0x80 == 0
    ensures var v := Read(g, s, addr, dcd, dsr).1;
            var carrier, ready := s.wire.open && dcd, s.wire.open && dsr;
            && (v & 0x80 != 0 <==> s.int_.flag)
            && (v & 0x40 != 0 <==> !ready || (g.dcdIsDsr && !carrier))
            && (v & 0x20 != 0 <==> !g.dcdIsDsr && !carrier)
            && v & 0x1f == s.r.status & 0x1f
  {
    hide Select;
  }

  lemma StatusOfWrites(g: Config, s: Acia, clk: CLOCK, byte: bv8, opens: bool)
    ensures StoreDR(s, clk, byte).r.status == if s.r.cmd & 0x01 == 0 then s.r.status else s.r.status & 0xef
    ensures StoreCTRL(g, s, clk, byte).r.status == s.r.status && StoreECTRL(g, s, clk, byte).r.status == s.r.status
    ensures StoreCMD(g, s, clk, byte, opens).r.status == s.r.status
    ensures StoreSR(g, s, clk).r.status == s.r.status & 0xfb
    ensures Reset(g, s, clk).r.status == (s.r.status & 0x40) | 0x30
  {
    hide Ticks, Later, DataMask, Transmitter, StoreCMD, StoreSR;
    CommandFrame(g, s, clk, byte, opens);
    StoreSRFrame(g, s, clk);
    StatusOfData(s, clk, byte);
    StatusOfControl(g, s, clk, byte);
    StatusOfReset(g, s, clk);
    hide StoreDR, StoreCTRL, StoreECTRL, Reset;
  }

  lemma StatusOfData(s: Acia, clk: CLOCK, byte: bv8)
    ensures StoreDR(s, clk, byte).r.status == if s.r.cmd & 0x01 == 0 then s.r.status else s.r.status & 0xef
  {
    hide Later;
  }

  lemma StatusOfControl(g: Config, s: Acia, clk: CLOCK, byte: bv8)
    ensures StoreCTRL(g, s, clk, byte).r.status == s.r.status && StoreECTRL(g, s, clk, byte).r.status == s.r.status
  {
    hide Ticks, Later, DataMask, Has;
  }

  lemma StatusOfReset(g: Config, s: Acia, clk: CLOCK)
    ensures Reset(g, s, clk).r.status == (s.r.status & 0x40) | 0x30
  {
    hide Ticks, Later, DataMask;
  }

  lemma StatusOfAlarms(g: Config, s: Acia, clk: CLOCK, input: Option<bv8>)
    ensures TxAlarm(g, s, clk).r.status
            == if s.inTx == DR_WRITTEN && s.wire.open then s.r.status | 0x10 else s.r.status
    ensures RxAlarm(g, s, clk, input).r.status
            == if !(s.wire.open && input.Some?) then s.r.status
               else if s.r.status & 0x08 == 0 then s.r.status | 0x08 else s.r.status | 0x0c
  {
    hide Later, DataMask, Transmitter, SetInt;
  }

  lemma StatusOfReads(g: Config, s: Acia, addr: bv16, dcd: bool, dsr: bool)
    ensures var t := Read(g, s, addr, dcd, dsr).0.r.status;
            match Select(g.mode, addr)
            case DR => t == s.r.status & 0xf0
            case SR => t & 0x9f == s.r.status & 0x9f
            case _ => t == s.r.status
  {
    hide Select;
  }

  /** A byte put in the data register waits until a firing sends it, and the
      transmit-empty bit says so: only a send and a hardware reset set it, only a data
      write with the device enabled clears it. */
  lemma TransmitEmptyStep(g: Config, s: Acia, e: BusEvent)
    ensures Apply(g, s, e).r.status & 0x10 != 0
            <==> || e.HwReset? || (e.TxFire? && s.inTx == DR_WRITTEN && s.wire.open)
                 || (s.r.status & 0x10 != 0
                     && !(e.Write? && Select(g.mode, e.addr) == DR && s.r.cmd & 0x01 != 0))
    ensures s.r.status & 0x80 == 0 ==> Apply(g, s, e).r.status & 0x80 == 0
  {
    hide StoreDR, StoreSR, StoreCMD, StoreCTRL, StoreECTRL, TxAlarm, RxAlarm, Reset, Read, Select;
    match e {
      case Write(clk, addr, byte, opens) => StatusOfWrites(g, s, clk, byte, opens);
      case ReadReg(_, addr, dcd, dsr) => StatusOfReads(g, s, addr, dcd, dsr);
      case TxFire(clk) => StatusOfAlarms(g, s, clk, None);
      case RxFire(clk, input) => StatusOfAlarms(g, s, clk, input);
      case HwReset(clk) => StatusOfWrites(g, s, clk, 0, false);
    }
  }

  /** So bit 7 of a status read is set exactly while the ACIA interrupts. */
  lemma {:induction false} StatusBit7Clear(g: Config, ss: seq<Acia>, es: seq<BusEvent>, n: nat)
    requires DeviceRun(g, ss, es) && n <= |es| && ss[0].r.status & 0x80 == 0
    ensures ss[n].r.status & 0x80 == 0
  {
    hide Apply;
    if n > 0 {
      StatusBit7Clear(g, ss, es, n - 1);
      TransmitEmptyStep(g, ss[n - 1], es[n - 1]);
    }
  }

  // ------------------------------------------------------------ the registers

  /** The address bits that select a register: three on a Turbo232, two elsewhere. */
  function Place(mode: Mode, addr: bv16): bv16 { if mode == Turbo232 then addr & 7 else addr & 3 }

  /** Command and control registers read back what was written; each leaves the other
      and the data alone. */
  lemma CommandAndControlReadBack(g: Config, s: Acia, clk: CLOCK, addr: bv16, byte: bv8, opens: bool,
                                  dcd: bool, dsr: bool)
    ensures var t := Store(g, s, clk, addr, byte, opens);
            && (Place(g.mode, addr) == 2 ==>
                  t.r.cmd == byte && t.r.ctrl == s.r.ctrl && t.r.ectrl == s.r.ectrl
                  && t.r.txdata == s.r.txdata && Read(g, t, addr, dcd, dsr).1 == byte)
            && (Place(g.mode, addr) == 3 ==>
                  t.r.ctrl == byte && t.r.cmd == s.r.cmd && t.r.ectrl == s.r.ectrl
                  && t.r.txdata == s.r.txdata && Read(g, t, addr, dcd, dsr).1 == byte)
  {
    hide Ticks, Later, DataMask, StoreCMD, StoreSR, StoreDR, StoreECTRL, ModemStatus;
    CommandFrame(g, s, clk, byte, opens);
  }

  /** A data write is kept for sending; a data read returns the byte received; a
      write to the status register keeps the three highest bits of the command. */
  lemma DataAndStatusPlaces(g: Config, s: Acia, clk: CLOCK, addr: bv16, byte: bv8, opens: bool, dcd: bool, dsr: bool)
    ensures var t := Store(g, s, clk, addr, byte, opens);
            && (Place(g.mode, addr) == 0 ==>
                  t.r.txdata == byte && t.r.cmd == s.r.cmd && t.r.ctrl == s.r.ctrl && t.r.ectrl == s.r.ectrl
                  && Read(g, s, addr, dcd, dsr).1 == s.r.rxdata)
            && (Place(g.mode, addr) == 1 ==>
                  t.r.cmd == s.r.cmd & 0xe0 && t.r.ctrl == s.r.ctrl && t.r.ectrl == s.r.ectrl
                  && t.r.txdata == s.r.txdata)
  {
    hide Ticks, Later, DataMask, Transmitter, SetHandshakeLines, StoreSR, SetInt, ModemStatus;
    StoreSRFrame(g, s, clk);
    RegistersBesideSR(g, s, clk);
  }

  lemma RegistersBesideSR(g: Config, s: Acia, clk: CLOCK)
    ensures var t := StoreSR(g, s, clk).r;
            t.cmd == s.r.cmd & 0xe0 && t.ctrl == s.r.ctrl && t.ectrl == s.r.ectrl && t.txdata == s.r.txdata
  {
    StoreSRFrame(g, s, clk);
    hide StoreSR;
  }

  /** The Turbo232's enhanced control register takes a write only at the external
      clock setting, and reads back with bit 2 telling that setting; the three places
      below it do nothing and read 0xff. */
  lemma EnhancedPlaces(g: Config, s: Acia, clk: CLOCK, addr: bv16, byte: bv8, opens: bool, dcd: bool, dsr: bool)
    requires g.mode == Turbo232
    ensures var t := Store(g, s, clk, addr, byte, opens);
            && (addr & 7 == 7 ==>
                  && t.r.ectrl == (if s.r.ctrl & 0x0f == 0 then byte else s.r.ectrl)
                  && t.r.ctrl == s.r.ctrl && t.r.cmd == s.r.cmd
                  && Read(g, s, addr, dcd, dsr) == (s, s.r.ectrl + if s.r.ctrl & 0x0f == 0 then 0x04 else 0))
            && (4 <= addr & 7 <= 6 ==> t == s && Read(g, s, addr, dcd, dsr) == (s, 0xff))
  {
    hide StoreCMD, StoreSR, StoreDR, StoreCTRL, StoreECTRL, ModemStatus;
    EnhancedWrite(g, s, clk, byte);
    assert 4 <= addr & 7 <= 6 ==> addr & 7 == 4 || addr & 7 == 5 || addr & 7 == 6;
  }

  lemma EnhancedWrite(g: Config, s: Acia, clk: CLOCK, byte: bv8)
    ensures var t := StoreECTRL(g, s, clk, byte);
            && t.r.ectrl == (if s.r.ctrl & 0x0f == 0 then byte else s.r.ectrl)
            && t.r.ctrl == s.r.ctrl && t.r.cmd == s.r.cmd
  {
    hide Ticks, Later, DataMask;
  }

  /** What the next read-modify-write access writes back is the byte last read from
      one of the four 6551 registers. */
  lemma LastRead(g: Config, s: Acia, addr: bv16, dcd: bool, dsr: bool)
    ensures var (t, v) := Read(g, s, addr, dcd, dsr);
            t.r.lastRead == if Place(g.mode, addr) < 4 then v else s.r.lastRead
  {
    hide ModemStatus, SetInt;
  }

  // -------------------------------------------------- device, lines, receiver

  /** The driver's device: opened by a command write with DTR set, closed by one with
      DTR clear and by a programmed reset unless the driver keeps it open, closed by a
      hardware reset; nothing else opens or closes it. */
  function OpenAfter(g: Config, s: Acia, e: BusEvent): bool {
    match e
    case HwReset(_) => false
    case Write(_, addr, byte, opens) =>
      if Place(g.mode, addr) == 1 then s.wire.open && g.ip232
      else if Place(g.mode, addr) != 2 then s.wire.open
      else if byte & 0x01 != 0 then s.wire.open || opens
      else s.wire.open && g.ip232
    case _ => s.wire.open
  }

  lemma WireOfCommand(g: Config, s: Acia, clk: CLOCK, byte: bv8, opens: bool)
    ensures var t := StoreCMD(g, s, clk, byte, opens);
            && t.wire.open == (if byte & 0x01 != 0 then s.wire.open || opens else s.wire.open && g.ip232)
            && t.wire.dtr == (byte & 0x01 != 0) && t.wire.rts == (byte & 0x0c != 0)
            && t.rx.active == (byte & 0x0c != 0)
  {
    hide Ticks, Later, DataMask, SetHandshakeLines;
    var t := s.(r := s.r.(cmd := byte));
    if Has(byte, CMD_DTR) && !s.wire.open {
      WireOfLines(g, OpenDevice(g, t, clk, opens), clk);
    } else if s.wire.open && !Has(byte, CMD_DTR) && !g.ip232 {
      WireOfLines(g, t.(wire := t.wire.(open := false), tx := Disarmed(t.tx)), clk);
    } else {
      WireOfLines(g, t, clk);
    }
  }

  lemma WireOfLines(g: Config, s: Acia, clk: CLOCK)
    ensures var t := SetHandshakeLines(g, s, clk);
            && t.wire.open == s.wire.open
            && t.wire.dtr == (s.r.cmd & 0x01 != 0) && t.wire.rts == (s.r.cmd & 0x0c != 0)
            && t.rx.active == (s.r.cmd & 0x0c != 0)
  {
    hide Ticks, Later, DataMask;
  }

  lemma WireOfStatus(g: Config, s: Acia, clk: CLOCK)
    ensures var t := StoreSR(g, s, clk);
            t.wire == Wire(s.wire.open && g.ip232, false, false) && !t.rx.active && t.r.cmd & 0x0d == 0
  {
    hide Ticks, Later, DataMask;
  }

  /** RTS and DTR follow the command register, and the receiver runs while RTS is on. */
  predicate LinesFollow(s: Acia) {
    && s.wire.dtr == (s.r.cmd & 0x01 != 0) && s.wire.rts == (s.r.cmd & 0x0c != 0)
    && s.rx.active == (s.r.cmd & 0x0c != 0)
  }

  lemma LinesStep(g: Config, s: Acia, e: BusEvent)
    ensures Apply(g, s, e).wire.open == OpenAfter(g, s, e)
    ensures LinesFollow(s) || e.HwReset? || (e.Write? && 1 <= Place(g.mode, e.addr) <= 2) ==>
              LinesFollow(Apply(g, s, e))
  {
    hide StoreDR, StoreSR, StoreCMD, StoreCTRL, StoreECTRL, TxAlarm, RxAlarm, Reset, Read, LinesFollow;
    match e {
      case Write(clk, addr, byte, opens) => LinesOfWrite(g, s, clk, addr, byte, opens);
      case ReadReg(_, addr, dcd, dsr) => LinesOfRead(g, s, addr, dcd, dsr);
      case TxFire(clk) => LinesOfAlarms(g, s, clk, None);
      case RxFire(clk, input) => LinesOfAlarms(g, s, clk, input);
      case HwReset(clk) => ResetLaw(g, s, clk); NothingDriven(Reset(g, s, clk));
    }
  }

  lemma NothingDriven(s: Acia)
    requires s.wire == Wire(false, false, false) && !s.rx.active && s.r.cmd & 0x0d == 0
    ensures LinesFollow(s)
  {
  }

  lemma SameLines(s: Acia, t: Acia)
    requires t.wire == s.wire && t.rx.active == s.rx.active && t.r.cmd == s.r.cmd
    ensures LinesFollow(t) == LinesFollow(s)
  {
  }

  lemma LinesOfWrite(g: Config, s: Acia, clk: CLOCK, addr: bv16, byte: bv8, opens: bool)
    ensures var e := Write(clk, addr, byte, opens);
            && Apply(g, s, e).wire.open == OpenAfter(g, s, e)
            && (LinesFollow(s) || 1 <= Place(g.mode, addr) <= 2 ==> LinesFollow(Apply(g, s, e)))
  {
    hide StoreDR, StoreSR, StoreCMD, StoreCTRL, StoreECTRL;
    WireOfCommand(g, s, clk, byte, opens);
    CommandFrame(g, s, clk, byte, opens);
    WireOfStatus(g, s, clk);
    LinesOfOthers(g, s, clk, byte);
    hide LinesFollow;
    CommandLines(StoreCMD(g, s, clk, byte, opens), byte);
    if StoreSR(g, s, clk).wire.open { StatusLines(StoreSR(g, s, clk)); } else { NothingDriven(StoreSR(g, s, clk)); }
  }

  lemma CommandLines(s: Acia, byte: bv8)
    requires s.r.cmd == byte && s.wire.dtr == (byte & 0x01 != 0) && s.wire.rts == (byte & 0x0c != 0)
    requires s.rx.active == (byte & 0x0c != 0)
    ensures LinesFollow(s)
  {
  }

  lemma StatusLines(s: Acia)
    requires !s.wire.rts && !s.wire.dtr && !s.rx.active && s.r.cmd & 0x0d == 0
    ensures LinesFollow(s)
  {
  }

  lemma LinesOfOthers(g: Config, s: Acia, clk: CLOCK, byte: bv8)
    ensures LinesFollow(StoreDR(s, clk, byte)) == LinesFollow(s) && StoreDR(s, clk, byte).wire == s.wire
    ensures LinesFollow(StoreCTRL(g, s, clk, byte)) == LinesFollow(s) && StoreCTRL(g, s, clk, byte).wire == s.wire
    ensures LinesFollow(StoreECTRL(g, s, clk, byte)) == LinesFollow(s) && StoreECTRL(g, s, clk, byte).wire == s.wire
  {
    hide Ticks, Later, DataMask, Has, LinesFollow;
    SameLines(s, StoreDR(s, clk, byte));
    SameLines(s, StoreCTRL(g, s, clk, byte));
    SameLines(s, StoreECTRL(g, s, clk, byte));
  }

  lemma LinesOfRead(g: Config, s: Acia, addr: bv16, dcd: bool, dsr: bool)
    ensures var t := Read(g, s, addr, dcd, dsr).0; LinesFollow(t) == LinesFollow(s) && t.wire == s.wire
  {
    hide ModemStatus, Select, LinesFollow;
    SameLines(s, Read(g, s, addr, dcd, dsr).0);
  }

  lemma LinesOfAlarms(g: Config, s: Acia, clk: CLOCK, input: Option<bv8>)
    ensures var t := TxAlarm(g, s, clk); LinesFollow(t) == LinesFollow(s) && t.wire == s.wire
    ensures var t := RxAlarm(g, s, clk, input); LinesFollow(t) == LinesFollow(s) && t.wire == s.wire
  {
    hide Later, Receive, LinesFollow, Has, Transmitter;
    ReceiveKeepsCommand(s.r, input);
    SameLines(s, TxAlarm(g, s, clk));
    SameLines(s, RxAlarm(g, s, clk, input));
  }

  lemma ReceiveKeepsCommand(r: Regs, input: Option<bv8>)
    ensures input.Some? ==> Receive(r, input.value).cmd == r.cmd
  {
  }

  /** Over any run from a hardware reset the handshake lines follow the command register. */
  lemma {:induction false} LinesAlwaysFollow(g: Config, ss: seq<Acia>, es: seq<BusEvent>, n: nat)
    requires DeviceRun(g, ss, es) && 0 < n <= |es| && es[0].HwReset?
    ensures LinesFollow(ss[n])
  {
    hide Apply, LinesFollow;
    LinesStep(g, ss[n - 1], es[n - 1]);
    if n > 1 {
      LinesAlwaysFollow(g, ss, es, n - 1);
    }
  }

  // ------------------------------------------------------------------- timing

  /** Ends of waiting: exactly that many cycles later, modulo 2^64. */
  lemma LaterIs(clk: CLOCK, n: int)
    ensures (Later(clk, n) - (clk + n)) % 0x1_0000_0000_0000_0000 == 0
  {
  }

  /** A character time is cycles per second over bits per second, times the bits of a
      character, rounded down. */
  lemma CharacterTime(g: Config, ctrl: bv8, ectrl: bv8, cmd: bv8, bits: real, bps: real, n: real)
    requires bits == BitTimes(ctrl, cmd) as real && bps == Bps(g.mode, ctrl, ectrl)
    requires n == Ticks(g, ctrl, ectrl, cmd) as real
    ensures n * bps <= g.cyclesPerSecond * bits < n * bps + bps
  {
    hide Bps, BitTimes, Ticks;
    var x := g.cyclesPerSecond / bps * bits;
    TicksAreFloor(g, ctrl, ectrl, cmd, bits, bps);
    FloorOf(x);
    RoundedDown(g.cyclesPerSecond, bps, bits, x, n);
  }

  lemma TicksAreFloor(g: Config, ctrl: bv8, ectrl: bv8, cmd: bv8, bits: real, bps: real)
    requires bits == BitTimes(ctrl, cmd) as real && bps == Bps(g.mode, ctrl, ectrl)
    ensures Ticks(g, ctrl, ectrl, cmd) == (g.cyclesPerSecond / bps * bits).Floor
  {
    hide Bps, BitTimes;
  }

  lemma FloorOf(x: real)
    ensures x.Floor as real <= x < x.Floor as real + 1.0
  {
  }

  lemma RoundedDown(c: real, bps: real, bits: real, x: real, n: real)
    requires bps > 0.0 && x == c / bps * bits && n <= x < n + 1.0
    ensures n * bps <= c * bits < n * bps + bps
  {
    Factors(c, c / bps, bps, bits);
    Between(n, x, bps, c * bits);
  }

  lemma Between(n: real, x: real, bps: real, y: real)
    requires n <= x < n + 1.0 && bps > 0.0 && y == x * bps
    ensures n * bps <= y < n * bps + bps
  {
    Distributes(n, x, bps);
    PositiveProduct(n + 1.0 - x, bps);
    NonNegativeProduct(x - n, bps);
    var above := (n + 1.0 - x) * bps;
    assert above > 0.0;
    assert above == n * bps + bps - y;
  }

  lemma Distributes(n: real, x: real, bps: real)
    ensures (n + 1.0 - x) * bps == n * bps + bps - x * bps
    ensures (x - n) * bps == x * bps - n * bps
  {
  }

  lemma PositiveProduct(d: real, b: real)
    requires d > 0.0 && b > 0.0
    ensures d * b > 0.0
  {
  }

  lemma NonNegativeProduct(d: real, b: real)
    requires d >= 0.0 && b > 0.0
    ensures d * b >= 0.0
  {
  }

  /** Start bit, five to eight data bits as the control register says, a parity bit if
      the command register enables it, one or two stop bits. */
  lemma CharacterBits(ctrl: bv8, cmd: bv8)
    ensures BitTimes(ctrl, cmd) == 1 + WordLength(ctrl) + (if cmd & 0x20 != 0 then 1 else 0)
                                   + (if ctrl & 0x80 != 0 then 2 else 1)
    ensures WordLength(ctrl) == 8 - ((ctrl >> 5) & 3) as int
    ensures DataMask(ctrl) as int + 1 == Two(WordLength(ctrl))
  {
    hide BitTimes, WordLength, DataMask;
    WordLengthBits(ctrl);
    MaskBits(ctrl);
    BitsAdded(ctrl, cmd);
  }

  lemma BitsAdded(ctrl: bv8, cmd: bv8)
    ensures BitTimes(ctrl, cmd) == 1 + WordLength(ctrl) + (if cmd & 0x20 != 0 then 1 else 0)
                                   + (if ctrl & 0x80 != 0 then 2 else 1)
  {
    hide WordLength;
  }

  lemma WordLengthBits(ctrl: bv8)
    ensures WordLength(ctrl) == 8 - ((ctrl >> 5) & 3) as int
  {
    var k := (ctrl >> 5) & 3;
    assert k == 0 <==> ctrl & 0x60 == 0;
    assert k == 1 <==> ctrl & 0x60 == 0x20;
    assert k == 2 <==> ctrl & 0x60 == 0x40;
    assert k == 3 <==> ctrl & 0x60 == 0x60;
  }

  /** Powers of two. */
  function Two(n: nat): nat { if n == 0 then 1 else 2 * Two(n - 1) }

  lemma MaskBits(ctrl: bv8)
    ensures DataMask(ctrl) as int + 1 == Two(WordLength(ctrl))
  {
    hide WordLength;
    assert Two(5) == 32 && Two(6) == 64 && Two(7) == 128 && Two(8) == 256;
  }

  /** The sixteen rates grow; from 150 on they double, or double in threes of 1800. */
  lemma Rates(n: bv8)
    ensures Rate(0) == 10.0 && Rate(1) == 50.0 && Rate(2) == 75.0 && Rate(3) == 109.92 && Rate(4) == 134.58
    ensures n < 15 ==> Rate(n) < Rate(n + 1)
    ensures Rate(5) == 2.0 * Rate(2) && Rate(6) == 2.0 * Rate(5) && Rate(7) == 2.0 * Rate(6)
    ensures Rate(8) == 2.0 * Rate(7) && Rate(10) == 2.0 * Rate(8) && Rate(12) == 2.0 * Rate(10)
    ensures Rate(14) == 2.0 * Rate(12) && Rate(15) == 2.0 * Rate(14)
    ensures Rate(9) == 3.0 * Rate(7) && Rate(11) == 2.0 * Rate(9) && Rate(13) == 2.0 * Rate(11)
  {
  }

  /** SwiftLink and Turbo232 run at twice the rates, and a Turbo232 with the external
      clock at 230400 bits per second halved as often as the enhanced register says. */
  lemma Speeds(ctrl: bv8, ectrl: bv8)
    ensures Bps(Normal, ctrl, ectrl) == Rate(ctrl & 0x0f) && Bps(SwiftLink, ctrl, ectrl) == 2.0 * Rate(ctrl & 0x0f)
    ensures ctrl & 0x0f != 0 ==> Bps(Turbo232, ctrl, ectrl) == 2.0 * Rate(ctrl & 0x0f)
    ensures ctrl & 0x0f == 0 ==> Bps(Turbo232, ctrl, ectrl) * Two(((ectrl & 3) as int)) as real == 230400.0
  {
    hide Rate;
    assert Two(0) == 1 && Two(1) == 2 && Two(2) == 4 && Two(3) == 8;
    assert ectrl & 3 == 0 || ectrl & 3 == 1 || ectrl & 3 == 2 || ectrl & 3 == 3;
  }

  /** The alarm of a write: one cycle after a data write to an idle transmitter. */
  lemma DataWriteTimer(g: Config, s: Acia, clk: CLOCK, byte: bv8)
    requires clk < CLOCK_MAX && s.r.cmd & 0x01 != 0 && !s.tx.active
    ensures StoreDR(s, clk, byte).tx == Timer(true, clk + 1, Some(clk + 1))
    ensures StoreDR(s, clk, byte).inTx == 2
  {
  }

  /** A firing that goes on does so exactly one character later. */
  lemma FiringTimers(g: Config, s: Acia, clk: CLOCK, input: Option<bv8>)
    requires s.ticks >= 0 && clk + s.ticks <= CLOCK_MAX && s.inTx <= 2
    ensures var t := TxAlarm(g, s, clk);
            && t.inTx == (if s.inTx == 0 then 0 else s.inTx - 1)
            && (if s.inTx == 2 || s.r.cmd & 0x0c == 0x04 then t.tx == Timer(true, clk + s.ticks, Some(clk + s.ticks))
                else !t.tx.active && t.tx.at == None)
    ensures var t := RxAlarm(g, s, clk, input);
            if s.rx.active then t.rx == Timer(true, clk + s.ticks, Some(clk + s.ticks)) else t.rx.at == None
  {
  }

  /** A control write restarts a running receiver with the new character time. */
  lemma ControlTimer(g: Config, s: Acia, clk: CLOCK, byte: bv8, ticks: int)
    requires ticks == Ticks(g, byte, s.r.ectrl, s.r.cmd) && 0 <= ticks && clk + ticks <= CLOCK_MAX
    ensures var t := StoreCTRL(g, s, clk, byte);
            && t.ticks == ticks && t.tx == s.tx
            && t.rx == if s.rx.active then Timer(true, clk + ticks, Some(clk + ticks)) else s.rx
  {
    hide Ticks, DataMask;
  }

  /** A command write with RTS on starts an idle receiver, and an idle transmitter or
      one whose device it closes, one character later. */
  lemma CommandTimers(g: Config, s: Acia, clk: CLOCK, byte: bv8, opens: bool, n: int)
    requires byte & 0x0c != 0 && (s.wire.open || byte & 0x01 == 0)
    requires n == if s.rx.active then s.ticks else Ticks(g, s.r.ctrl, s.r.ectrl, byte)
    requires 0 <= n && clk + n <= CLOCK_MAX
    ensures var t := StoreCMD(g, s, clk, byte, opens);
            var closes := s.wire.open && byte & 0x01 == 0 && !g.ip232;
            && t.ticks == n && t.inTx == s.inTx
            && t.rx == (if s.rx.active then s.rx else Timer(true, clk + n, Some(clk + n)))
            && t.tx == (if s.tx.active && !closes then s.tx else Timer(true, clk + n, Some(clk + n)))
  {
    hide Ticks, DataMask;
  }

  /** One that opens the device starts both, the transmitter anew if it is to interrupt. */
  lemma OpeningTimers(g: Config, s: Acia, clk: CLOCK, byte: bv8, opens: bool, ticks: int)
    requires byte & 0x0c != 0 && ticks == Ticks(g, s.r.ctrl, s.r.ectrl, byte) && 0 <= ticks && clk + ticks <= CLOCK_MAX
    requires !s.wire.open && byte & 0x01 != 0
    ensures var t := StoreCMD(g, s, clk, byte, opens);
            && t.ticks == ticks && t.rx == Timer(true, clk + ticks, Some(clk + ticks))
            && t.tx == (if s.tx.active && byte & 0x0c != 0x04 then s.tx
                        else Timer(true, clk + ticks, Some(clk + ticks)))
            && (byte & 0x0c == 0x04 ==> t.inTx == 0)
  {
    hide Ticks, DataMask;
  }

  /** A hardware reset: registers cleared, data set ready kept, nothing scheduled. */
  lemma ResetLaw(g: Config, s: Acia, clk: CLOCK)
    ensures var t := Reset(g, s, clk);
            && t.r.cmd == 0 && t.r.ctrl == 0 && t.r.ectrl == 0 && t.r.status == (s.r.status & 0x40) | 0x30
            && t.r.rxdata == s.r.rxdata && t.r.txdata == s.r.txdata && t.sent == s.sent
            && t.inTx == 0 && t.wire == Wire(false, false, false) && t.tx.at == None && t.rx.at == None
            && !t.tx.active && !t.rx.active && !t.int_.flag && (g.interrupts ==> !t.int_.line)
            && t.ticks == Ticks(g, 0, 0, 0)
  {
    hide Ticks, DataMask, Later;
  }
}
