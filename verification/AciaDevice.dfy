/**
 The ACIA in place: its fields, its two alarms on a scheduler it shares with other
 devices, and the polling loop that calls it back.
 */
module AciaDevices {
  import opened AlarmModel
  import opened AlarmDispatch
  import opened AlarmContexts
  import opened AciaModel
  import opened AciaRuns

  class AciaDevice {
    const g: Config
    const ctx: AlarmContext
    const alarmTx: Alarm
    const alarmRx: Alarm

    /** The device's static record.  `acia.tx.at` and `acia.rx.at` shadow what the
        scheduler holds for the two alarms; `others` is what it holds besides. */
    var acia: Acia
    ghost var others: map<Alarm?, CLOCK>

    ghost predicate Valid()
      reads this`acia, this`others, ctx, ctx.live, ctx.pendingAlarms
    {
      && ctx.Valid() && |ctx.live| <= MAX_PENDING
      && alarmTx in ctx.live && alarmRx in ctx.live && alarmTx != alarmRx
      && Tied(ctx.pending, alarmTx, acia.tx.at) && Tied(ctx.pending, alarmRx, acia.rx.at)
      && ctx.pending - {alarmTx, alarmRx} == others
    }

    /** A closed device with all registers zero and two new alarms. */
    constructor (g: Config, ctx: AlarmContext)
      requires ctx.Valid() && |ctx.live| + 2 <= MAX_PENDING
      modifies ctx`alarms, ctx`live, ctx.live`prev
      ensures this.g == g && this.ctx == ctx && fresh(alarmTx) && fresh(alarmRx)
      ensures Valid() && ctx.live == [alarmRx, alarmTx] + old(ctx.live)
      ensures ctx.pending == old(ctx.pending)
      ensures acia == Initial()
      ensures !acia.wire.open && !acia.tx.active && !acia.rx.active && !acia.int_.flag && acia.inTx == 0
      ensures acia.r == Regs(0, 0, 0, 0, 0, 0, 0, 0) && acia.ticks == 21111 && acia.sent == []
    {
      hide AlarmContext.Valid;
      this.g, this.ctx := g, ctx;
      acia := Initial();
      var tx := ctx.NewAlarm();
      alarmTx := tx;
      var rx := ctx.NewAlarm();
      alarmRx := rx;
      others := ctx.pending;
    }

    /** Schedule the transmit alarm. */
    method ArmTx(at: CLOCK)
      requires Valid()
      modifies this`acia
      modifies ctx`numPending, ctx`nextClk, ctx`nextIdx, ctx`pending, ctx.pendingAlarms, ctx.live`pendingIdx
      ensures Valid() && acia == old(acia).(tx := Armed(at))
    {
      hide AlarmContext.Valid, Tied, Later, Select, Ticks, DataMask, Has, Raise, Clear, Keep, ModemStatus;
      TieSet(ctx.pending, alarmTx, alarmRx, at, acia.rx.at);
      ctx.RoomFor(alarmTx);
      ctx.SetAlarm(alarmTx, at);
      acia := acia.(tx := Armed(at));
    }

    /** Cancel the transmit alarm. */
    method DisarmTx()
      requires Valid()
      modifies this`acia
      modifies ctx`numPending, ctx`nextClk, ctx`nextIdx, ctx`pending, ctx.pendingAlarms, ctx.live`pendingIdx
      ensures Valid() && acia == old(acia).(tx := Disarmed(old(acia).tx))
    {
      hide AlarmContext.Valid, Tied, Later, Select, Ticks, DataMask, Has, Raise, Clear, Keep, ModemStatus;
      TieUnset(ctx.pending, alarmTx, alarmRx, acia.rx.at);
      ctx.UnsetAlarm(alarmTx);
      acia := acia.(tx := Disarmed(acia.tx));
    }

    /** Schedule the receive alarm; whether the receiver is active is noted elsewhere. */
    method ScheduleRx(at: CLOCK)
      requires Valid()
      modifies this`acia
      modifies ctx`numPending, ctx`nextClk, ctx`nextIdx, ctx`pending, ctx.pendingAlarms, ctx.live`pendingIdx
      ensures Valid() && acia == old(acia).(rx := old(acia).rx.(clk := at, at := Some(at)))
    {
      hide AlarmContext.Valid, Tied, Later, Select, Ticks, DataMask, Has, Raise, Clear, Keep, ModemStatus;
      TieSet(ctx.pending, alarmRx, alarmTx, at, acia.tx.at);
      ctx.RoomFor(alarmRx);
      ctx.SetAlarm(alarmRx, at);
      acia := acia.(rx := acia.rx.(clk := at, at := Some(at)));
    }

    /** Cancel the receive alarm. */
    method CancelRx()
      requires Valid()
      modifies this`acia
      modifies ctx`numPending, ctx`nextClk, ctx`nextIdx, ctx`pending, ctx.pendingAlarms, ctx.live`pendingIdx
      ensures Valid() && acia == old(acia).(rx := old(acia).rx.(at := None))
    {
      hide AlarmContext.Valid, Tied, Later, Select, Ticks, DataMask, Has, Raise, Clear, Keep, ModemStatus;
      TieUnset(ctx.pending, alarmRx, alarmTx, acia.tx.at);
      ctx.UnsetAlarm(alarmRx);
      acia := acia.(rx := acia.rx.(at := None));
    }

    /** set_acia_ticks */
    method SetAciaTicks(clk: CLOCK)
      requires Valid()
      modifies this`acia
      modifies ctx`numPending, ctx`nextClk, ctx`nextIdx, ctx`pending, ctx.pendingAlarms, ctx.live`pendingIdx
      ensures Valid() && acia == SetTicks(g, old(acia), clk)
    {
      hide AlarmContext.Valid, Tied, Later, Select, Ticks, DataMask, Has, Raise, Clear, Keep, ModemStatus;
      acia := acia.(r := acia.r.(datamask := DataMask(acia.r.ctrl)),
                    ticks := Ticks(g, acia.r.ctrl, acia.r.ectrl, acia.r.cmd));
      if acia.rx.active {
        ScheduleRx(Later(clk, acia.ticks));
      }
    }

    /** acia_set_handshake_lines */
    method SetLines(clk: CLOCK)
      requires Valid()
      modifies this`acia
      modifies ctx`numPending, ctx`nextClk, ctx`nextIdx, ctx`pending, ctx.pendingAlarms, ctx.live`pendingIdx
      ensures Valid() && acia == SetHandshakeLines(g, old(acia), clk)
    {
      hide AlarmContext.Valid, Tied, Later, Select, Ticks, DataMask, Has, Raise, Clear, Keep, ModemStatus;
      if Transmitter(acia.r.cmd) == CMD_NO_RTS {
        acia := acia.(wire := acia.wire.(rts := false));
        if acia.rx.active {
          acia := acia.(rx := acia.rx.(active := false));
          DisarmTx();
        }
      } else {
        acia := acia.(wire := acia.wire.(rts := true));
        if !acia.rx.active {
          acia := acia.(rx := acia.rx.(active := true));
          SetAciaTicks(clk);
        }
        if !acia.tx.active {
          ArmTx(Later(clk, acia.ticks));
        }
      }
      acia := acia.(wire := acia.wire.(dtr := Has(acia.r.cmd, CMD_DTR)));
    }

    /** acia_set_int and the device's own note of it */
    method SetIrq(on: bool)
      requires Valid()
      modifies this`acia
      ensures Valid() && acia == old(acia).(int_ := SetInt(g, old(acia).int_, on))
    {
      hide AlarmContext.Valid, Tied, Later, Select, Ticks, DataMask, Has, Raise, Clear, Keep, ModemStatus;
      if g.interrupts {
        acia := acia.(int_ := acia.int_.(line := on));
      }
      acia := acia.(int_ := acia.int_.(flag := on));
    }

    /** myacia_reset */
    method HardReset(clk: CLOCK)
      requires Valid()
      modifies this`acia
      modifies ctx`numPending, ctx`nextClk, ctx`nextIdx, ctx`pending, ctx.pendingAlarms, ctx.live`pendingIdx
      ensures Valid() && acia == Reset(g, old(acia), clk)
    {
      hide AlarmContext.Valid, Tied, Later, Select, Ticks, DataMask, Has, Raise, Clear, Keep, ModemStatus;
      acia := acia.(r := acia.r.(cmd := 0, ctrl := 0, ectrl := 0));
      SetAciaTicks(clk);
      acia := acia.(r := acia.r.(status := Keep(acia.r.status, SR_DSR)));
      acia := acia.(r := acia.r.(status := Raise(acia.r.status, SR_DCD | SR_TRANSMIT_EMPTY)));
      acia := acia.(inTx := NO_TRANSMIT, wire := Wire(false, false, false));
      DisarmTx();
      CancelRx();
      acia := acia.(rx := acia.rx.(active := false));
      SetIrq(false);
    }

    /** A write to the data register. */
    method WriteData(clk: CLOCK, byte: bv8)
      requires Valid()
      modifies this`acia
      modifies ctx`numPending, ctx`nextClk, ctx`nextIdx, ctx`pending, ctx.pendingAlarms, ctx.live`pendingIdx
      ensures Valid() && acia == StoreDR(old(acia), clk, byte)
    {
      hide AlarmContext.Valid, Tied, Later, Select, Ticks, DataMask, Has, Raise, Clear, Keep, ModemStatus;
      ghost var s := acia;
      acia := acia.(r := acia.r.(txdata := byte));
      if Has(acia.r.cmd, CMD_DTR) {
        acia := acia.(inTx := DR_WRITTEN);
        if !acia.tx.active {
          ArmTx(Later(clk, 1));
        }
        acia := acia.(r := acia.r.(status := Clear(acia.r.status, SR_TRANSMIT_EMPTY)));
        assert acia.r == s.r.(txdata := byte, status := Clear(s.r.status, SR_TRANSMIT_EMPTY));
        assert acia == StoreDR(s, clk, byte);
      } else {
        assert acia == StoreDR(s, clk, byte);
      }
    }

    /** A write to the status register: programmed reset. */
    method WriteStatus(clk: CLOCK)
      requires Valid()
      modifies this`acia
      modifies ctx`numPending, ctx`nextClk, ctx`nextIdx, ctx`pending, ctx.pendingAlarms, ctx.live`pendingIdx
      ensures Valid() && acia == StoreSR(g, old(acia), clk)
    {
      hide AlarmContext.Valid, Tied, Later, Select, Ticks, DataMask, Has, Raise, Clear, Keep, ModemStatus;
      if acia.wire.open && !g.ip232 {
        acia := acia.(wire := acia.wire.(open := false));
      }
      acia := acia.(r := acia.r.(status := Clear(acia.r.status, SR_OVERRUN)));
      acia := acia.(r := acia.r.(cmd := Keep(acia.r.cmd, CMD_PARITY_TYPE | CMD_PARITY_ENABLED)));
      acia := acia.(inTx := NO_TRANSMIT);
      SetIrq(false);
      DisarmTx();
      SetLines(clk);
    }

    /** A write to the command register; `opens` is the driver's answer to opening the device. */
    method WriteCommand(clk: CLOCK, byte: bv8, opens: bool)
      requires Valid()
      modifies this`acia
      modifies ctx`numPending, ctx`nextClk, ctx`nextIdx, ctx`pending, ctx.pendingAlarms, ctx.live`pendingIdx
      ensures Valid() && acia == StoreCMD(g, old(acia), clk, byte, opens)
    {
      hide AlarmContext.Valid, Tied, Later, Select, Ticks, DataMask, Has, Raise, Clear, Keep, ModemStatus;
      acia := acia.(r := acia.r.(cmd := byte));
      if Has(acia.r.cmd, CMD_DTR) && !acia.wire.open {
        acia := acia.(wire := acia.wire.(open := opens));
        acia := acia.(rx := acia.rx.(active := true));
        SetAciaTicks(clk);
        if Transmitter(acia.r.cmd) == CMD_TX_WITH_IRQ {
          ArmTx(Later(clk, acia.ticks));
          acia := acia.(inTx := NO_TRANSMIT);
        }
      } else if acia.wire.open && !Has(acia.r.cmd, CMD_DTR) && !g.ip232 {
        DisarmTx();
        acia := acia.(wire := acia.wire.(open := false));
      }
      SetLines(clk);
    }

    /** One register write. */
    method StoreOnce(clk: CLOCK, addr: bv16, byte: bv8, opens: bool)
      requires Valid()
      modifies this`acia
      modifies ctx`numPending, ctx`nextClk, ctx`nextIdx, ctx`pending, ctx.pendingAlarms, ctx.live`pendingIdx
      ensures Valid() && acia == Store(g, old(acia), clk, addr, byte, opens)
    {
      hide AlarmContext.Valid, Tied, Later, Select, Ticks, DataMask, Has, Raise, Clear, Keep, ModemStatus;
      match Select(g.mode, addr)
      case DR => WriteData(clk, byte);
      case SR => WriteStatus(clk);
      case CTRL =>
        acia := acia.(r := acia.r.(ctrl := byte));
        SetAciaTicks(clk);
      case CMD => WriteCommand(clk, byte, opens);
      case ECTRL =>
        if !Has(acia.r.ctrl, CTRL_BPS) {
          acia := acia.(r := acia.r.(ectrl := byte));
          SetAciaTicks(clk);
        }
      case NDEF =>
    }

    /** myacia_store: a read-modify-write instruction first writes back, one cycle earlier, the
        byte read last. */
    method StoreRegister(clk: CLOCK, addr: bv16, byte: bv8, rmw: bool, opens: nat -> bool)
      requires Valid() && (rmw ==> clk > 0)
      modifies this`acia
      modifies ctx`numPending, ctx`nextClk, ctx`nextIdx, ctx`pending, ctx.pendingAlarms, ctx.live`pendingIdx
      ensures Valid()
      ensures acia == if rmw then Store(g, Store(g, old(acia), clk - 1, addr, old(acia).r.lastRead, opens(0)), clk, addr, byte, opens(1))
                      else Store(g, old(acia), clk, addr, byte, opens(1))
    {
      hide AlarmContext.Valid, Store;
      if rmw {
        StoreOnce(clk - 1, addr, acia.r.lastRead, opens(0));
      }
      StoreOnce(clk, addr, byte, opens(1));
    }

    /** myacia_read */
    method ReadRegister(addr: bv16, dcd: bool, dsr: bool) returns (byte: bv8)
      requires Valid()
      modifies this`acia
      ensures Valid() && (acia, byte) == Read(g, old(acia), addr, dcd, dsr)
    {
      hide AlarmContext.Valid, Tied, Later, Select, Ticks, DataMask, Has, Raise, Clear, Keep, ModemStatus;
      ghost var s := acia;
      match Select(g.mode, addr)
      case DR =>
        acia := acia.(r := acia.r.(status := Clear(acia.r.status, SR_CLEARED_BY_READ)));
        acia := acia.(r := acia.r.(lastRead := acia.r.rxdata));
        byte := acia.r.rxdata;
        assert acia == Read(g, s, addr, dcd, dsr).0;
      case SR =>
        var open := acia.wire.open;
        acia := acia.(r := acia.r.(status := ModemStatus(g, acia.r.status, open && dcd, open && dsr)));
        byte := Raise(acia.r.status, if acia.int_.flag then SR_IRQ else 0);
        SetIrq(false);
        acia := acia.(r := acia.r.(lastRead := byte));
        assert acia == Read(g, s, addr, dcd, dsr).0;
      case CTRL =>
        byte := acia.r.ctrl;
        acia := acia.(r := acia.r.(lastRead := byte));
        assert acia == Read(g, s, addr, dcd, dsr).0;
      case CMD =>
        byte := acia.r.cmd;
        acia := acia.(r := acia.r.(lastRead := byte));
        assert acia == Read(g, s, addr, dcd, dsr).0;
      case NDEF =>
        byte := 0xff;
      case ECTRL =>
        byte := acia.r.ectrl + (if !Has(acia.r.ctrl, CTRL_BPS) then 0x04 else 0);
    }

    /** int_acia_tx */
    method OnTxAlarm(clk: CLOCK)
      requires Valid()
      modifies this`acia
      modifies ctx`numPending, ctx`nextClk, ctx`nextIdx, ctx`pending, ctx.pendingAlarms, ctx.live`pendingIdx
      ensures Valid() && acia == TxAlarm(g, old(acia), clk)
    {
      hide AlarmContext.Valid, Tied, Later, Select, Ticks, DataMask, Has, Raise, Clear, Keep, ModemStatus;
      ghost var s := acia;
      if acia.inTx == DR_WRITTEN && acia.wire.open {
        acia := acia.(sent := acia.sent + [Sent(clk, Keep(acia.r.txdata, acia.r.datamask))]);
        acia := acia.(r := acia.r.(status := Raise(acia.r.status, SR_TRANSMIT_EMPTY)));
      }
      if Transmitter(acia.r.cmd) == CMD_TX_WITH_IRQ {
        SetIrq(true);
      }
      if acia.inTx != NO_TRANSMIT {
        acia := acia.(inTx := acia.inTx - 1);
      }
      ghost var t := TxAlarm(g, s, clk);
      assert acia == t.(tx := s.tx);
      if acia.inTx != NO_TRANSMIT || Transmitter(acia.r.cmd) == CMD_TX_WITH_IRQ {
        ArmTx(Later(clk, acia.ticks));
      } else {
        DisarmTx();
      }
    }

    /** The data register or the overrun bit. */
    method LatchOrDiscard(byte: bv8)
      requires Valid()
      modifies this`acia
      ensures Valid()
      ensures acia == old(acia).(r := LatchedOrDiscarded(old(acia).r, byte))
      ensures acia.r.cmd == old(acia).r.cmd
    {
      hide AlarmContext.Valid, Tied, Has, Raise, Keep;
      if !Has(acia.r.status, SR_RECEIVE_FULL) {
        acia := acia.(r := acia.r.(rxdata := Keep(byte, acia.r.datamask)));
      } else {
        acia := acia.(r := acia.r.(status := Raise(acia.r.status, SR_OVERRUN)));
      }
    }

    /** A byte taken from the driver: latched, or discarded on overrun. */
    method TakeByte(byte: bv8)
      requires Valid()
      modifies this`acia
      ensures Valid()
      ensures var s := old(acia);
              acia == s.(r := Receive(s.r, byte),
                         int_ := if !Has(s.r.cmd, CMD_IRQ_DISABLED) then SetInt(g, s.int_, true) else s.int_)
    {
      hide AlarmContext.Valid, Tied, Has, Raise, Keep, SetInt, LatchedOrDiscarded;
      LatchOrDiscard(byte);
      if !Has(acia.r.cmd, CMD_IRQ_DISABLED) {
        SetIrq(true);
      }
      acia := acia.(r := acia.r.(status := Raise(acia.r.status, SR_RECEIVE_FULL)));
    }

    /** int_acia_rx; `input` is the byte the driver has, if any. */
    method OnRxAlarm(clk: CLOCK, input: Option<bv8>)
      requires Valid()
      modifies this`acia
      modifies ctx`numPending, ctx`nextClk, ctx`nextIdx, ctx`pending, ctx.pendingAlarms, ctx.live`pendingIdx
      ensures Valid() && acia == RxAlarm(g, old(acia), clk, input)
    {
      hide AlarmContext.Valid, Tied, Later, Select, Ticks, DataMask, Has, Raise, Clear, Keep, ModemStatus, Receive;
      if acia.wire.open && input.Some? {
        TakeByte(input.value);
      }
      if acia.rx.active {
        ScheduleRx(Later(clk, acia.ticks));
      } else {
        CancelRx();
      }
    }

    /** The polling loop of a machine with this device and others: every callback
        keeps the callback contract, so the loop ends with nothing due.  The device
        sees exactly the firings logged in `es`.  `inputs` and `reactions` say what
        the driver and the other devices do at the k-th call. */
    method ProcessAlarms(clk: CLOCK, inputs: nat -> Option<bv8>, reactions: nat -> Reaction)
      returns (calls: seq<Firing<Alarm?>>, ghost ss: seq<Acia>, ghost es: seq<BusEvent>)
      requires Valid() && clk < CLOCK_MAX
      requires acia.ticks >= 1 && clk + acia.ticks <= CLOCK_MAX
      requires forall k :: reactions(k).Rearm? ==> clk < reactions(k).clk
      modifies this`acia, this`others
      modifies ctx`numPending, ctx`nextClk, ctx`nextIdx, ctx`pending, ctx.pendingAlarms, ctx.live`pendingIdx
      ensures Valid()
      ensures Polled(old(ctx.pending), clk, calls, ctx.pending)
      ensures DeviceRun(g, ss, es) && ss[0] == old(acia) && ss[|es|] == acia
      ensures forall e :: e in es ==> e.clk == clk && (e.TxFire? || e.RxFire?)
    {
      hide AlarmContext.Valid, Tied, Apply, Enabled, DeviceRun, Fires, React;
      calls, ss, es := [], [acia], [];
      assert DeviceRun(g, ss, es) by { EmptyRun(g, acia); }
      while clk >= ctx.nextClk
        invariant Valid() && acia.ticks == old(acia.ticks)
        invariant Calling(old(ctx.pending), clk, calls, ctx.pending)
        invariant DeviceRun(g, ss, es) && |ss| == |es| + 1 && ss[0] == old(acia) && ss[|es|] == acia
        invariant forall e :: e in es ==> e.clk == clk && (e.TxFire? || e.RxFire?)
        decreases |Due(ctx.pending, clk)|
      {
        ghost var m := ctx.pending;
        var f, e := CallBack(clk, inputs(|calls|), reactions(|calls|));
        CallShrinksDue(m, clk, f);
        CallingOnce(old(ctx.pending), clk, calls, m, f);
        calls := calls + [f];
        if e.Some? {
          RunExtends(g, ss, es, acia, e.value);
          ss, es := ss + [acia], es + [e.value];
        }
      }
      ctx.Earliest();
    }

    /** Another device's callback. */
    method CallOther(alarm: Alarm, reaction: Reaction)
      requires Valid() && alarm in ctx.live && alarm in ctx.pending && alarm != alarmTx && alarm != alarmRx
      modifies this`others
      modifies ctx`numPending, ctx`nextClk, ctx`nextIdx, ctx`pending, ctx.pendingAlarms, ctx.live`pendingIdx
      ensures Valid()
      ensures ctx.pending == match reaction
                             case Cancel => old(ctx.pending) - {alarm}
                             case Rearm(c) => old(ctx.pending)[alarm := c]
    {
      hide AlarmContext.Valid;
      match reaction {
        case Cancel => ctx.UnsetAlarm(alarm);
        case Rearm(c) => ctx.SetAlarm(alarm, c);
      }
      others := ctx.pending - {alarmTx, alarmRx};
    }

    /** Call back whichever alarm is due first, the device's own or another's. */
    method CallBack(clk: CLOCK, input: Option<bv8>, reaction: Reaction)
      returns (f: Firing<Alarm?>, ghost e: Option<BusEvent>)
      requires Valid() && ctx.nextClk <= clk < CLOCK_MAX
      requires acia.ticks >= 1 && clk + acia.ticks <= CLOCK_MAX
      requires reaction.Rearm? ==> clk < reaction.clk
      modifies this`acia, this`others
      modifies ctx`numPending, ctx`nextClk, ctx`nextIdx, ctx`pending, ctx.pendingAlarms, ctx.live`pendingIdx
      ensures Valid() && acia.ticks == old(acia.ticks)
      ensures Fires(old(ctx.pending), clk, f) && ctx.pending == React(old(ctx.pending), f)
      ensures if e.Some? then e.value in {TxFire(clk), RxFire(clk, input)}
                              && Enabled(old(acia), e.value) && acia == Apply(g, old(acia), e.value)
              else acia == old(acia)
    {
      hide AlarmContext.Valid, Later, TxAlarm, RxAlarm, Select, Store, Read;
      ghost var m := ctx.pending;
      ghost var s := acia;
      CallbacksKeepContract(g, acia, clk, input);
      ctx.Earliest();
      var due := ctx.nextClk;
      var alarm := ctx.Next();
      e := None;
      if alarm == alarmTx {
        OnTxAlarm(clk);
        TieReact(m, ctx.pending, alarmTx, alarmRx, acia.tx.at, acia.rx.at);
        e := Some(TxFire(clk));
        f := Firing(alarm, due, clk - due, if acia.tx.at.Some? then Rearm(acia.tx.at.value) else Cancel);
      } else if alarm == alarmRx {
        OnRxAlarm(clk, input);
        TieReact(m, ctx.pending, alarmRx, alarmTx, acia.rx.at, acia.tx.at);
        e := Some(RxFire(clk, input));
        f := Firing(alarm, due, clk - due, if acia.rx.at.Some? then Rearm(acia.rx.at.value) else Cancel);
      } else {
        CallOther(alarm, reaction);
        f := Firing(alarm, due, clk - due, reaction);
      }
    }
  }

  lemma EmptyRun(g: Config, s: Acia)
    ensures DeviceRun(g, [s], [])
  {
  }

  lemma RunExtends(g: Config, ss: seq<Acia>, es: seq<BusEvent>, s: Acia, e: BusEvent)
    requires DeviceRun(g, ss, es) && Enabled(ss[|es|], e) && s == Apply(g, ss[|es|], e)
    ensures DeviceRun(g, ss + [s], es + [e])
  {
    hide Apply, Enabled;
  }

  function Initial(): Acia {
    var off := Timer(false, 0, None);
    Acia(Regs(0, 0, 0, 0, 0, 0, 0, 0), NO_TRANSMIT, 21111, Wire(false, false, false),
         off, off, Interrupt(false, false), [])
  }

  ghost predicate Tied<A>(m: map<A, CLOCK>, a: A, at: Option<CLOCK>) {
    if a in m then at == Some(m[a]) else at == None
  }

  lemma TieSet<A>(m: map<A, CLOCK>, a: A, b: A, at: CLOCK, bt: Option<CLOCK>)
    requires a != b && Tied(m, b, bt)
    ensures Tied(m[a := at], a, Some(at)) && Tied(m[a := at], b, bt)
    ensures m[a := at] - {a, b} == m - {a, b} && m[a := at] - {b, a} == m - {b, a}
  {
  }

  lemma TieUnset<A>(m: map<A, CLOCK>, a: A, b: A, bt: Option<CLOCK>)
    requires a != b && Tied(m, b, bt)
    ensures Tied(m - {a}, a, None) && Tied(m - {a}, b, bt)
    ensures m - {a} - {a, b} == m - {a, b} && m - {a} - {b, a} == m - {b, a}
  {
  }

  /** Only `a` changed: the map is the old one with `a` moved or removed. */
  lemma TieReact<A>(m: map<A, CLOCK>, n: map<A, CLOCK>, a: A, b: A, at: Option<CLOCK>, bt: Option<CLOCK>)
    requires a != b && (m - {a, b} == n - {a, b} || m - {b, a} == n - {b, a})
    requires Tied(m, b, bt) && Tied(n, b, bt) && Tied(n, a, at)
    ensures n == if at.Some? then m[a := at.value] else m - {a}
  {
    var k := if at.Some? then m[a := at.value] else m - {a};
    forall c | c in n ensures c in k && k[c] == n[c] {
      assert c != a && c != b ==> c in n - {a, b} && c in n - {b, a};
    }
    forall c | c in k ensures c in n {
      assert c != a && c != b ==> c in m - {a, b} && c in m - {b, a};
    }
  }
}
