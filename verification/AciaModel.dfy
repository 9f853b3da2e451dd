/**
 The ACIA 6551 as a value: its registers, its two alarms, the CPU interrupt line
 and what it has handed to the RS232 driver.  `AciaDevice` (AciaDevice.dfy) is
 proved to compute exactly these functions on the alarm scheduler.
 */
module AciaModel {
  import opened AlarmModel

  // Status register.
  const SR_PARITY_ERROR: bv8 := 0x01
  const SR_FRAMING_ERROR: bv8 := 0x02
  const SR_OVERRUN: bv8 := 0x04
  const SR_RECEIVE_FULL: bv8 := 0x08
  const SR_TRANSMIT_EMPTY: bv8 := 0x10
  const SR_DCD: bv8 := 0x20
  const SR_DSR: bv8 := 0x40
  const SR_IRQ: bv8 := 0x80

  // Command register.
  const CMD_PARITY_TYPE: bv8 := 0xc0
  const CMD_PARITY_ENABLED: bv8 := 0x20
  const CMD_TRANSMITTER: bv8 := 0x0c
  const CMD_NO_RTS: bv8 := 0x00
  const CMD_TX_WITH_IRQ: bv8 := 0x04
  const CMD_IRQ_DISABLED: bv8 := 0x02
  const CMD_DTR: bv8 := 0x01

  // Control register.
  const CTRL_2_STOP: bv8 := 0x80
  const CTRL_WORD_LENGTH: bv8 := 0x60
  const CTRL_BPS: bv8 := 0x0f

  predicate Has(x: bv8, bits: bv8) { x & bits != 0 }
  function Raise(x: bv8, bits: bv8): bv8 { x | bits }
  function Clear(x: bv8, bits: bv8): bv8 { x & !bits }
  function Keep(x: bv8, bits: bv8): bv8 { x & bits }

  // Transmitter states; the TX alarm counts them down.
  const NO_TRANSMIT := 0
  const TX_STARTED := 1
  const DR_WRITTEN := 2

  datatype Mode = Normal | SwiftLink | Turbo232
  datatype Option<T> = None | Some(value: T)
  datatype Sent = Sent(clk: CLOCK, byte: bv8)

  /** What stays fixed while the device runs. */
  datatype Config = Config(
    mode: Mode,
    cyclesPerSecond: real,
    /** false for interrupt type "none" */
    interrupts: bool,
    /** the driver keeps the connection open by itself */
    ip232: bool,
    /** DCD is reported through DSR (C64 and C128 machines) */
    dcdIsDsr: bool)

  /** The registers and data latches the CPU sees. */
  datatype Regs = Regs(
    cmd: bv8, ctrl: bv8, ectrl: bv8, status: bv8, rxdata: bv8, txdata: bv8, datamask: bv8, lastRead: bv8)

  /** The device's note of an alarm, and when the scheduler will really call back. */
  datatype Timer = Timer(active: bool, clk: CLOCK, at: Option<CLOCK>)

  /** The device's note of its interrupt, and the CPU's interrupt line. */
  datatype Interrupt = Interrupt(flag: bool, line: bool)

  /** Connection to the RS232 driver. */
  datatype Wire = Wire(open: bool, rts: bool, dtr: bool)

  /** `sent` logs the bytes handed to the driver. */
  datatype Acia = Acia(
    r: Regs, inTx: nat, ticks: int, wire: Wire, tx: Timer, rx: Timer, int_: Interrupt, sent: seq<Sent>)

  // ------------------------------------------------------------ character time

  function Bps(mode: Mode, ctrl: bv8, ectrl: bv8): (r: real)
    ensures 10.0 <= r <= 230400.0
  {
    match mode
    case Normal => Rate(ctrl & CTRL_BPS)
    case SwiftLink => Rate(ctrl & CTRL_BPS) * 2.0
    case Turbo232 =>
      if !Has(ctrl, CTRL_BPS) then
        match ectrl & 0x03
        case 0 => 230400.0
        case 1 => 115200.0
        case 2 => 57600.0
        case _ => 28800.0
      else Rate(ctrl & CTRL_BPS) * 2.0
  }

  function Rate(n: bv8): (r: real)
    ensures 10.0 <= r <= 19200.0
  {
    match n
    case 0 => 10.0
    case 1 => 50.0
    case 2 => 75.0
    case 3 => 109.92
    case 4 => 134.58
    case 5 => 150.0
    case 6 => 300.0
    case 7 => 600.0
    case 8 => 1200.0
    case 9 => 1800.0
    case 10 => 2400.0
    case 11 => 3600.0
    case 12 => 4800.0
    case 13 => 7200.0
    case 14 => 9600.0
    case _ => 19200.0
  }

  function WordLength(ctrl: bv8): (n: nat)
    ensures 5 <= n <= 8
  {
    if ctrl & CTRL_WORD_LENGTH == 0x00 then 8
    else if ctrl & CTRL_WORD_LENGTH == 0x20 then 7
    else if ctrl & CTRL_WORD_LENGTH == 0x40 then 6
    else 5
  }

  function DataMask(ctrl: bv8): bv8 {
    match WordLength(ctrl)
    case 8 => 0xff
    case 7 => 0xff >> 1
    case 6 => 0xff >> 2
    case _ => 0xff >> 3
  }

  /** Start bit, data bits, optional parity bit and stop bits. */
  function BitTimes(ctrl: bv8, cmd: bv8): (n: nat)
    ensures 7 <= n <= 12
  {
    WordLength(ctrl) + 1
    + (if Has(cmd, CMD_PARITY_ENABLED) then 1 else 0)
    + (if Has(ctrl, CTRL_2_STOP) then 2 else 1)
  }

  function Ticks(g: Config, ctrl: bv8, ectrl: bv8, cmd: bv8): int {
    (g.cyclesPerSecond / Bps(g.mode, ctrl, ectrl) * BitTimes(ctrl, cmd) as real).Floor
  }

  /** Clock arithmetic is unsigned 64-bit and wraps. */
  function Later(clk: CLOCK, n: int): CLOCK {
    if 0 <= clk + n <= CLOCK_MAX then clk + n else (clk + n) % (CLOCK_MAX + 1)
  }

  // ------------------------------------------------------------------- actions

  function SetInt(g: Config, i: Interrupt, on: bool): Interrupt {
    Interrupt(on, if g.interrupts then on else i.line)
  }

  function Armed(at: CLOCK): Timer {
    Timer(true, at, Some(at))
  }

  function Disarmed(t: Timer): Timer {
    t.(active := false, at := None)
  }

  /** Recompute the character time; a running receiver starts over with it. */
  function SetTicks(g: Config, s: Acia, clk: CLOCK): Acia {
    var ticks := Ticks(g, s.r.ctrl, s.r.ectrl, s.r.cmd);
    s.(r := s.r.(datamask := DataMask(s.r.ctrl)),
       ticks := ticks,
       rx := if s.rx.active then Armed(Later(clk, ticks)) else s.rx)
  }

  function Transmitter(cmd: bv8): bv8 {
    Keep(cmd, CMD_TRANSMITTER)
  }

  function SetHandshakeLines(g: Config, s: Acia, clk: CLOCK): (t: Acia)
    ensures t.ticks == s.ticks || t.ticks == Ticks(g, t.r.ctrl, t.r.ectrl, t.r.cmd)
  {
    var dtr := Has(s.r.cmd, CMD_DTR);
    if Transmitter(s.r.cmd) == CMD_NO_RTS then
      var t := s.(wire := s.wire.(rts := false, dtr := dtr));
      // the receiver finishes its character, the transmitter stops at once
      if s.rx.active then t.(rx := s.rx.(active := false), tx := Disarmed(s.tx)) else t
    else
      var t := s.(wire := s.wire.(rts := true, dtr := dtr));
      var u := if !s.rx.active then SetTicks(g, t.(rx := s.rx.(active := true)), clk) else t;
      if !s.tx.active then u.(tx := Armed(Later(clk, u.ticks))) else u
  }

  function Reset(g: Config, s: Acia, clk: CLOCK): Acia {
    var t := SetTicks(g, s.(r := s.r.(cmd := 0, ctrl := 0, ectrl := 0)), clk);
    t.(r := t.r.(status := Raise(Keep(t.r.status, SR_DSR), SR_DCD | SR_TRANSMIT_EMPTY)),
       inTx := NO_TRANSMIT, wire := Wire(false, false, false),
       tx := Disarmed(t.tx), rx := Disarmed(t.rx), int_ := SetInt(g, t.int_, false))
  }

  // ----------------------------------------------------------- register access

  datatype Register = DR | SR | CMD | CTRL | NDEF | ECTRL

  function Select(mode: Mode, addr: bv16): Register {
    match addr & (if mode == Turbo232 then 7 else 3)
    case 0 => DR
    case 1 => SR
    case 2 => CMD
    case 3 => CTRL
    case 7 => ECTRL
    case _ => NDEF
  }

  function StoreDR(s: Acia, clk: CLOCK, byte: bv8): Acia {
    if !Has(s.r.cmd, CMD_DTR) then s.(r := s.r.(txdata := byte))
    else
      s.(r := s.r.(txdata := byte, status := Clear(s.r.status, SR_TRANSMIT_EMPTY)),
         inTx := DR_WRITTEN,
         tx := if s.tx.active then s.tx else Armed(Later(clk, 1)))
  }

  /** Writing the status register is a programmed reset. */
  function StoreSR(g: Config, s: Acia, clk: CLOCK): (t: Acia)
    ensures t.ticks == s.ticks || t.ticks == Ticks(g, t.r.ctrl, t.r.ectrl, t.r.cmd)
  {
    var u := s.(r := s.r.(status := Clear(s.r.status, SR_OVERRUN),
                          cmd := Keep(s.r.cmd, CMD_PARITY_TYPE | CMD_PARITY_ENABLED)),
                wire := s.wire.(open := s.wire.open && g.ip232),
                inTx := NO_TRANSMIT, int_ := SetInt(g, s.int_, false), tx := Disarmed(s.tx));
    SetHandshakeLines(g, u, clk)
  }

  function StoreCTRL(g: Config, s: Acia, clk: CLOCK, byte: bv8): Acia {
    SetTicks(g, s.(r := s.r.(ctrl := byte)), clk)
  }

  /** Raising DTR opens the device and starts the receiver. */
  function OpenDevice(g: Config, s: Acia, clk: CLOCK, opens: bool): (t: Acia)
    ensures t.ticks == s.ticks || t.ticks == Ticks(g, t.r.ctrl, t.r.ectrl, t.r.cmd)
  {
    var t := SetTicks(g, s.(wire := s.wire.(open := opens), rx := s.rx.(active := true)), clk);
    if Transmitter(s.r.cmd) == CMD_TX_WITH_IRQ then t.(tx := Armed(Later(clk, t.ticks)), inTx := NO_TRANSMIT) else t
  }

  /** `opens`: whether the driver, asked to open its device, succeeds. */
  function StoreCMD(g: Config, s: Acia, clk: CLOCK, byte: bv8, opens: bool): (t: Acia)
    ensures t.ticks == s.ticks || t.ticks == Ticks(g, t.r.ctrl, t.r.ectrl, t.r.cmd)
  {
    var t := s.(r := s.r.(cmd := byte));
    var u :=
      if Has(byte, CMD_DTR) && !s.wire.open then OpenDevice(g, t, clk, opens)
      else if s.wire.open && !Has(byte, CMD_DTR) && !g.ip232 then
        t.(wire := t.wire.(open := false), tx := Disarmed(t.tx))
      else t;
    SetHandshakeLines(g, u, clk)
  }

  function StoreECTRL(g: Config, s: Acia, clk: CLOCK, byte: bv8): Acia {
    if !Has(s.r.ctrl, CTRL_BPS) then SetTicks(g, s.(r := s.r.(ectrl := byte)), clk) else s
  }

  function Store(g: Config, s: Acia, clk: CLOCK, addr: bv16, byte: bv8, opens: bool): Acia {
    match Select(g.mode, addr)
    case DR => StoreDR(s, clk, byte)
    case SR => StoreSR(g, s, clk)
    case CTRL => StoreCTRL(g, s, clk, byte)
    case CMD => StoreCMD(g, s, clk, byte, opens)
    case ECTRL => StoreECTRL(g, s, clk, byte)
    case NDEF => s
  }

  /** Status as read: the modem lines are sampled first. */
  function ModemStatus(g: Config, status: bv8, dcd: bool, dsr: bool): bv8 {
    var t := Clear(status, SR_DCD | SR_DSR);
    var u := if dcd then t else Raise(t, if g.dcdIsDsr then SR_DSR else SR_DCD);
    if dsr then u else Raise(u, SR_DSR)
  }

  const SR_CLEARED_BY_READ: bv8 := SR_OVERRUN | SR_PARITY_ERROR | SR_FRAMING_ERROR | SR_RECEIVE_FULL

  /** A register read: the new state and the byte read. */
  function Read(g: Config, s: Acia, addr: bv16, dcd: bool, dsr: bool): (Acia, bv8) {
    match Select(g.mode, addr)
    case DR => (s.(r := s.r.(status := Clear(s.r.status, SR_CLEARED_BY_READ), lastRead := s.r.rxdata)), s.r.rxdata)
    case SR =>
      var status := ModemStatus(g, s.r.status, s.wire.open && dcd, s.wire.open && dsr);
      var c := Raise(status, if s.int_.flag then SR_IRQ else 0);
      (s.(r := s.r.(status := status, lastRead := c), int_ := SetInt(g, s.int_, false)), c)
    case CTRL => (s.(r := s.r.(lastRead := s.r.ctrl)), s.r.ctrl)
    case CMD => (s.(r := s.r.(lastRead := s.r.cmd)), s.r.cmd)
    case NDEF => (s, 0xff)
    case ECTRL => (s, s.r.ectrl + (if !Has(s.r.ctrl, CTRL_BPS) then 0x04 else 0))
  }

  // ------------------------------------------------------------ alarm callbacks

  function TxAlarm(g: Config, s: Acia, clk: CLOCK): Acia {
    var sends := s.inTx == DR_WRITTEN && s.wire.open;
    var raises := Transmitter(s.r.cmd) == CMD_TX_WITH_IRQ;
    var inTx := if s.inTx != NO_TRANSMIT then s.inTx - 1 else s.inTx;
    s.(sent := if sends then s.sent + [Sent(clk, Keep(s.r.txdata, s.r.datamask))] else s.sent,
       r := if sends then s.r.(status := Raise(s.r.status, SR_TRANSMIT_EMPTY)) else s.r,
       int_ := if raises then SetInt(g, s.int_, true) else s.int_,
       inTx := inTx,
       tx := if inTx != NO_TRANSMIT || raises then Armed(Later(clk, s.ticks)) else Disarmed(s.tx))
  }

  /** The data register or the overrun bit. */
  function LatchedOrDiscarded(r: Regs, byte: bv8): Regs {
    if !Has(r.status, SR_RECEIVE_FULL) then r.(rxdata := Keep(byte, r.datamask))
    else r.(status := Raise(r.status, SR_OVERRUN))
  }

  /** A byte taken from the driver: latched, or discarded on overrun. */
  function Receive(r: Regs, byte: bv8): Regs {
    var t := LatchedOrDiscarded(r, byte);
    t.(status := Raise(t.status, SR_RECEIVE_FULL))
  }

  /** `input`: the byte the driver has for us, if any. */
  function RxAlarm(g: Config, s: Acia, clk: CLOCK, input: Option<bv8>): Acia {
    var takes := s.wire.open && input.Some?;
    s.(r := if takes then Receive(s.r, input.value) else s.r,
       int_ := if takes && !Has(s.r.cmd, CMD_IRQ_DISABLED) then SetInt(g, s.int_, true) else s.int_,
       rx := if s.rx.active then Armed(Later(clk, s.ticks)) else s.rx.(at := None))
  }
}
