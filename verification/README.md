# VICE: scheduler, CPU cores and ACIA

A Dafny model of three connected parts of VICE, and proofs about them.

**The alarm scheduler.** An unordered array of pending alarms, each alarm holding
its slot number, a cached earliest clock with its slot, and an intrusive doubly
linked list of all alarms. `AlarmModel` has the table as a value and proves that
it refines a map from alarms to clocks; `AlarmDispatch` has the polling loop over
callbacks known only by their contract, and what it means over whole runs;
`AlarmWarp` has the time warp as a symmetry; `AlarmContext` has the classes, array
and pointers, proved to compute exactly these.

**The CPU cores.** `Cpu` says what each 6510 instruction does to registers, a whole
status register, flat memory and the clock. `Core6510` and `CoreDtv` are the two
implementations in place, with lazily kept N and Z flags, one charging cycles in
lumps and one per access; `Switch6510` and `SwitchDtv` are their opcode switches,
arm by arm. Both are proved against the reference, macro by macro, so that every
program with any interrupts runs alike on both (`CpuRuns`), and alike whichever way
opcodes are fetched (`CpuFetch`). What each opcode does is stated once more without the
reference's functions, by the bits of the opcode and in plain arithmetic (`OpcodeBits`,
`OpcodeLaws`). `StackNest` proves that nested use of the stack
restores everything. `Decimal` and `DecimalChain` have the additions and
subtractions of four cores, and decimal arithmetic on numbers of any length.
`Switch65816` has the 65816's opcode switch, `Model65816` what its instructions do to
registers, flags and memory, with what is computed or loaded left open, and `Core65816`
the core in place, proved to do exactly that and to keep its mode invariant over any
program; `Laws65816` says the same opcode by opcode in plain arithmetic, and which
runs keep the register widths. `BlockMove` has the restartable block moves.

**The ACIA 6551.** `AciaModel` has the device as a value, `AciaRuns` the coupling
between its own notes, the scheduler and the CPU line over any run, `AciaTraffic`
what it sends and receives, `AciaLaws` when it interrupts, its status bits, lines,
speeds and timers in plain terms, and `AciaDevice` the device in place on the real
scheduler, with the polling loop of a machine that has this device and others.

Where code and comments or documentation differ, the code is followed: ties between
alarms are not served first-in first-out, because rescanning compares with `<=`
(`vice/src/alarm.h:123`) and adding with `<` (`vice/src/alarm.h:172`).

Some properties one would expect are false, and the model says exactly when. The
65C02 decimal subtraction differs from the others exactly when the low digits of its
operands are more than ten apart (`Arithmetic.SubtractionsAgree`). In 65816 emulation
mode RTL does not undo JSL, nor PLD PHD, when the bytes straddle the bottom of page
one, unless memory happens to hold the right ones (`Core65816s.LongCallReturns`,
`Core65816s.DirectReturns`). A block move does not copy its block when the destination
leads into the rest of the source, unless the block repeats itself
(`BlockMoves.ArrivesIffRepeats`). The ACIA's receive alarm is pending without an active
receiver after certain register writes (`AciaRuns.ConverseIffNotStranded`), and a byte
waiting to be sent can be left without an alarm (`AciaTraffic.StuckIffStopped`).
Unsetting an alarm does not commute with a time warp when it empties the table
(`AlarmWarp.UnsetCommutes`).

`dafny verify dfyconfig.toml` checks the project.

## Model

| member | source | states |
|---|---|---|
| AlarmModel.Scan | vice/src/alarm.h:112-131 | the scan finds the smallest clock and the LAST slot holding it; over no slots, the sentinel and the slot number unchanged |
| AlarmModel.Rescan | vice/src/alarm.h:112-131 | a rescan leaves the table alone and makes the cache right |
| AlarmModel.RemoveAt | vice/src/alarm.c:182-193 | removal moves the last entry into the hole |
| AlarmModel.NextIsEarliest | vice/src/alarm.h:108-111 | the cached clock is the minimum over the pending alarms and the cached slot names one due then |
| AlarmModel.SlotCount | vice/src/alarm.h:155-177 | as many slots are in use as alarms are pending |
| AlarmModel.SetLinked | vice/src/alarm.h:148-187 | setting keeps slots and back-indices mutual inverses and the cache right |
| AlarmModel.SetRefines | vice/src/alarm.h:148-187 | alarm_set keeps the whole invariant and is an update of the map from alarms to clocks; only a full table drops a new alarm |
| AlarmModel.UnsetLinked | vice/src/alarm.c:167-207 | unsetting keeps slots and back-indices mutual inverses |
| AlarmModel.UnsetCached | vice/src/alarm.c:167-207 | unsetting keeps the cache right, also when the cached or the last slot moves |
| AlarmModel.UnsetPending | vice/src/alarm.c:167-207 | unsetting leaves every other alarm at its clock |
| AlarmModel.UnsetRefines | vice/src/alarm.c:167-207 | alarm_unset keeps the whole invariant and removes exactly its own alarm from the map |
| AlarmDispatch.CallShrinksDue | vice/src/6510core.c:122-126 | every callback that keeps its contract leaves one alarm fewer due, so the polling loop ends |
| AlarmDispatch.DueFiresOnce | vice/src/6510core.c:122-126 | an alarm that is due is called exactly once, for the clock it was set to, with the time passed since, and ends as its callback chose |
| AlarmDispatch.OthersUntouched | vice/src/6510core.c:122-126 | an alarm that is not due is neither called nor moved |
| AlarmDispatch.InOrder | vice/src/6510core.c:122-126 | calls come in non-decreasing order of scheduled time |
| AlarmDispatch.NeverEarly | vice/src/alarm.h:133-146 | over any run of sets, unsets and polls, an alarm left alone stays pending and uncalled until a poll reaches its time |
| AlarmDispatch.NeverMissed | vice/src/alarm.h:133-146 | and is called, once, at the first poll at or after its time, with that clock less the scheduled one as offset |
| AlarmWarp.WarpMovesPending | vice/src/alarm.c:79-101 | warping moves every pending alarm by the amount, up or down as the direction says, exactly if all fit and modulo 2^64 otherwise; who is pending, and in which slot, stays |
| AlarmWarp.ShiftKeepsOrder | vice/src/alarm.c:79-101 | a shift without overflow keeps order and distances |
| AlarmWarp.WarpBack | vice/src/alarm.c:79-101 | warping by d and then by -d is the identity, even through wrap-around |
| AlarmWarp.WarpKeepsInv | vice/src/alarm.c:79-101 | with something pending and no overflow, warping keeps the scheduler invariant |
| AlarmWarp.WarpEmpty | vice/src/alarm.c:96-100 | with nothing pending the sentinel itself is shifted: the invariant survives exactly when the shift is nil |
| AlarmWarp.ScanShifts | vice/src/alarm.c:79-101 | a scan of the shifted table finds the same slot and the shifted clock |
| AlarmWarp.RescanShifts | vice/src/alarm.c:79-101 | rescanning commutes with warping |
| AlarmWarp.SetCommutes | vice/src/alarm.c:79-101 | setting commutes with warping, the clock set being later or earlier by the amount |
| AlarmWarp.UnsetCommutes | vice/src/alarm.c:79-101 | unsetting commutes with warping exactly unless it empties the table under a real shift |
| AlarmWarp.UnsetShifts | vice/src/alarm.c:79-101 | removal from a table of two or more commutes with warping |
| AlarmWarp.DispatchCommutes | vice/src/alarm.h:133-146 | a poll later or earlier by the amount calls the same alarm with the same offset |
| AlarmWarp.ShiftMoves | vice/src/alarm.c:79-101 | a warped clock moves by the amount, up for a direction above zero and down for one below, modulo 2^64, and exactly if it stays in range |
| AlarmContexts.Alarm.constructor | vice/src/alarm.c:105-113 | a new alarm is not pending |
| AlarmContexts.AlarmContext.RoomFor | vice/src/alarm.h:161-165 | with at most 256 live alarms no alarm is refused for lack of a slot |
| AlarmContexts.AlarmContext.constructor | vice/src/alarm.c:49-57 | an empty context; the cached slot number is left undefined |
| AlarmContexts.AlarmContext.UpdateNextPending | vice/src/alarm.h:112-131 | the scanning loop computes the pure rescan |
| AlarmContexts.AlarmContext.Add | vice/src/alarm.h:155-177 | adding in place is the pure addition |
| AlarmContexts.AlarmContext.Modify | vice/src/alarm.h:178-186 | rescheduling in place is the pure update |
| AlarmContexts.AlarmContext.SetSlot | vice/src/alarm.h:148-187 | alarm_set in place computes the pure set |
| AlarmContexts.AlarmContext.SetAlarm | vice/src/alarm.h:148-187 | alarm_set keeps the context valid and updates the map from alarms to clocks |
| AlarmContexts.AlarmContext.MoveLast | vice/src/alarm.c:182-193 | the last entry and its back-index move into the hole |
| AlarmContexts.AlarmContext.RepairCache | vice/src/alarm.c:195-199 | the cache is rescanned or follows the moved entry |
| AlarmContexts.AlarmContext.Remove | vice/src/alarm.c:179-199 | removal in place is the pure removal |
| AlarmContexts.AlarmContext.UnsetSlot | vice/src/alarm.c:167-207 | alarm_unset in place computes the pure unset |
| AlarmContexts.AlarmContext.Clear | vice/src/alarm.c:200-204 | removing the only pending alarm resets the cache |
| AlarmContexts.AlarmContext.UnsetAlarm | vice/src/alarm.c:167-207 | alarm_unset keeps the context valid and removes exactly its own alarm |
| AlarmContexts.AlarmContext.Link | vice/src/alarm.c:105-125 | linking in front keeps next and prev mutual inverses |
| AlarmContexts.AlarmContext.NewAlarm | vice/src/alarm.c:105-137 | alarm_new prepends a fresh alarm to the list and leaves the scheduler alone |
| AlarmContexts.AlarmContext.Unlink | vice/src/alarm.c:149-160 | unlinking a head, middle or tail keeps the list acyclic and doubly linked |
| AlarmContexts.AlarmContext.Detach | vice/src/alarm.c:149-160 | unlinking an alarm that is not pending keeps the context valid |
| AlarmContexts.AlarmContext.DestroyAlarm | vice/src/alarm.c:139-165 | alarm_destroy removes the alarm from the list and from the pending ones; null is ignored |
| AlarmContexts.AlarmContext.DestroyAll | vice/src/alarm.c:59-77 | the walk ends, having freed every live alarm exactly once, in list order |
| AlarmContexts.AlarmContext.WarpSlots | vice/src/alarm.c:79-101 | the loop over the table computes the pure warp, whose distance is `AlarmWarp.ShiftMoves` |
| AlarmContexts.AlarmContext.TimeWarp | vice/src/alarm.c:79-101 | every pending alarm moves by the amount if all fit; the context stays valid exactly when the warped table keeps the invariant |
| AlarmContexts.AlarmContext.Earliest | vice/src/alarm.h:108-111 | the cached clock is the earliest one pending |
| AlarmContexts.AlarmContext.Next | vice/src/alarm.h:139-143 | the alarm to call back is the one in the cached slot |
| AlarmContexts.AlarmContext.Dispatch | vice/src/alarm.h:133-146 | one callback: that of the cached slot, the offset it is told, and what it does to the map |
| AlarmContexts.AlarmContext.ProcessAlarms | vice/src/6510core.c:122-126 | the polling loop ends with nothing due, having made a complete sequence of calls |
| AciaModel.Bps | vice/src/aciacore.c:347-367 | the speed lies between 10 and 230400 bits per second at every setting |
| AciaModel.Rate | vice/src/aciacore.c:201-217 | so do the sixteen standard rates, up to 19200 |
| AciaModel.WordLength | vice/src/aciacore.c:381-404 | five to eight data bits |
| AciaModel.BitTimes | vice/src/aciacore.c:374-427 | a character takes 7 to 12 bit times |
| AciaModel.SetHandshakeLines | vice/src/aciacore.c:596-635 | the character time stays or becomes that of the registers |
| AciaModel.StoreSR | vice/src/aciacore.c:972-995 | a programmed reset leaves the character time that of the registers or as it was |
| AciaModel.OpenDevice | vice/src/aciacore.c:1002-1013 | opening the device starts from the registers' character time |
| AciaModel.StoreCMD | vice/src/aciacore.c:1000-1023 | so does a write to the command register |
| AciaRuns.HandshakeKeepsCoupled | vice/src/aciacore.c:596-635 | setting the handshake lines keeps the coupling |
| AciaRuns.StoreCMDKeepsCoupled | vice/src/aciacore.c:1000-1023 | a command register write keeps the coupling |
| AciaRuns.StoreSRKeepsCoupled | vice/src/aciacore.c:972-995 | a programmed reset keeps the coupling |
| AciaRuns.StoreOthersKeepCoupled | vice/src/aciacore.c:954-1029 | data, control and enhanced control register writes keep the coupling |
| AciaRuns.StoreKeepsCoupled | vice/src/aciacore.c:935-1030 | every register write, at any address in any mode, keeps the coupling |
| AciaRuns.ReadKeepsCoupled | vice/src/aciacore.c:1043-1101 | every register read keeps the coupling |
| AciaRuns.AlarmsKeepCoupled | vice/src/aciacore.c:1162-1272 | both alarm callbacks keep the coupling |
| AciaRuns.ApplyKeepsCoupled | vice/src/aciacore.c:935-1272 | every event keeps the coupling |
| AciaRuns.AlwaysCoupled | vice/src/aciacore.c:422-427 | at every point of every run: the device's note of its transmit alarm agrees with the scheduler, an active receiver has its alarm pending, and the CPU line mirrors acia.irq |
| AciaRuns.ResetCouples | vice/src/aciacore.c:677-714 | a hardware reset establishes the coupling from anywhere, exactly unless a device without interrupts finds its line raised |
| AciaRuns.StaleStoreCMD | vice/src/aciacore.c:1000-1023 | a command write leaves the receive alarm pending without an active receiver exactly if it drops RTS and the alarm was so already, the receiver was active, or the write opens the device |
| AciaRuns.StaleStoreSR | vice/src/aciacore.c:972-995 | a programmed reset does exactly if the alarm was so already or the receiver was active |
| AciaRuns.StaleOthers | vice/src/aciacore.c:954-1029 | other writes and the transmit callback change nothing about it; the receive callback and a hardware reset end it |
| AciaRuns.StaleStep | vice/src/aciacore.c:935-1272 | one event strands the receive alarm, or leaves it stranded unless it recovers it |
| AciaRuns.ConverseIffNotStranded | vice/src/aciacore.c:596-635 | over any run the receive alarm is pending exactly when the receiver is active, unless it was stranded and nothing has recovered it since |
| AciaRuns.ReceiverOutlivesRts | vice/src/aciacore.c:1265-1271 | a stranded receive alarm stays pending for one more firing, which cancels it |
| AciaRuns.TicksPositiveAt | vice/src/aciacore.c:374-427 | at every setting a character takes at least one tick exactly when cycles per second times its bits reach the speed |
| AciaRuns.FastestIsReached | vice/src/aciacore.c:347-367 | the highest speed of each mode, at seven bits |
| AciaRuns.NotFaster | vice/src/aciacore.c:347-367 | no setting of a mode is faster |
| AciaRuns.TicksPositive | vice/src/aciacore.c:374-427 | in each mode every setting gives at least one tick exactly when the machine runs at a seventh of its highest speed: 19200/7, 38400/7 or 230400/7 |
| AciaRuns.TicksAtLeastOne | vice/src/aciacore.c:374-427 | 230400/7 cycles per second suffice in every mode |
| AciaRuns.TicksFromRegisters | vice/src/aciacore.c:374-427 | the character time in use is the old one or that of the registers |
| AciaRuns.TicksStayPositive | vice/src/aciacore.c:374-427 | so over any run it stays positive |
| AciaRuns.CallbacksKeepContract | vice/src/aciacore.c:1190-1198 | each callback cancels its own alarm or moves it past the clock, and leaves the other alone |
| AciaTraffic.WriteStep | vice/src/aciacore.c:955-971 | a data write fills the mailbox, arms the alarm and clears TDRE |
| AciaTraffic.TxStep | vice/src/aciacore.c:1162-1199 | a transmit firing hands over what the mailbox holds and empties it |
| AciaTraffic.RxStep | vice/src/aciacore.c:1225-1272 | a receive firing leaves the transmitter alone |
| AciaTraffic.ReadStep | vice/src/aciacore.c:1043-1101 | a register read leaves the transmitter alone |
| AciaTraffic.ReadFrame | vice/src/aciacore.c:1043-1101 | what a register read changes |
| AciaTraffic.TrafficStep | vice/src/aciacore.c:935-1272 | every event of traffic acts on the transmitter as on a one-byte mailbox |
| AciaTraffic.HoldsMailbox | vice/src/aciacore.c:955-971 | over any traffic the transmitter holds exactly what the mailbox does, so a waiting byte always has an armed alarm and a clear TDRE bit |
| AciaTraffic.SendsLatestWrites | vice/src/aciacore.c:1162-1199 | the driver is handed exactly what the mailbox delivers: the latest byte written since the previous firing, masked, once |
| AciaTraffic.NextFiringSends | vice/src/aciacore.c:1162-1199 | a byte written is sent by the next firing unless it is overwritten before |
| AciaTraffic.SendsArePaced | vice/src/aciacore.c:1190-1198 | consecutive bytes are handed over at least one character time apart |
| AciaTraffic.CommandWaits | vice/src/aciacore.c:1000-1023 | a command write gives up a waiting byte exactly if it opens the device with transmit interrupts on |
| AciaTraffic.CommandDisarms | vice/src/aciacore.c:1000-1023 | it leaves the transmit alarm unset exactly if it drops RTS and the alarm was unset, the receiver was active, or the write opens or closes the device |
| AciaTraffic.ResetFate | vice/src/aciacore.c:972-995 | resets of either kind give up a waiting byte |
| AciaTraffic.OtherFates | vice/src/aciacore.c:954-1029 | data, control and enhanced control writes and the callbacks |
| AciaTraffic.FateStep | vice/src/aciacore.c:935-1272 | every event: when a byte waits after it, and when it waits with no alarm to send it |
| AciaTraffic.StuckIffStopped | vice/src/aciacore.c:935-1272 | over any run with any register writes a waiting byte has no alarm to send it exactly if a command write stopped its transmitter and nothing freed it since |
| AciaTraffic.TakenByte | vice/src/aciacore.c:1238-1263 | a byte taken is latched into an empty register, masked, or discarded with OVERRUN set and the latched byte untouched |
| AciaTraffic.StoreSRFrame | vice/src/aciacore.c:972-995 | what a programmed reset changes in the registers |
| AciaTraffic.StoreCMDFrame | vice/src/aciacore.c:1000-1023 | a command write leaves data and status alone |
| AciaTraffic.WriteFrame | vice/src/aciacore.c:935-1030 | no register write changes what is latched, and only a programmed reset clears OVERRUN |
| AciaTraffic.TxFrame | vice/src/aciacore.c:1162-1199 | a transmit firing leaves the receiver alone |
| AciaTraffic.ReceiverFrame | vice/src/aciacore.c:935-1272 | nothing but a data read or a byte taken changes what is latched, and nothing but those and a programmed reset changes OVERRUN |
| AciaTraffic.DRReadEmpties | vice/src/aciacore.c:1069-1073 | a data read returns the latched byte and clears FULL and OVERRUN |
| AciaTraffic.FirstByteIsKept | vice/src/aciacore.c:1238-1263 | since the last data read: the register is full exactly if a byte was taken, it holds the first one taken, and OVERRUN is set exactly if a later one was discarded and no programmed reset followed |
| AciaLaws.InterruptsIffRaised | vice/src/aciacore.c:1177-1180 | over any run acia.irq is set exactly if a byte was taken with CMD bit 1 clear, or a transmit firing came with CMD bits 2-3 at 01 (or it was set at the start), with no status read, programmed reset or hardware reset since; a device with interrupts has the CPU line the same |
| AciaLaws.LineIsFlag | vice/src/aciacore.c:281-293 | so the CPU line is raised exactly while the device has interrupts and acia.irq is set |
| AciaLaws.IrqStep | vice/src/aciacore.c:1256-1259 | one event: acia.irq after it exactly if the event raises it, or it was set and the event does not lower it |
| AciaLaws.StatusRead | vice/src/aciacore.c:1074-1085 | a status read has bit 7 set exactly if acia.irq was, clears it, and shows carrier and data set ready in bits 5 and 6 as the machine wires them |
| AciaLaws.StatusBit7Clear | vice/src/aciacore.c:1074-1085 | the status register itself never holds bit 7 |
| AciaLaws.StatusOfWrites | vice/src/aciacore.c:954-1029 | what each register write does to each bit of the status |
| AciaLaws.StatusOfAlarms | vice/src/aciacore.c:1162-1272 | what the callbacks do to them |
| AciaLaws.StatusOfReads | vice/src/aciacore.c:1043-1101 | what register reads do to them |
| AciaLaws.TransmitEmptyStep | vice/src/aciacore.c:1162-1172 | TDRE is set exactly by a firing that sends and by a hardware reset, cleared exactly by a data write with DTR on |
| AciaLaws.CommandAndControlReadBack | vice/src/aciacore.c:1086-1092 | command and control registers read back what was written, in every mode, at every address |
| AciaLaws.DataAndStatusPlaces | vice/src/aciacore.c:954-995 | a data write is kept for sending, a data read returns what was received, a programmed reset keeps the three parity bits of the command |
| AciaLaws.EnhancedPlaces | vice/src/aciacore.c:1024-1029 | the Turbo232 enhanced register is written only at the external clock setting and reads back with bit 2 telling it |
| AciaLaws.LastRead | vice/src/aciacore.c:1043-1101 | the byte a read-modify-write access writes back is the one read last from the four 6551 registers |
| AciaLaws.WireOfCommand | vice/src/aciacore.c:1000-1023 | a command write opens, closes and drives the lines as CMD bits 0 and 2-3 say |
| AciaLaws.LinesAlwaysFollow | vice/src/aciacore.c:596-635 | over any run from a hardware reset RTS, DTR and the receiver follow the command register |
| AciaLaws.LaterIs | vice/src/aciacore.c:965-967 | alarms are set exactly so many cycles later, modulo 2^64 |
| AciaLaws.CharacterTime | vice/src/aciacore.c:374-427 | the character time is cycles per second over bits per second times bits, rounded down |
| AciaLaws.CharacterBits | vice/src/aciacore.c:374-427 | start bit, 5 to 8 data bits by control bits 5-6, parity by CMD bit 5, stop bits by control bit 7; the mask has as many ones as data bits |
| AciaLaws.Rates | vice/src/aciacore.c:201-217 | the rates grow with their number, and double where they should |
| AciaLaws.Speeds | vice/src/aciacore.c:347-367 | which rate each mode runs at |
| AciaLaws.DataWriteTimer | vice/src/aciacore.c:955-971 | a data write to an idle transmitter arms its alarm one cycle later |
| AciaLaws.FiringTimers | vice/src/aciacore.c:1190-1198 | a firing that re-arms its alarm, transmit or receive, does so exactly one character time later |
| AciaLaws.ControlTimer | vice/src/aciacore.c:996-999 | a control write restarts a running receiver with the new character time |
| AciaLaws.CommandTimers | vice/src/aciacore.c:1000-1023 | a command write with RTS on starts an idle receiver and transmitter one character time later |
| AciaLaws.OpeningTimers | vice/src/aciacore.c:1002-1013 | one that opens the device starts both |
| AciaLaws.ResetLaw | vice/src/aciacore.c:677-714 | what a hardware reset leaves: registers cleared, data set ready kept, nothing scheduled |
| AciaDevices.AciaDevice.constructor | vice/src/aciacore.c:664-676 | two new alarms on the shared scheduler and a closed device |
| AciaDevices.AciaDevice.ArmTx | vice/src/aciacore.c:965-967 | the transmit alarm is set on the scheduler and noted |
| AciaDevices.AciaDevice.DisarmTx | vice/src/aciacore.c:990-993 | the transmit alarm is unset on the scheduler and noted |
| AciaDevices.AciaDevice.ScheduleRx | vice/src/aciacore.c:1266-1267 | the receive alarm is set on the scheduler |
| AciaDevices.AciaDevice.CancelRx | vice/src/aciacore.c:1270 | the receive alarm is unset |
| AciaDevices.AciaDevice.SetAciaTicks | vice/src/aciacore.c:374-427 | recomputes the character time in place and restarts a running receiver |
| AciaDevices.AciaDevice.SetLines | vice/src/aciacore.c:596-635 | acia_set_handshake_lines in place |
| AciaDevices.AciaDevice.SetIrq | vice/src/aciacore.c:281-293 | the CPU line, if the device has interrupts, and the device's own note of it; when they are raised is `AciaLaws.InterruptsIffRaised` |
| AciaDevices.AciaDevice.HardReset | vice/src/aciacore.c:677-714 | myacia_reset in place |
| AciaDevices.AciaDevice.WriteData | vice/src/aciacore.c:955-971 | a data register write in place |
| AciaDevices.AciaDevice.WriteStatus | vice/src/aciacore.c:972-995 | a programmed reset in place |
| AciaDevices.AciaDevice.WriteCommand | vice/src/aciacore.c:1000-1023 | a command register write in place |
| AciaDevices.AciaDevice.StoreOnce | vice/src/aciacore.c:948-1029 | one register write in place, alarms rescheduled on the real scheduler |
| AciaDevices.AciaDevice.StoreRegister | vice/src/aciacore.c:935-1030 | a read-modify-write first writes back the byte read last, one cycle earlier |
| AciaDevices.AciaDevice.ReadRegister | vice/src/aciacore.c:1043-1101 | a register read in place |
| AciaDevices.AciaDevice.OnTxAlarm | vice/src/aciacore.c:1162-1199 | the transmit callback in place |
| AciaDevices.AciaDevice.LatchOrDiscard | vice/src/aciacore.c:1247-1253 | a full receiver discards the byte |
| AciaDevices.AciaDevice.TakeByte | vice/src/aciacore.c:1238-1263 | a byte from the driver |
| AciaDevices.AciaDevice.OnRxAlarm | vice/src/aciacore.c:1225-1272 | the receive callback in place |
| AciaDevices.AciaDevice.CallBack | vice/src/alarm.h:133-146 | whichever alarm is due first is called back, the device's own or another's, within the callback contract |
| AciaDevices.AciaDevice.ProcessAlarms | vice/src/6510core.c:122-126 | the polling loop with this device and others ends with nothing due, and the device has seen exactly the logged firings |
| Arithmetic.AdcLow6510 | vice/src/6510core.c:710-743 | the low digit of the 6510 decimal sum |
| Arithmetic.AdcHigh6510 | vice/src/6510core.c:710-743 | its high digit and carry |
| Arithmetic.AdcLow65C02 | vice/src/65c02core.c:543-575 | the low digit of the 65C02 decimal sum |
| Arithmetic.AdcHigh65C02 | vice/src/65c02core.c:543-575 | its high digit and carry |
| Arithmetic.AdcLow65816 | vice/src/65816core.c:1365-1426 | the low digit of the 65816 decimal sum |
| Arithmetic.AdcHigh65816 | vice/src/65816core.c:1365-1426 | its high digit and carry |
| Arithmetic.SbcLow6510 | vice/src/6510core.c:1579-1608 | the low digit of the 6510 decimal difference |
| Arithmetic.SbcHigh6510 | vice/src/6510core.c:1579-1608 | its high digit |
| Arithmetic.SbcLow65816 | vice/src/65816core.c:2278-2319 | the low digit of the 65816 decimal difference |
| Arithmetic.SbcHigh65816 | vice/src/65816core.c:2278-2319 | its high digit |
| Arithmetic.SbcLow65C02 | vice/src/65c02core.c:1206-1229 | the low digit of the 65C02 decimal difference |
| Arithmetic.SbcHighKept65C02 | vice/src/65c02core.c:1206-1229 | its high digit without a borrow |
| Arithmetic.SbcHighBorrowed65C02 | vice/src/65c02core.c:1206-1229 | its high digit with one borrow |
| Arithmetic.SbcHighTwice65C02 | vice/src/65c02core.c:1206-1229 | its high digit when the low digits are more than ten apart: one less |
| Arithmetic.CarryIsNoBorrow6510 | vice/src/6510core.c:1579-1608 | the 6510 leaves the carry clear exactly on a borrow |
| Arithmetic.CarryIsNoBorrow65C02 | vice/src/65c02core.c:1206-1229 | so does the 65C02 |
| Arithmetic.CarryIsNoBorrow65816 | vice/src/65816core.c:2278-2319 | and the 65816 |
| Arithmetic.ArrRotates | vice/src/6510core.c:813-844 | in binary mode ARR rotates the AND right; carry and overflow tell its two highest bits |
| Arithmetic.ArrCorrectsDigits | vice/src/6510core.c:813-844 | in decimal mode each rotated digit is corrected by 6 exactly when the digit of the AND is 5 or more |
| Arithmetic.AdditionsAgree | vice/src/65c02core.c:543-575 | ADC gives the same accumulator and carry on the 6510, 6510dtv, 65C02 and 65816, for all bytes in both modes |
| Arithmetic.SubtractionsAgree | vice/src/65c02core.c:1206-1229 | SBC does too between 6510 and 65816; the 65C02 agrees exactly when its low digits borrow at most once |
| Arithmetic.WideIsTwoBytes | vice/src/65816core.c:1365-1426 | the 65816 16-bit addition is two chained 8-bit ones, in accumulator and carry, in both modes |
| Arithmetic.AddsExactly6510 | vice/src/6510core.c:710-743 | binary ADC: the sum is exact with the carry worth 256, N and Z describe the result, V says exactly that the signed sum does not fit |
| Arithmetic.AddsExactlyElsewhere | vice/src/65816core.c:1365-1426 | so it is on the 65C02 and 65816 |
| Arithmetic.SubtractsExactly6510 | vice/src/6510core.c:1579-1608 | SBC: N, V, Z and C of the binary difference, which the 6510 uses in decimal mode too |
| Arithmetic.SubtractsExactly65C02 | vice/src/65c02core.c:1206-1229 | so it is on the 65C02 in binary mode |
| Arithmetic.SubtractsExactly65816 | vice/src/65816core.c:2278-2319 | and on the 65816 |
| Arithmetic.DecimalFlags6510 | vice/src/6510core.c:710-743 | decimal ADC on the 6510: Z of the binary sum, N and V of the sum before its high digit is corrected |
| Arithmetic.DecimalAddFlags | vice/src/65c02core.c:543-575 | decimal ADC on the 65C02 and 65816: N and Z describe the result; where their V comes from |
| Arithmetic.DecimalSubFlags | vice/src/65c02core.c:1206-1229 | decimal SBC there: N and Z describe the result |
| DecimalChains.AdcIsExact | vice/src/6510dtvcore.c:700-732 | one byte: the decimal sum is exact, with the carry worth 100 |
| DecimalChains.SbcIsExact | vice/src/6510dtvcore.c:1461-1489 | one byte: the decimal difference is exact, a borrow being worth 100 |
| DecimalChains.AddConserves | vice/src/6510core.c:710-743 | chained additions of n bytes lose nothing: result plus carry times 10^(2n) is the sum |
| DecimalChains.SubConserves | vice/src/6510core.c:1579-1608 | nor do chained subtractions |
| DecimalChains.AddIsExact | vice/src/6510core.c:710-743 | n chained decimal additions give the sum modulo 10^(2n), with the carry set exactly on overflow, on every core |
| DecimalChains.SubIsExact | vice/src/6510core.c:1579-1608 | n chained decimal subtractions give the difference modulo 10^(2n), with the carry set exactly without borrow |
| DecimalChains.SubUndoesAdd | vice/src/6510core.c:1579-1608 | chained subtraction on any core undoes chained addition on any core, digit for digit |
| CpuModel.PeekWrapped | vice/src/mainviccpu.c:197-200 | loads take their address modulo 16 bits |
| CpuModel.PokeWrapped | vice/src/mainviccpu.c:187-190 | so do stores |
| CpuModel.PokeLow | vice/src/mainviccpu.c:187-190 | stores keep the low byte of the value |
| CpuModel.LazyStatus | vice/src/6510core.c:206-207 | the status put together from the lazy flags is that of the eager ones |
| CpuModel.StatusBreak | vice/src/6510core.c:1351-1356 | PHP sets the break bit in the pushed byte only |
| CpuModel.ReadEffectFrame | vice/src/6510core.c:980-989 | reading instructions change registers and flags only |
| CpuModel.ModifyEffectFrame | vice/src/6510core.c:846-860 | so does what read-modify-write instructions compute |
| CpuModel.AdcIgnoresNZ | vice/src/6510dtvcore.c:1400-1414 | the N and Z flags RRA sets before its addition do not matter |
| Core6510s.Core6510.SetNZ | vice/src/6510core.c:133 | one byte kept for both flags is the eager N and Z |
| Core6510s.Core6510.LocalStatus | vice/src/6510core.c:206-207 | the status byte pushed is that of the eager flags |
| Core6510s.Core6510.LocalSetStatus | vice/src/6510core.c:195-197 | setting the status sets every eager flag |
| Core6510s.Core6510.Load | vice/src/6510core.c:499-622 | every read addressing mode: the operand, and the cycles it charges, page crossing included |
| Core6510s.Core6510.Adc | vice/src/6510core.c:710-743 | adds with carry, decimal or binary, with all four flags |
| Core6510s.Core6510.Sbc | vice/src/6510core.c:1579-1608 | subtracts with borrow, decimal or binary, with all four flags |
| Core6510s.Core6510.Arr | vice/src/6510core.c:813-844 | ANDs and rotates, with its own decimal correction |
| Core6510s.Core6510.AndA | vice/src/6510core.c:754-761 | ANDs into A |
| Core6510s.Core6510.Ora | vice/src/6510core.c:1315-1322 | ORs into A |
| Core6510s.Core6510.Eor | vice/src/6510core.c:1079-1086 | XORs into A |
| Core6510s.Core6510.Lda | vice/src/6510core.c:1235-1242 | loads A |
| Core6510s.Core6510.Ldx | vice/src/6510core.c:1244-1250 | loads X |
| Core6510s.Core6510.Ldy | vice/src/6510core.c:1252-1258 | loads Y |
| Core6510s.Core6510.Lax | vice/src/6510core.c:1225-1233 | loads A and X |
| Core6510s.Core6510.Las | vice/src/6510core.c:1215-1223 | ANDs into SP, A and X |
| Core6510s.Core6510.Anc | vice/src/6510core.c:745-752 | ANDs into A and copies N to C |
| Core6510s.Core6510.Asr | vice/src/6510core.c:872-880 | ANDs into A and shifts right |
| Core6510s.Core6510.Ane | vice/src/6510core.c:803-809 | ANDs A (with its magic constant), X and the operand |
| Core6510s.Core6510.Lxa | vice/src/6510core.c:1305-1312 | ANDs A (with its magic constant) and the operand into A and X |
| Core6510s.Core6510.Sbx | vice/src/6510core.c:1610-1620 | subtracts from A AND X into X |
| Core6510s.Core6510.BitTest | vice/src/6510core.c:882-892 | sets N and V from the operand and Z from its AND with A |
| Core6510s.Core6510.Compare | vice/src/6510core.c:980-989 | sets carry and N, Z from a comparison |
| Core6510s.Core6510.Effect | vice/src/6510core.c:710-1680 | every reading macro does its reference effect |
| Core6510s.Core6510.Asl | vice/src/6510core.c:846-860 | shifts left |
| Core6510s.Core6510.Dec | vice/src/6510core.c:1050-1063 | decrements |
| Core6510s.Core6510.Inc | vice/src/6510core.c:1088-1101 | increments |
| Core6510s.Core6510.Lsr | vice/src/6510core.c:1260-1274 | shifts right |
| Core6510s.Core6510.Rol | vice/src/6510core.c:1427-1441 | rotates left |
| Core6510s.Core6510.Ror | vice/src/6510core.c:1454-1471 | rotates right |
| Core6510s.Core6510.Dcp | vice/src/6510core.c:1013-1028 | decrements and compares with A |
| Core6510s.Core6510.Isb | vice/src/6510core.c:1117-1131 | increments and subtracts from A |
| Core6510s.Core6510.Rla | vice/src/6510core.c:1386-1403 | rotates left and ANDs into A |
| Core6510s.Core6510.Rra | vice/src/6510core.c:1483-1502 | rotates right and adds to A |
| Core6510s.Core6510.Slo | vice/src/6510core.c:1699-1717 | shifts left and ORs into A |
| Core6510s.Core6510.Sre | vice/src/6510core.c:1742-1760 | shifts right and XORs into A |
| Core6510s.Core6510.ModifyValue | vice/src/6510core.c:870-1800 | every read-modify-write macro does its reference effect |
| Core6510s.Core6510.StoreAt | vice/src/6510core.c:603-607 | the store functions: where they store and what they charge |
| Core6510s.Core6510.WriteInstruction | vice/src/6510core.c:1784-1792 | a whole STA, STX, STY or SAX is the reference instruction |
| Core6510s.Core6510.StaIndirectY | vice/src/6510core.c:1801-1811 | STA ($nn),Y is the reference instruction |
| Core6510s.Core6510.StoreHigh | vice/src/6510core.c:651-663 | across a page the value becomes the high address byte |
| Core6510s.Core6510.ShAbsolute | vice/src/6510core.c:1644-1651 | SHA, SHX, SHY and SHS are the reference instructions |
| Core6510s.Core6510.ShaIndirectY | vice/src/6510core.c:1653-1670 | SHA ($nn),Y is the reference instruction |
| Core6510s.Core6510.ReadInstruction | vice/src/6510core.c:754-761 | a whole reading instruction is the reference one, cycles included |
| Core6510s.Core6510.LoadFrom | vice/src/6510core.c:515-518 | loads for read-modify-write |
| Core6510s.Core6510.ModifyInstruction | vice/src/6510core.c:846-860 | a whole read-modify-write instruction is the reference one, cycles included |
| Core6510s.Core6510.ModifyIndirectY | vice/src/6510core.c:1719-1740 | so are the indirect indexed ones |
| Core6510s.Core6510.AslA | vice/src/6510core.c:862-870 | shifts A left |
| Core6510s.Core6510.LsrA | vice/src/6510core.c:1276-1284 | shifts A right |
| Core6510s.Core6510.RolA | vice/src/6510core.c:1443-1452 | rotates A left |
| Core6510s.Core6510.RorA | vice/src/6510core.c:1473-1481 | rotates A right |
| Core6510s.Core6510.SetOrClear | vice/src/6510core.c:953-957 | the seven flag instructions |
| Core6510s.Core6510.TransferX | vice/src/6510core.c:1065-1070 | DEX, INX, TAX, TSX |
| Core6510s.Core6510.TransferY | vice/src/6510core.c:1072-1077 | DEY, INY, TAY |
| Core6510s.Core6510.Transfer | vice/src/6510core.c:1868-1873 | TXA, TYA, TXS, NOP |
| Core6510s.Core6510.ImpliedInstruction | vice/src/6510core.c:1342 | every one-byte instruction is the reference one |
| Core6510s.Core6510.Branch | vice/src/6510core.c:895-912 | a branch is that of the reference on the eager flags; which branch tests what is `OpcodeLaws.BranchLaw` |
| Core6510s.Core6510.PushByte | vice/src/6510core.c:354 | a push stores in page one and wraps there |
| Core6510s.Core6510.PushFrame | vice/src/6510core.c:391-482 | PC and status as BRK and interrupts save them |
| Core6510s.Core6510.PullByte | vice/src/6510core.c:357 | a pull wraps in page one |
| Core6510s.Core6510.Jmp | vice/src/6510core.c:1175-1178 | jumps |
| Core6510s.Core6510.JmpInd | vice/src/6510core.c:1180-1188 | jumps through a vector whose high byte wraps in its page |
| Core6510s.Core6510.Jsr | vice/src/6510core.c:1197-1213 | pushes PC+2 and then reads the high byte of its target |
| Core6510s.Core6510.Rts | vice/src/6510core.c:1547-1559 | resumes one past the pulled address |
| Core6510s.Core6510.Rti | vice/src/6510core.c:1534-1545 | restores status and PC |
| Core6510s.Core6510.Brk | vice/src/6510core.c:915-951 | pushes PC+2 and the status with the break bit, masks interrupts and takes the vector |
| Core6510s.Core6510.Pha | vice/src/6510core.c:1344-1349 | pushes A |
| Core6510s.Core6510.Php | vice/src/6510core.c:1351-1356 | pushes the status with the break bit |
| Core6510s.Core6510.Pla | vice/src/6510core.c:1358-1367 | pulls A |
| Core6510s.Core6510.Plp | vice/src/6510core.c:1370-1384 | pulls the status |
| Core6510s.Core6510.Interrupt | vice/src/6510core.c:391-482 | an IRQ or NMI taken: seven cycles, break bit clear, interrupts masked |
| Core6510s.Core6510.FlowInstruction | vice/src/6510core.c:2288-3277 | every stack and control flow instruction is the reference one |
| Core6510s.Core6510.Execute | vice/src/6510core.c:2288-3277 | every arm of the opcode switch does exactly the instruction it means, on the eager view of registers, status, memory and clock |
| CoreDtvs.CoreDtv.SetNZ | vice/src/6510dtvcore.c:57 | one byte kept for both flags is the eager N and Z |
| CoreDtvs.CoreDtv.LocalStatus | vice/src/6510dtvcore.c:117-118 | the status byte pushed is that of the eager flags |
| CoreDtvs.CoreDtv.LocalSetStatus | vice/src/6510dtvcore.c:106-108 | setting the status sets every eager flag |
| CoreDtvs.CoreDtv.GetAbsIndexed | vice/src/6510dtvcore.c:452-456 | an indexed read charges one access more across a page |
| CoreDtvs.CoreDtv.IntIndX | vice/src/6510dtvcore.c:576-585 | the indexed indirect address, after three accesses |
| CoreDtvs.CoreDtv.IntIndY | vice/src/6510dtvcore.c:600-611 | the indirect indexed address, one access more across a page or always |
| CoreDtvs.CoreDtv.Get | vice/src/6510dtvcore.c:425-639 | every read addressing mode: the operand, one cycle per access |
| CoreDtvs.CoreDtv.GetRmw | vice/src/6510dtvcore.c:425-644 | reads for read-modify-write |
| CoreDtvs.CoreDtv.Set | vice/src/6510dtvcore.c:440-651 | every write addressing mode: one store, one cycle per access |
| CoreDtvs.CoreDtv.SetRmw | vice/src/6510dtvcore.c:444-659 | the write back, after the dummy write's cycle |
| CoreDtvs.CoreDtv.Adc | vice/src/6510dtvcore.c:700-732 | adds with carry, decimal or binary, with all four flags |
| CoreDtvs.CoreDtv.Sbc | vice/src/6510dtvcore.c:1461-1489 | subtracts with borrow, decimal or binary, with all four flags |
| CoreDtvs.CoreDtv.Arr | vice/src/6510dtvcore.c:838-869 | ANDs and rotates, with its own decimal correction |
| CoreDtvs.CoreDtv.AndA | vice/src/6510dtvcore.c:742-749 | ANDs into A |
| CoreDtvs.CoreDtv.Ora | vice/src/6510dtvcore.c:1283-1290 | ORs into A |
| CoreDtvs.CoreDtv.Eor | vice/src/6510dtvcore.c:1089-1096 | XORs into A |
| CoreDtvs.CoreDtv.Lda | vice/src/6510dtvcore.c:1191-1196 | loads A |
| CoreDtvs.CoreDtv.Ldx | vice/src/6510dtvcore.c:1191-1196 | loads X |
| CoreDtvs.CoreDtv.Ldy | vice/src/6510dtvcore.c:1191-1196 | loads Y |
| CoreDtvs.CoreDtv.Lax | vice/src/6510dtvcore.c:1183-1189 | loads A and X |
| CoreDtvs.CoreDtv.Las | vice/src/6510dtvcore.c:1174-1181 | ANDs into SP, A and X |
| CoreDtvs.CoreDtv.Anc | vice/src/6510dtvcore.c:734-740 | ANDs into A and copies N to C |
| CoreDtvs.CoreDtv.Asr | vice/src/6510dtvcore.c:890-899 | ANDs into A and shifts right |
| CoreDtvs.CoreDtv.Ane | vice/src/6510dtvcore.c:817-835 | ANDs A (with its magic constant), X and the operand |
| CoreDtvs.CoreDtv.Lxa | vice/src/6510dtvcore.c:1263-1281 | ANDs A (with its magic constant) and the operand into A and X |
| CoreDtvs.CoreDtv.Sbx | vice/src/6510dtvcore.c:1491-1499 | subtracts from A AND X into X |
| CoreDtvs.CoreDtv.BitTest | vice/src/6510dtvcore.c:901-909 | sets N and V from the operand and Z from its AND with A |
| CoreDtvs.CoreDtv.Compare | vice/src/6510dtvcore.c:1043-1052 | sets carry and N, Z from a comparison |
| CoreDtvs.CoreDtv.Effect | vice/src/6510dtvcore.c:700-1505 | every reading macro does its reference effect |
| CoreDtvs.CoreDtv.Asl | vice/src/6510dtvcore.c:871-880 | shifts left |
| CoreDtvs.CoreDtv.Dec | vice/src/6510dtvcore.c:1065-1073 | decrements |
| CoreDtvs.CoreDtv.Inc | vice/src/6510dtvcore.c:1098-1106 | increments |
| CoreDtvs.CoreDtv.Lsr | vice/src/6510dtvcore.c:1198-1207 | shifts right |
| CoreDtvs.CoreDtv.Rol | vice/src/6510dtvcore.c:1354-1363 | rotates left |
| CoreDtvs.CoreDtv.Ror | vice/src/6510dtvcore.c:1375-1388 | rotates right |
| CoreDtvs.CoreDtv.Dcp | vice/src/6510dtvcore.c:1054-1063 | decrements and compares with A |
| CoreDtvs.CoreDtv.Isb | vice/src/6510dtvcore.c:1122-1130 | increments and subtracts from A |
| CoreDtvs.CoreDtv.Rla | vice/src/6510dtvcore.c:1342-1352 | rotates left and ANDs into A |
| CoreDtvs.CoreDtv.Rra | vice/src/6510dtvcore.c:1400-1414 | rotates right and adds to A |
| CoreDtvs.CoreDtv.Slo | vice/src/6510dtvcore.c:1553-1564 | shifts left and ORs into A |
| CoreDtvs.CoreDtv.Sre | vice/src/6510dtvcore.c:1566-1577 | shifts right and XORs into A |
| CoreDtvs.CoreDtv.ModifyValue | vice/src/6510dtvcore.c:850-1545 | every read-modify-write macro does its reference effect |
| CoreDtvs.CoreDtv.ReadInstruction | vice/src/6510dtvcore.c:742-749 | a whole reading instruction is the reference one, cycles included |
| CoreDtvs.CoreDtv.WriteInstruction | vice/src/6510dtvcore.c:1579-1583 | a whole store is the reference instruction |
| CoreDtvs.CoreDtv.StoreHigh | vice/src/6510dtvcore.c:661-681 | across a page the value becomes the high address byte |
| CoreDtvs.CoreDtv.ShAbsolute | vice/src/6510dtvcore.c:1530-1538 | SHA, SHX, SHY and SHS are the reference instructions |
| CoreDtvs.CoreDtv.ShaIndirectY | vice/src/6510dtvcore.c:1523-1528 | SHA ($nn),Y is the reference instruction |
| CoreDtvs.CoreDtv.ModifyInstruction | vice/src/6510dtvcore.c:871-880 | a whole read-modify-write instruction is the reference one, cycles included |
| CoreDtvs.CoreDtv.AslA | vice/src/6510dtvcore.c:882-888 | shifts A left |
| CoreDtvs.CoreDtv.LsrA | vice/src/6510dtvcore.c:1209-1215 | shifts A right |
| CoreDtvs.CoreDtv.RolA | vice/src/6510dtvcore.c:1365-1373 | rotates A left |
| CoreDtvs.CoreDtv.RorA | vice/src/6510dtvcore.c:1390-1398 | rotates A right |
| CoreDtvs.CoreDtv.SetOrClear | vice/src/6510dtvcore.c:995-999 | the seven flag instructions |
| CoreDtvs.CoreDtv.TransferX | vice/src/6510dtvcore.c:1075-1080 | DEX, INX, TAX, TSX |
| CoreDtvs.CoreDtv.TransferY | vice/src/6510dtvcore.c:1082-1087 | DEY, INY, TAY |
| CoreDtvs.CoreDtv.Transfer | vice/src/6510dtvcore.c:1606-1611 | TXA, TYA, TXS, NOP |
| CoreDtvs.CoreDtv.ImpliedInstruction | vice/src/6510dtvcore.c:1292-1296 | every one-byte instruction is the reference one |
| CoreDtvs.CoreDtv.Branch | vice/src/6510dtvcore.c:939-958 | a branch is that of the reference on the eager flags; which branch tests what is `OpcodeLaws.BranchLaw` |
| CoreDtvs.CoreDtv.PushByte | vice/src/6510core.c:354 | a push stores in page one and wraps there |
| CoreDtvs.CoreDtv.PushFrame | vice/src/6510dtvcore.c:275-309 | PC and status as BRK and interrupts save them |
| CoreDtvs.CoreDtv.DoIrqBrk | vice/src/6510dtvcore.c:275-309 | the common end of IRQ and BRK |
| CoreDtvs.CoreDtv.PullByte | vice/src/6510core.c:357 | a pull wraps in page one |
| CoreDtvs.CoreDtv.Jmp | vice/src/6510dtvcore.c:1132-1135 | jumps |
| CoreDtvs.CoreDtv.JmpInd | vice/src/6510dtvcore.c:1137-1145 | jumps through a vector whose high byte wraps in its page |
| CoreDtvs.CoreDtv.Jsr | vice/src/6510dtvcore.c:1154-1172 | pushes PC+2 and then reads the high byte of its target |
| CoreDtvs.CoreDtv.Rts | vice/src/6510dtvcore.c:1437-1452 | resumes one past the pulled address |
| CoreDtvs.CoreDtv.Rti | vice/src/6510dtvcore.c:1420-1435 | restores status and PC |
| CoreDtvs.CoreDtv.Brk | vice/src/6510dtvcore.c:962-970 | pushes PC+2 and the status with the break bit, masks interrupts and takes the vector |
| CoreDtvs.CoreDtv.Pha | vice/src/6510dtvcore.c:1298-1303 | pushes A |
| CoreDtvs.CoreDtv.Php | vice/src/6510dtvcore.c:1305-1310 | pushes the status with the break bit |
| CoreDtvs.CoreDtv.Pla | vice/src/6510dtvcore.c:1312-1322 | pulls A |
| CoreDtvs.CoreDtv.Plp | vice/src/6510dtvcore.c:1324-1340 | pulls the status |
| CoreDtvs.CoreDtv.Nmi | vice/src/6510dtvcore.c:320-346 | an NMI taken: seven cycles, break bit clear, interrupts masked |
| CoreDtvs.CoreDtv.Irq | vice/src/6510dtvcore.c:347-365 | an IRQ taken: the same through its own vector |
| CoreDtvs.CoreDtv.FlowInstruction | vice/src/6510dtvcore.c:1743-2688 | every stack and control flow instruction is the reference one |
| CoreDtvs.CoreDtv.Execute | vice/src/6510dtvcore.c:1743-2688 | every arm of the opcode switch does exactly the instruction it means, on the eager view of registers, status, memory and clock |
| Switch6510.ClkAddsUp | vice/src/6510core.c:60-80 | the cycle constants of an arm add up to what the instruction takes |
| Switch6510.WriteTarget | vice/src/6510core.c:2288-3277 | address argument and store function of an arm reach the address of its mode |
| Switch6510.ModifyTarget | vice/src/6510core.c:2288-3277 | so do the load and store functions of a read-modify-write arm |
| SwitchRows.SwitchesAgree | vice/src/6510dtvcore.c:1743-2688 | for all 256 opcodes both switches select the same instruction, or both jam; fetch_tab is 1 exactly for the arms that use the third byte |
| CpuRuns.Boundary6510 | vice/src/6510core.c:2166-3277 | an instruction or interrupt on the 6510 core is one step of the reference |
| CpuRuns.BoundaryDtv | vice/src/6510dtvcore.c:1660-2688 | an instruction or interrupt on the 6510dtv core is one step of the reference |
| CpuRuns.Run6510 | vice/src/6510core.c:2288-3277 | any program under any sequence of interrupts runs on the 6510 core as on the reference with eager flags |
| CpuRuns.RunDtv | vice/src/6510dtvcore.c:1743-2688 | so it does on the 6510dtv core |
| CpuRuns.Lockstep | vice/src/6510dtvcore.c:1743-2688 | started equal, the two cores end equal in registers, status, memory and cycles |
| CpuRuns.StatusRoundTrip | vice/src/6510core.c:195-207 | setting the status and reading it back returns the byte with only the unused bit forced on, and no flag is lost the other way round |
| OpcodeRows.SwitchFollowsBits | vice/src/6510core.c:2288-3277 | all 256 arms of the opcode switch are those that the bits aaabbbcc of the opcode name |
| OpcodeLaws.BranchesByName | vice/src/6510core.c:2288-3277 | one step at each branch opcode: BPL to PC+2 plus the signed operand exactly if N is clear, BMI exactly if it is set, and so on for V, C and Z; otherwise to PC+2 |
| OpcodeLaws.BranchLaw | vice/src/6510core.c:895-912 | the flag and its value by the bits of the opcode, the target modulo 2^16, and the cycles: none, one if taken, two across a page |
| OpcodeLaws.GroupOne | vice/src/6510core.c:1315-1322 | one step of ORA, AND, EOR, ADC, LDA, CMP and SBC in all eight modes, in plain arithmetic, cycles included |
| OpcodeLaws.GroupTwo | vice/src/6510core.c:846-860 | of ASL, ROL, LSR, ROR, DEC and INC on memory |
| OpcodeLaws.GroupTwoAccumulator | vice/src/6510core.c:862-870 | of the four on A |
| OpcodeLaws.GroupThree | vice/src/6510core.c:1699-1717 | of SLO, RLA, SRE, RRA, DCP and ISB |
| OpcodeLaws.ImmediateLaw | vice/src/6510core.c:745-752 | of the undocumented immediate instructions |
| OpcodeLaws.ComparesLikeCmp | vice/src/6510core.c:1013-1028 | a comparison is a subtraction without its result |
| OpcodeLaws.LoadLaw | vice/src/6510core.c:1244-1250 | of LDX, LDY, LAX and LAS |
| OpcodeLaws.LoadOpcodes | vice/src/6510core.c:2288-3277 | which opcodes those are, in which modes |
| OpcodeLaws.TestLaw | vice/src/6510core.c:882-892 | of CPX, CPY and BIT |
| OpcodeLaws.StoreLaw | vice/src/6510core.c:1784-1792 | of STA, STX, STY and SAX: one byte of memory changes |
| OpcodeLaws.StoreOpcodes | vice/src/6510core.c:2288-3277 | which opcodes those are, in which modes |
| OpcodeLaws.HighLaw | vice/src/6510core.c:1644-1651 | of SHA, SHX, SHY and SHS, the replaced address included |
| OpcodeLaws.FlagLaw | vice/src/6510core.c:953-957 | of the seven flag instructions |
| OpcodeLaws.TransferLaw | vice/src/6510core.c:1868-1873 | of TXA, TYA and TXS |
| OpcodeLaws.TransferBackLaw | vice/src/6510core.c:1847-1852 | of TAX, TAY and TSX |
| OpcodeLaws.CountLaw | vice/src/6510core.c:1065-1070 | of DEX, DEY, INX and INY |
| OpcodeLaws.IdleLaw | vice/src/6510core.c:1328-1333 | NOPs only take time |
| OpcodeLaws.JamLaw | vice/src/6510core.c:2288-3277 | exactly twelve opcodes jam |
| OpcodeLaws.StackLaw | vice/src/6510core.c:1351-1356 | PHA, PHP, PLA and PLP: the byte, where it is, the stack pointer |
| OpcodeLaws.CallLaw | vice/src/6510core.c:1197-1213 | JSR pushes the address of its own last byte |
| OpcodeLaws.JumpLaw | vice/src/6510core.c:1180-1188 | JMP, and JMP (a) with its pointer wrapping in its page |
| OpcodeLaws.ReturnLaw | vice/src/6510core.c:1547-1559 | RTS resumes one past the address pulled |
| OpcodeLaws.InterruptReturnLaw | vice/src/6510core.c:1534-1545 | RTI resumes at it with the flags pulled |
| OpcodeLaws.BreakLaw | vice/src/6510core.c:915-951 | BRK: bytes pushed, break bit, vector |
| OpcodeLaws.InterruptLaw | vice/src/6510core.c:391-482 | IRQ and NMI: bytes pushed, break bit clear, vectors, seven cycles |
| OpcodeLaws.FetchLaw | vice/src/6510core.c:1891-1909 | an opcode fetch takes three cycles for an instruction of three bytes other than JSR, and two otherwise |
| OpcodeLaws.FetchColumns | vice/src/6510core.c:1891-1909 | so three exactly in columns c to f, and in 9 and b of the odd rows |
| OpcodeLaws.OperandLaw | vice/src/6510core.c:499-622 | where each addressing mode finds its operand |
| OpcodeLaws.TimeLaw | vice/src/6510core.c:499-622 | the cycles each addressing mode takes, one more across a page |
| CpuFetches.FetchOpcode | vice/src/6510core.c:2058-2127 | operands and cycles, by fetch_tab (`OpcodeLaws.FetchColumns`), are the same on all paths, up to the high byte of p2 where it is 0 |
| CpuFetches.FetchPacked | vice/src/6510core.c:2062-2084 | the one-word encoding, cached or through memory, charging the same cycles |
| CpuFetches.FetchStruct | vice/src/6510core.c:2097-2125 | the structure encoding, cached or through memory, charging the same cycles |
| CpuFetches.ThirdIgnored | vice/src/6510core.c:1197-1213 | an instruction that does not use the third byte (JSR loads its own) does not depend on it |
| CpuFetches.FetchAndExecute | vice/src/6510core.c:2229-3277 | one step is the same whichever way the opcode was fetched |
| CpuFetches.FetchedBoundary | vice/src/6510core.c:2166-3277 | one instruction or interrupt is the same whichever way the opcode was fetched |
| CpuFetches.RunFetched | vice/src/6510core.c:2058-2127 | any program under any interrupts ends in the same state after the same cycles, with the bank cache on or off at each step and in both encodings |
| StackNests.LiveFrame | vice/src/6510core.c:353-358 | a store below them leaves up to 255 stack bytes alone, wherever they wrap |
| StackNests.PushedIsLive | vice/src/6510core.c:354 | a push adds one byte to the live ones |
| StackNests.PullUndoesPush | vice/src/6510core.c:354-357 | a pull returns what was pushed and gives back the stack, whatever happened above in between |
| StackNests.PullUndoesPushWord | vice/src/6510core.c:354-357 | so do two pulls after a pushed word |
| StackNests.CallReturns | vice/src/6510core.c:1197-1213 | RTS resumes after the three-byte JSR with the stack as it was |
| StackNests.PullsA | vice/src/6510core.c:1344-1361 | PLA returns the A that PHA pushed |
| StackNests.PullsP | vice/src/6510core.c:1351-1384 | PLP returns the flags that PHP pushed |
| StackNests.HandlerReturns | vice/src/6510core.c:391-432 | RTI resumes the interrupted program with its flags |
| StackNests.NestRestores | vice/src/6510core.c:391-432 | every well-nested sequence of calls, pushes and interrupts, of any shape and depth, with at most 256 bytes live, restores the stack, and every bracket in it gives back what it took |
| BlockMoves.CopiedElsewhere | vice/src/65816core.c:1928-1955 | a block move changes no byte but the destination's |
| BlockMoves.CopiedAt | vice/src/65816core.c:1928-1955 | without index wrap every destination byte is settled: the k-th source byte, or, if the destination leads the source by d, the first d bytes over and over |
| BlockMoves.SafeMoveCopiesBlock | vice/src/65816core.c:1957 | disjoint, or overlapping in the safe direction, the destination is a copy of the original block |
| BlockMoves.ArrivesIffRepeats | vice/src/65816core.c:1928-1955 | the destination is a copy of the original block exactly if the block repeats itself at the distance by which the destination leads the source |
| BlockMoves.UnsafeMoveDoesNot | vice/src/65816core.c:1959 | so it is not as soon as any two source bytes at that distance differ |
| BlockMoves.ArrivesAlwaysIffSafe | vice/src/65816core.c:1957 | it is for every memory exactly if the move is safe; otherwise a memory is given where it is not |
| Model65816.ModeChanges | vice/src/65816core.c:2607-3645 | only XCE and a reset leave or enter emulation mode |
| Core65816s.Core65816.IncPc | vice/src/65816core.c:1348 | PC stays within 16 bits |
| Core65816s.Core65816.MoveOperands | vice/src/65816core.c:1928-1955 | the bank operands, PC moving on only in the last round |
| Core65816s.Core65816.StepIndices | vice/src/65816core.c:1928-1955 | the indices step and wrap at their width |
| Core65816s.Core65816.Move | vice/src/65816core.c:1928-1955 | one round of a block move: one byte copied, count and indices stepped |
| Core65816s.Core65816.RepeatMove | vice/src/65816core.c:1928-1955 | from count C exactly C+1 rounds, ending with the count at 0xffff, PC past the instruction, the data bank the destination, and memory as after C+1 single copies |
| Core65816s.Core65816.PushByte | vice/src/65816core.c:318-326 | a push stays in page one in emulation mode |
| Core65816s.Core65816.PullByte | vice/src/65816core.c:330 | a pull stays in page one in emulation mode |
| Core65816s.Core65816.PullAccumulator | vice/src/65816core.c:2084-2093 | PLA by the width of the accumulator: with a narrow one the high byte stays |
| Core65816s.Core65816.PullBank | vice/src/65816core.c:2095-2099 | PLB keeps it |
| Core65816s.Core65816.PushWordRaw | vice/src/65816core.c:2059-2067 | the first byte is stored without wrapping, the second is a push |
| Core65816s.Core65816.Pld | vice/src/65816core.c:2101-2115 | two bytes from wherever the stack pointer leads, then the fix |
| Core65816s.Core65816.SetNZ | vice/src/65816core.c:143-151 | N and Z at either width |
| Core65816s.Core65816.StoreStack | vice/src/65816core.c:1236-1249 | pushes at either width, and that they keep the mode invariant |
| Core65816s.Core65816.LoadStack | vice/src/65816core.c:412-424 | so do pulls |
| Core65816s.Core65816.PushEffective | vice/src/65816core.c:2001-2012 | PEA, PEI, PER and PHD keep it, though they step outside page one midway |
| Core65816s.Core65816.PullDirect | vice/src/65816core.c:2101-2115 | PLD keeps it |
| Core65816s.Core65816.SetIndex | vice/src/65816core.c:1886-1899 | an index of the register's width keeps it |
| Core65816s.Core65816.LoadIndex | vice/src/65816core.c:1886-1899 | LDX and LDY keep it |
| Core65816s.Core65816.PullIndex | vice/src/65816core.c:2129-2138 | PLX and PLY keep it |
| Core65816s.Core65816.StepIndex | vice/src/65816core.c:1681-1692 | INX, INY, DEX and DEY keep it |
| Core65816s.Core65816.TransferToIndex | vice/src/65816core.c:2372-2383 | TAX, TAY, TSX, TXY and TYX keep it |
| Core65816s.Core65816.TransferToStack | vice/src/65816core.c:2396-2405 | TCS and TXS keep it |
| Core65816s.Core65816.Plp | vice/src/65816core.c:2117-2127 | PLP sets all flags, narrows the indices if the X flag comes back set, and keeps it |
| Core65816s.Core65816.LocalSetStatus | vice/src/65816core.c:218-220 | reg_p never holds Z or N |
| Core65816s.Core65816.SetFlag | vice/src/65816core.c:189-196 | one flag changes and no other, on the view of all eight |
| Core65816s.Core65816.RepSep | vice/src/65816core.c:2144-2182 | REP and SEP do exactly what the reference does with each flag and the indices (`Laws65816.ModeLaw`), and keep it |
| Core65816s.Core65816.Xce | vice/src/65816core.c:2525-2545 | XCE is that of the reference: carry and emulation flag change places; entering emulation mode fixes SP, X and Y |
| Core65816s.Core65816.Branch | vice/src/65816core.c:1496-1520 | a branch sees the flags and wraps in its bank |
| Core65816s.Core65816.BranchLong | vice/src/65816core.c:1522-1532 | a long branch wraps in its bank |
| Core65816s.Core65816.Jmp | vice/src/65816core.c:1759-1768 | JMP goes to its operand |
| Core65816s.Core65816.JmpInd | vice/src/65816core.c:1770-1783 | JMP (a) goes through a vector in bank 0 |
| Core65816s.Core65816.JmpIndLong | vice/src/65816core.c:1785-1799 | JMP [a] takes its bank from the vector too |
| Core65816s.Core65816.JmpIndX | vice/src/65816core.c:1801-1815 | JMP (a,X) goes through a vector in the bank of the program |
| Core65816s.Core65816.JmpLong | vice/src/65816core.c:1817-1829 | JMP long sets bank and PC |
| Core65816s.Core65816.Jsr | vice/src/65816core.c:1831-1843 | JSR keeps it; where it goes and what it stores |
| Core65816s.Core65816.JsrIndirectX | vice/src/65816core.c:1845-1862 | JSR (a,X) keeps it, and fetches the high byte of its operand after its pushes |
| Core65816s.Core65816.Jsl | vice/src/65816core.c:1864-1882 | JSL keeps it; where its three bytes go |
| Core65816s.Core65816.Rts | vice/src/65816core.c:2265-2276 | RTS keeps it |
| Core65816s.Core65816.Rtl | vice/src/65816core.c:2246-2263 | RTL keeps it; where its three bytes come from |
| Core65816s.Core65816.Rti | vice/src/65816core.c:2220-2244 | RTI restores flags, PC and in native mode the bank, and keeps it |
| Core65816s.Core65816.Interrupt | vice/src/65816core.c:1727-1757 | BRK, COP, IRQ and NMI: what they push, flags and vector, and that they keep it |
| Core65816s.Core65816.Reset | vice/src/65816core.c:2186-2214 | a reset: every register; it establishes the invariant |
| Core65816s.Core65816.Computing | vice/src/65816core.c:1428-1441 | instructions that compute or store keep it and touch no more than their macros do |
| Core65816s.Core65816.ChangeFlag | vice/src/65816core.c:1564-1569 | the flag instructions keep it |
| Core65816s.Core65816.MoveOnce | vice/src/65816core.c:1928-1955 | a block move keeps it |
| Core65816s.Core65816.Execute | vice/src/65816core.c:2607-3645 | every arm of the opcode switch, interrupts and reset among them, does exactly what the reference does to every register, flag and byte of memory, with what is computed or loaded left open, and keeps the mode invariant |
| Core65816s.Core65816.Run | vice/src/65816core.c:2553-3666 | whatever program is in memory and however it is interrupted, the core runs as the reference does, and: emulation mode keeps SP in page one, narrow indices stay below 256, PC and SP stay 16-bit, reg_p never holds Z or N |
| Core65816s.Core65816.LongCall | vice/src/65816core.c:2246-2263 | where RTL leads after JSL, and what JSL leaves in memory |
| Core65816s.Core65816.LongCallAndReturn | vice/src/65816core.c:2246-2263 | RTL undoes JSL exactly in native mode, with SP at 0x103 or above, or if the three bytes it reads a page further up happen to be right |
| Core65816s.Core65816.PushPullDirect | vice/src/65816core.c:2059-2067 | what PLD pulls after PHD, and what PHD leaves in memory |
| Core65816s.Core65816.DirectThereAndBack | vice/src/65816core.c:2101-2115 | PLD undoes PHD exactly in native mode, with SP at 0x102 or above, or if the two bytes it reads a page further up happen to be right |
| Core65816s.LongCallReturns | vice/src/65816core.c:2246-2263 | the exact condition, memory included, on which RTL undoes JSL |
| Core65816s.LongCallAlwaysReturns | vice/src/65816core.c:1864-1882 | RTL undoes JSL for every memory exactly in native mode or with SP at 0x103 or above; otherwise a memory is given where it does not |
| Core65816s.DirectReturns | vice/src/65816core.c:2101-2115 | the exact condition, memory included, on which PLD undoes PHD |
| Core65816s.DirectAlwaysReturns | vice/src/65816core.c:2059-2067 | PLD undoes PHD for every memory exactly in native mode or with SP at 0x102 or above; otherwise a memory is given where it does not |
| Core65816s.LongCallAddresses | vice/src/65816core.c:1864-1882 | RTL reads the addresses JSL wrote exactly in native mode or with SP at 0x103 or above |
| Core65816s.DirectAddresses | vice/src/65816core.c:2101-2115 | PLD reads the addresses PHD wrote exactly in native mode or with SP at 0x102 or above |
| Core65816s.NarrowStep | vice/src/65816core.c:1928-1955 | masking after a 16-bit step is an 8-bit step |
| Laws65816.ModeLaw | vice/src/65816core.c:2144-2182 | REP clears and SEP sets each of V, M, X, D, I, C, N and Z exactly if its bit of the operand is set, M and X not in emulation mode; X and Y are truncated exactly when SEP sets X; nothing else but PC changes |
| Laws65816.FlagLaw | vice/src/65816core.c:1564-1569 | the seven flag instructions by opcode |
| Laws65816.ExchangeLaw | vice/src/65816core.c:2525-2545 | XCE swaps carry and emulation bit; what entering and leaving emulation mode do to flags, X, Y and SP |
| Laws65816.LoadLaw | vice/src/65816core.c:1886-1899 | LDX and LDY in every mode: the register at its width, N and Z at that width, the length of an immediate operand |
| Laws65816.CountLaw | vice/src/65816core.c:1681-1692 | INX, INY, DEX and DEY wrap at the width |
| Laws65816.TransferLaw | vice/src/65816core.c:2372-2383 | TAX, TAY, TSX, TXY and TYX |
| Laws65816.ToStackLaw | vice/src/65816core.c:2396-2405 | TCS and TXS |
| Laws65816.PushLaw | vice/src/65816core.c:1236-1249 | PHA, PHX and PHY push one byte or two by the width of their register; PHB, PHK and PHP one; which bytes, and where |
| Laws65816.PushRawLaw | vice/src/65816core.c:2001-2012 | PEA, PEI, PER and PHD: the word, and its second byte outside page one |
| Laws65816.PullLaw | vice/src/65816core.c:2084-2093 | PLA by the width of the accumulator, PLB |
| Laws65816.PullIndexLaw | vice/src/65816core.c:2129-2138 | PLX and PLY by theirs |
| Laws65816.PullDirectLaw | vice/src/65816core.c:2101-2115 | PLD: where its two bytes come from |
| Laws65816.PullFlagsLaw | vice/src/65816core.c:2117-2127 | PLP sets all eight flags and truncates the indices if they are narrow then |
| Laws65816.BranchLaw | vice/src/65816core.c:1496-1520 | the nine branches by opcode: when taken, and to where |
| Laws65816.JumpLaw | vice/src/65816core.c:1785-1799 | BRL and the five jumps: PC and bank, and where a vector is read |
| Laws65816.CallLaw | vice/src/65816core.c:1831-1843 | JSR: what it pushes |
| Laws65816.CallIndirectLaw | vice/src/65816core.c:1845-1862 | JSR (a,X), its operand read after its pushes |
| Laws65816.LongCallLaw | vice/src/65816core.c:1864-1882 | JSL: where its three bytes go |
| Laws65816.ReturnLaw | vice/src/65816core.c:2246-2263 | RTS and RTL: where they read, and to where they return |
| Laws65816.InterruptReturnLaw | vice/src/65816core.c:2220-2244 | RTI: flags, PC, and in native mode the bank |
| Laws65816.BreakLaw | vice/src/65816core.c:1534-1562 | BRK and COP: bytes pushed, break bit, vectors of both modes |
| Laws65816.InterruptLaw | vice/src/65816core.c:1727-1757 | IRQ and NMI |
| Laws65816.ResetLaw | vice/src/65816core.c:2186-2214 | a reset: every register |
| Laws65816.MoveLaw | vice/src/65816core.c:1928-1955 | one round of MVN and MVP: banks, the byte, the indices one up or down modulo their width, the count, PC |
| Laws65816.ComputeLaw | vice/src/65816core.c:2607-3645 | every opcode that computes or stores leaves its outcome exactly where its opcode says, and is as long as its column and the widths say |
| Laws65816.Columns | vice/src/65816core.c:2607-3645 | which opcodes those are |
| Laws65816.FetchLaw | vice/src/65816core.c:2553-2606 | the opcode is fetched at PC in the program bank |
| Laws65816.WidthsOutlastRuns | vice/src/65816core.c:2607-3645 | mode, accumulator width and index width outlast any run, with any interrupts, in which no REP, SEP, PLP, RTI, XCE or reset comes |
| Laws65816.StepKeepsWidths | vice/src/65816core.c:2607-3645 | one such instruction or interrupt keeps them |
| Laws65816.RunLaw | vice/src/65816core.c:2553-3666 | a run is its first part and then the rest |

## Left out

- Core65816.Computing: takes the outcome of the computing instructions as a parameter and says exactly where it is left, how long they are and that they keep the mode invariant; of their arithmetic `Arithmetic` has ADC and the 8-bit SBC.
- Core65816.Execute: takes what an instruction loads into an index register or computes as a parameter; COP at 0x02 as a ROM trap and STP as a jam are not modelled.
- Core6510.Interrupt: is an event at an instruction boundary; the delays that decide when an interrupt is taken, and an NMI taking over an IRQ or BRK in progress, are not modelled.
- FetchOpcode: takes the limit of the bank cache as a parameter; the JUMP macro that sets it is not part of this model.
- AlarmContext.Dispatch: knows a callback only as what it does to its own alarm, since function pointers are not modelled; the ACIA's two callbacks are proved to be of this kind.
- AciaDevice.ProcessAlarms: takes what the driver delivers at each call as a parameter.
- The program counter of the 6510 cores is modelled with 16 bits; the source keeps it in an `unsigned int` that it reduces when it is used.
- Memory is flat RAM: banking, I/O, dummy accesses and the order of bus accesses are left out, as are JAM, ROM traps, DMA, cycle stealing (with the RDY variants of ANE, LXA, SHA, SHX, SHY and SHS), cycle skipping, the C64DTV registers, the drive CPU's byte-ready line, the monitor and the CPU history.
- The 65C02 and 65816 ADC and SBC are modelled on values, not in place.
- The 65816 16-bit decimal SBC and the V flag of the 16-bit decimal ADC read the 8-bit accumulator in the source (`vice/src/65816core.c:1414`, `vice/src/65816core.c:2304-2311`) and are not claimed to be right.
- The other instructions of the 65C02, and the results of those of the 65816, are left out: they would mostly repeat the shape of the 6510's.
- ACIA snapshots, `acia_set_irq` and `acia_set_mode` while running, and the driver beyond its input bytes and output log are left out.
- The ACIA's character time is a mathematical integer; its conversion from `double` to `int` cannot overflow at the speeds machines run at.
- Clock arithmetic wraps at 64 bits; theorems about whole runs assume it does not within them.
