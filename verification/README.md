# Verified model of the UNIMOC hand-over protocols and state machines

UNIMOC is motor-drive firmware. This project models the parts of it in which several contexts or
many inputs meet, and proves what holds over all their runs:

- **Duty delivery** (`DutyDelivery`, `DutyMissed`): four duty entries per control cycle go through the PWM preload
  register and a circular DMA buffer. The register form, with timer updates anywhere, refines the
  direct timing of the simulator, and runs with missed cycles refine it for the plans that took effect.
- **Power stage and save gate** (`PowerStage`): one atomic flag shared by the release of the outputs
  and a flash save; a read-modify-write of MOE that a zero-latency trip may split.
- **Settings** (`RegisterCodec`, `SettingsPersistence`, `SettingsEntries`, `LiveTuning`): encoding, incremental saves
  that may stop half way, and what reaches the running loops.
- **Lock-free hand-over** (`SeqLock`, `HotPathProbe`, `Mailbox`, `AngleBuffers`, `EdgeQueue`): copies
  word by word, interleaved with the other side.
- **Engagement** (`CartControl`, `EbikeControl`, `DriveNode`, `DriveReadiness`, `DriveMessages`,
  `DriveFaults`, `DeadMan`, `EbikeDrive`, `EbikeFaultRun`, `DriveNodeObject`): one Spin of the drive with everything
  that engages or stops it, from any list of messages to what the drive does.
- **Outer loop** (`AngleWrap`, `Homing`): counting a position from wrapped angles, and homing.
- **slcan** (`SlcanCodec`, `SlcanHost`, `SlcanPort`, `SlcanReceiver`, `SlcanBus`): printer, output stream, line assembly
  and parser, composed to a wire that delivers frames in order, and the receive ring that all ports share.

Each protocol is a step system on values: `Possible` and `Next` (or one function per part of the code)
say what a step does, `Run` applies any sequence of them, an invariant is proved step by step, and
the main results are stated about `Run` from the initial state. Code that works in place is a class
beside it, with the fields of the source, whose methods are proved to compute those functions;
`View()`, `State()` and `Contents()` are the abstract values. `Units` holds shared arithmetic.

`dafny verify dfyconfig.toml` checks the whole project.

## Assumptions

- Sequentially consistent memory; a preempting interrupt is one step of the level that it preempts.
- Counters that wrap at 2^32 are unwrapped (`DutyOverruns`, observer overruns, register write count,
  queue overruns). The sequence lock keeps its 32-bit register and needs a read to overlap fewer than
  2^31 writes; the timing statistics keep their registers, wraps included.
- Unit types are reals and durations are integer microseconds; a value that is not finite is `None`.
- Duty delivery: four updates per cycle, each call starts before the fourth. For the refinement the
  early branch is not split by an update; `EarlyCallDeliversIffUnsplit` shows what happens otherwise.
- Persistence: a failed write or erase leaves the storage unchanged, and a write never answers "not
  found" (the code treats that as success). The factory profile validates, and validation depends
  only on the encoded registers.
- The startup aid is its contract (src/startup/hw_startup.hpp:133-158): it may switch the outputs while
  it is active, its end and its abort leave them off. Its body is not part of this model.
- The node name length is 50; the file that defines it is not part of this model.

## Where the code differs from its documentation

The code is modelled as it is; each point has a lemma.

- The early branch of `SetDutyTicks` has no re-check. An update between its writes delivers a stale
  entry and is not counted (`EarlyCallDeliversIffUnsplit`).
- A STANDBY or SLEEP that follows an ENGAGED in the same dispatch does not withdraw the request: the
  drive engages (`SpinEngagesIfAsked`, `StandbyDoesNotWithdraw`).
- The readiness timeout comes before a trip in the code. When both come in one Spin, no re-arm is required
  (`TripDisengages`).
- `Inhibit` leaves the last result of the e-bike control alone; a Spin within a millisecond of the last
  computed update engages the drive again at once. With a re-arm time of zero, which passes validation,
  so does a computed one (`InhibitReengagesIff`).
- New parameters clear the latch, the want and the result of the e-bike control. When settings wait while
  a fault disengages the drive, the same Spin applies them, and a rider who pedals on is engaged again two
  Spins later (`WaitingSettingsReengage`, `LaterSettingsReengage`; from the start of operation
  `EbikeFaultRun.WriteEngagesRiderAgain`). A fault keeps the drive off exactly if no settings are applied
  (`FaultStaysOffIffNothingApplied`, `SpinHolds`), or the first update after them is computed and sees it
  (`StaysOffIffComputedUpdate`).
- Settings that the hardware rejects count as applied: the first engage fails, the next one releases
  the outputs although the motor does not run (`RejectedSettingsEngageNextTime`).
- Decoding accepts a stored name with a terminator inside, and encoding cuts it there: `EncodeDecode`
  holds for the other names only.

## Model

| member | source | states |
|---|---|---|
| `DutyDelivery.RunRefinesSimulator` | hardware/zephyr_sim/hardware_interface.cpp:231-254 | Over every run of control cycles that counts no duty overrun, with update events anywhere around and inside the calls, the compare values and boundary types of all half periods are those the simulator applies for the same plans: previous entry 3, then entries 0 to 2 |
| `DutyDelivery.CycleRefinesSimulator` | hardware/zephyr_bcc/foc_stm32g4.cpp:494-530 | One uncounted cycle: four half periods as in the simulator, the last entry waits in the preload again, and what AppliedTicks and SampleAtPeak report is what was active |
| `DutyDelivery.RunReports` | hardware/zephyr_bcc/foc_stm32g4.cpp:538-545 | After every cycle of an uncounted run sample k was taken with the reported compare values and at the reported boundary type |
| `DutyDelivery.CallCounts` | hardware/zephyr_bcc/foc_stm32g4.cpp:502-521 | A call counts at most one overrun, and none exactly when it starts before the control boundary, or right after it with no update up to the re-check |
| `DutyDelivery.OverrunsCountMissedCycles` | hardware/zephyr_bcc/foc_stm32g4.cpp:532-532 | Over any run the overrun counter grows by exactly the number of cycles that missed their time |
| `DutyDelivery.CallIsAtomic` | hardware/zephyr_bcc/foc_stm32g4.cpp:494-530 | A call that is not hit by an update during its writes has the effect of one indivisible write of slots, preload and reports |
| `DutyDelivery.EarlyCallDeliversIffUnsplit` | hardware/zephyr_bcc/foc_stm32g4.cpp:514-518 | The early branch never counts an overrun; its entry 0 reaches the motor if and only if no update comes between its writes (the exact condition of the missing re-check) |
| `DutyDelivery.SplitEarlyCallIsStale` | hardware/zephyr_bcc/foc_stm32g4.cpp:514-518 | When an update does come among the writes of an early call, the half period of entry 0 carries the old slot 0 |
| `DutyDelivery.SplitIsCall` | hardware/zephyr_bcc/foc_stm32g4.cpp:502-513 | The register accesses one by one, with updates before the re-check only, do what the driver method computes |
| `DutyDelivery.FocDriver.constructor` | hardware/zephyr_bcc/foc_stm32g4.cpp:277-300 | Neutral slots, preload and reports |
| `DutyDelivery.FocDriver.UpdateEvent` | hardware/zephyr_bcc/foc_stm32g4.cpp:277-300 | One timer update: active takes the preload, the next slot is moved into the preload, the transfer counter goes on |
| `DutyDelivery.FocDriver.SetDutyTicks` | hardware/zephyr_bcc/foc_stm32g4.cpp:494-530 | The whole new state after the normal, early and overrun branch, with any number of updates before the re-check |
| `DutyDelivery.FocDriver.WriteSlots` | hardware/zephyr_bcc/foc_stm32g4.cpp:498-500 | Entries 1 to 3 in their slots, slot 0 unchanged |
| `DutyDelivery.FocDriver.ShiftApplied` | hardware/zephyr_bcc/foc_stm32g4.cpp:525-528 | The reported entries are the old last entry and entries 0 to 2 |
| `DutyDelivery.Simulator.RunCycle` | hardware/zephyr_sim/hardware_interface.cpp:231-250 | The applied duties are the carry and entries 0 to 2, and the carry becomes entry 3 |
| `DutyMissed.LateRunRefinesSimulator` | hardware/zephyr_bcc/foc_stm32g4.cpp:494-532 | Over every run with any number of late calls (and no update among the writes of one) the motor gets what the simulator applies for the effective plans: late entries are those still in the slots |
| `DutyMissed.UnsplitCycle` | hardware/zephyr_bcc/foc_stm32g4.cpp:494-532 | One such cycle, in time or late: the half periods of its effective plan, and the next cycle starts as if nothing had been missed |
| `DutyMissed.LateCallRepeats` | hardware/zephyr_bcc/foc_stm32g4.cpp:502-532 | What a missed cycle delivers: after a normal call the last entry twice, then the old entry 1 and the entry 2 that is in the slots by then; after an early call the last entry and then the old plan from entry 0 |
| `PowerStage.NoStorageOperationWhileReleased` | src/settings_save_gate.hpp:34-51 | In every interleaving of savers, Enable callers, trips and external-enable changes no storage operation runs while the outputs are on |
| `PowerStage.LockComesBack` | hardware/power_stage_interface.hpp:66-88 | The flag is free exactly when no Enable call and no save is under way: each of them lets go of it once |
| `PowerStage.FaultMeansOff` | hardware/zephyr_bcc/foc_stm32g4.cpp:447-484 | In every reachable state a latched fault means outputs off, except inside the window between the write of MOE and the second look at the fault |
| `PowerStage.TripIsNeverUndone` | hardware/zephyr_bcc/foc_stm32g4.cpp:447-467 | A trip at any point of any run: until ClearFault the fault stays latched and the outputs are off in every state without a call in that window, on the board registers and on the simulated stage |
| `PowerStage.FaultStaysLatched` | hardware/zephyr_bcc/foc_stm32g4.cpp:469-471 | Only ClearFault ends a latched fault |
| `PowerStage.SuccessMeansReleased` | hardware/zephyr_bcc/foc_stm32g4.cpp:447-465 | On the board an Enable that reports success has just read MOE set, no fault and a present external enable |
| `PowerStage.EnableReturnsSafe` | hardware/zephyr_sim/hardware_interface.cpp:93-118 | Whatever interrupts split one call, a fault that is latched when it returns holds the outputs off |
| `PowerStage.RunKeepsInv` | hardware/power_stage_interface.hpp:42-47 | The invariant behind these: one holder of the flag, and outputs off in a granted save |
| `PowerStage.Stage.PowerStageEnable` | hardware/zephyr_bcc/foc_stm32g4.cpp:447-465 | Result and registers after the call with given interrupts before each register access; safe in every case |
| `PowerStage.Stage.Enable` | hardware/power_stage_interface.hpp:66-73 | Refused without any effect while the flag is taken; otherwise the call, and the flag is free again; uninterrupted it succeeds and leaves MOE set exactly if it was, or with external enable and no fault |
| `PowerStage.Stage.TryBeginSave` | src/settings_save_gate.hpp:37-47 | On the registers: granted exactly for a free flag, MOE clear, external enable and no fault, and only then the flag stays taken |
| `PowerStage.Stage.GetState` | hardware/zephyr_bcc/foc_stm32g4.cpp:473-484 | Enabled exactly for set MOE, otherwise blocked exactly without the external enable, otherwise fault exactly with a latched one, otherwise disabled |
| `PowerStage.UndisturbedEnableReleases` | hardware/zephyr_bcc/foc_stm32g4.cpp:447-465 | A call that nothing interrupts releases the outputs exactly with external enable and no fault, and reports it |
| `PowerStage.UndisturbedSaveBegins` | src/settings_save_gate.hpp:37-47 | The test-and-set and the three checks of the step system in a row end in a granted save exactly for a free flag, outputs off, external enable and no fault, the condition of TryBeginSave; otherwise nothing has changed |
| `PowerStage.UndisturbedCall` | hardware/power_stage_interface.hpp:66-73 | The steps of an Enable call in a row: refused without effect while the flag is taken, otherwise released exactly with external enable and no fault, and the flag is given back |
| `PowerStage.CallIsInterleaving` | hardware/zephyr_bcc/foc_stm32g4.cpp:447-465 | A call with interrupts before each access, as the method has it, is an interleaving of the step system, so the whole-run results cover the method |
| `PowerStage.FaultNeverReleases` | hardware/zephyr_bcc/foc_stm32g4.cpp:447-467 | A fault that is latched before any thread looks at it keeps the outputs off in every later state until ClearFault, not even released for a moment |
| `PowerStage.SwitchedOffStaysOff` | hardware/zephyr_bcc/foc_stm32g4.cpp:467-469 | Disable, Trip and a lost external enable switch the outputs off, and without a call of Enable they stay off over every run |
| `PowerStage.BoardNeedsExternalEnable` | hardware/zephyr_bcc/foc_stm32g4.cpp:447-465 | On the board no reachable state has the outputs on without the external enable |
| `PowerStage.AcknowledgedTripReleases` | hardware/zephyr_bcc/foc_stm32g4.cpp:447-471 | After a trip no call releases; after ClearFault one does exactly with the external enable |
| `PowerStage.UndisturbedSave` | src/settings_save_gate.hpp:34-51 | A whole save in a row, with its storage operation: begun exactly when the gate grants it, and flag and registers are as before it |
| `RegisterCodec.DecodeEncode` | lib/settings/settings_registers.hpp:305-385 | Decoding an encoded register gives the value back, a name up to its terminator |
| `RegisterCodec.EncodeDecode` | lib/settings/settings_registers.hpp:338-384 | Encoding what was decoded gives the stored bytes back, for a name if and only if no terminator is inside it |
| `RegisterCodec.SameEncodingIffSameLoad` | lib/settings/settings_store.hpp:372-383 | Two values encode alike exactly when they load alike |
| `RegisterCodec.CanonicalSameEncoding` | lib/settings/settings_store.hpp:372-383 | A value and what a reload makes of it encode alike |
| `RegisterCodec.NumberRoundTrip` | lib/settings/settings_registers.hpp:276-289 | Little-endian bytes of a number read back as the number |
| `RegisterCodec.BytesRoundTrip` | lib/settings/settings_registers.hpp:276-289 | Bytes read as a number and written again are the same bytes |
| `RegisterCodec.PutFloat` | lib/settings/settings_registers.hpp:276-281 | The loop writes exactly the little-endian bytes |
| `RegisterCodec.GetFloat` | lib/settings/settings_registers.hpp:283-289 | The loop reads exactly the little-endian number |
| `RegisterCodec.EncodeName` | lib/settings/settings_registers.hpp:325-335 | The loop writes the characters up to the first terminator, and one terminator |
| `RegisterCodec.DecodeName` | lib/settings/settings_registers.hpp:374-383 | The loop restores the characters and fills the rest; other sizes and unterminated names are refused |
| `SettingsPersistence.SaveThenLoadRestores` | lib/settings/settings_store.hpp:703-748 | After any history of updates, factory resets and partly failed saves since a load without storage error, a save that reports success leaves a storage from which a fresh load restores the live settings, register by register in the same encoding |
| `SettingsPersistence.HistoryKeepsInv` | lib/settings/settings_store.hpp:703-748 | Along every history the shadow of each register matches its stored entry, and an undecodable entry is due to be erased |
| `SettingsPersistence.LoadEstablishesInv` | lib/settings/settings_store.hpp:613-656 | A load without storage error establishes that, whatever the storage holds |
| `SettingsPersistence.CommitKeepsInv` | lib/settings/settings_store.hpp:694-701 | A commit keeps it, accepted or refused |
| `SettingsPersistence.SaveKeepsInv` | lib/settings/settings_store.hpp:703-748 | So does a save that fails anywhere; the live settings never change, and a success leaves shadow and live settings alike and nothing undecodable |
| `SettingsPersistence.SaveUpToSaves` | lib/settings/settings_store.hpp:703-740 | What was saved before a failure stays saved; a success has saved every register |
| `SettingsPersistence.ReloadRestores` | lib/settings/settings_store.hpp:613-656 | A saved storage gives the live settings back |
| `SettingsPersistence.SaveBracketedByGate` | lib/settings/settings_store.hpp:703-748 | The gate is entered at most once, before the first storage operation, and left once, after the last; a refused gate changes nothing |
| `SettingsPersistence.SecondSaveDoesNothing` | lib/settings/settings_store.hpp:706-720 | After a successful save the next one touches neither gate nor storage |
| `SettingsPersistence.SettingsStore.Load` | lib/settings/settings_store.hpp:613-656 | Settings, shadow, repair flag and status after a load, for the stored entries in any order; the status tells a storage error, an undecodable entry and success apart, and an invalid profile changes nothing |
| `SettingsPersistence.SettingsStore.LoadEntry` | lib/settings/settings_store.hpp:613-640 | One stored entry: settings so far, undecodable flag and count |
| `SettingsPersistence.SettingsStore.Commit` | lib/settings/settings_store.hpp:694-701 | The status is the one of the validation; on success the live settings are the candidate, otherwise they stay as they were |
| `SettingsPersistence.SettingsStore.SaveToFlash` | lib/settings/settings_store.hpp:703-748 | Status, storage, shadow and the trace of gate and storage operations of a save whose operations fail as given |
| `SettingsPersistence.LiveIsNewestAccepted` | lib/settings/settings_store.hpp:694-748 | Over every history the live settings are the newest candidate that validates (the factory profile for a reset), defined from the operations alone, and those before the history if there is none |
| `SettingsPersistence.NewestAcceptedIsRestored` | lib/settings/settings_store.hpp:694-748 | After any history a successful save and a fresh load give that newest accepted candidate back |
| `SettingsEntries.SaveTouchesWhatChanged` | lib/settings/settings_store.hpp:706-740 | A successful save has erased each entry to be saved whose register is back at its factory value, written the live encoding of the others, and touched no other entry, also none the firmware does not know |
| `SettingsEntries.SaveReports` | lib/settings/settings_store.hpp:703-748 | Every save, refused or failing ones included: success exactly if the gate is granted and the storage takes all that is due, otherwise the status of the first failure; its trace is the due operations up to it, in order and inside the gate; without the gate nothing changes |
| `SettingsEntries.SavedUpToFailure` | lib/settings/settings_store.hpp:703-748 | The entry of each register is saved exactly if nothing failed up to it; all others, with their shadow, are as they were |
| `SettingsEntries.OperationIs` | lib/settings/settings_store.hpp:706-740 | The turn of a register asks for an erase exactly if it is due and at its factory value, for a write exactly if it is due and not, and for nothing otherwise |
| `SeqLock.ReadReturnsCurrentValue` | src/current_control/mailbox.hpp:84-96 | With both copies interleaved word by word, a returned value was published by one complete write and was the newest one from begin to end of its read |
| `SeqLock.RetryMeansOverlap` | src/current_control/mailbox.hpp:84-96 | A try is repeated exactly when a write began or ended since it started |
| `SeqLock.RunKeepsInv` | src/current_control/mailbox.hpp:74-96 | The invariant over every interleaving behind both |
| `SeqLock.Lock.Write` | src/current_control/mailbox.hpp:74-81 | The whole value, and the sequence two further |
| `SeqLock.Lock.Read` | src/current_control/mailbox.hpp:84-96 | The retry loop ends and returns the value of the last write that preempted it, or the old one if none did |
| `SeqLock.UndisturbedWrite` | src/current_control/mailbox.hpp:74-81 | The steps of a write in a row do what the method does: the whole value published, the sequence two further |
| `SeqLock.UndisturbedRead` | src/current_control/mailbox.hpp:84-96 | The steps of a try in a row return the value when no write is under way; ReadWaits: otherwise they change nothing |
| `HotPathProbe.ReadReturnsFold` | hardware/hot_path_timing.hpp:61-93 | In every interleaving of records, resets and reads, a read returns exactly the fold of consecutive records since the last served reset |
| `HotPathProbe.ReadIsExact` | hardware/hot_path_timing.hpp:37-93 | In every interleaving a read reports the records since the reset served last before them, if fewer than 2^32: exact count and sum, attained minimum and maximum, and, unless it is empty, minimum <= mean <= maximum with the mean the true quotient |
| `HotPathProbe.ResetStartsAtRequest` | hardware/hot_path_timing.hpp:95-95 | A served reset drops every record made before the request and at most the one running at that moment; an unserved one has seen no other record end |
| `HotPathProbe.MeanBetweenMinAndMax` | hardware/hot_path_timing.hpp:37-47 | For 1 to 2^32 - 1 records: minimum <= mean <= maximum, and the mean is the true quotient |
| `HotPathProbe.FoldIsExact` | hardware/hot_path_timing.hpp:61-69 | Count and sum are exact, minimum and maximum are attained bounds, although the registers wrap |
| `HotPathProbe.RunKeepsInv` | hardware/hot_path_timing.hpp:61-95 | The invariant over every interleaving behind these |
| `HotPathProbe.Probe.Record` | hardware/hot_path_timing.hpp:61-77 | The accumulator after one record, published as a whole; a requested reset is served first |
| `HotPathProbe.UndisturbedRecord` | hardware/hot_path_timing.hpp:61-93 | The steps of a record in a row do what the method does: one record more, published as a whole, and a requested reset served |
| `Mailbox.GainsAreWhole` | src/current_control/current_control_isr.hpp:313-316 | However the control cycle interrupts a hand-over it copies the last complete value; the loop works with complete sets of gains only, and after a finished hand-over the next cycle takes exactly these |
| `Mailbox.RunKeepsInv` | src/current_control/mailbox.hpp:40-57 | The active slot always holds the newest published value |
| `Mailbox.Box.Write` | src/current_control/mailbox.hpp:45-49 | The inactive slot takes the value and becomes the active one; the old value stays in the other |
| `Mailbox.Box.TakeGains` | src/current_control/current_control_isr.cpp:157-164 | Pending gains are taken once, as a whole |
| `Mailbox.UndisturbedHandOver` | src/current_control/current_control_isr.hpp:313-316 | The steps of a hand-over in a row do what the method does, and the next cycle works with the new gains |
| `AngleBuffers.CycleReadsOneCompleteSet` | src/current_control/current_control_isr.cpp:207-237 | With the control cycle preempting the observer at any word, each cycle reads the angle set that one whole update (or Init) completed, the newest one |
| `AngleBuffers.UpdateReadsOneCycle` | src/current_control/slow_update.cpp:61-125 | All words an update reads belong to the one cycle it started for unless the overrun counter grew meanwhile; then to this or a later cycle |
| `AngleBuffers.ObserverStartsOnActiveHalf` | src/current_control/slow_update.cpp:72-84 | An observer that starts on a pending cycle finds the buffer of that cycle to be the active one |
| `AngleBuffers.CyclesAreAccountedFor` | src/current_control/current_control_isr.cpp:207-261 | Controlled cycles = observer updates + overruns + the pending one |
| `AngleBuffers.RunKeepsInv` | src/current_control/slow_update.cpp:61-148 | The invariant over every interleaving behind these |
| `AngleBuffers.UninterruptedUpdate` | src/current_control/slow_update.cpp:61-148 | The observer steps in a row have the effect of the update as a whole |
| `AngleBuffers.DoubleBuffer.ControlCycle` | src/current_control/current_control_isr.cpp:207-261 | Inputs into the active half, the overrun counted, the observer pending; the angles used are those of that half |
| `AngleBuffers.DoubleBuffer.RunOnce` | src/current_control/slow_update.cpp:61-148 | The angles into the other half, which becomes active; nothing without a pending cycle |
| `EdgeQueue.PopsInOrder` | hardware/zephyr_bcc/ebike_io.cpp:56-87 | Under every interleaving of producer and consumer words: popped is a prefix of accepted, at most size - 1 entries are held, and pushes = accepted + overruns |
| `EdgeQueue.RefusesOnlyWhenFull` | hardware/zephyr_bcc/ebike_io.cpp:59-78 | An entry is refused exactly when size - 1 are held; nothing is popped exactly when none is |
| `EdgeQueue.NoHeldSlotIsWritten` | hardware/zephyr_bcc/ebike_io.cpp:59-68 | The slot being written never holds an entry that was not popped yet |
| `EdgeQueue.RunKeepsInv` | hardware/zephyr_bcc/ebike_io.cpp:56-87 | The invariant over every interleaving behind these |
| `EdgeQueue.Queue.Push` | hardware/zephyr_bcc/ebike_io.cpp:59-68 | Appends to the contents unless size - 1 entries are held; then only the overrun counter grows |
| `EdgeQueue.Queue.Pop` | hardware/zephyr_bcc/ebike_io.cpp:70-78 | Takes the oldest entry, or reports an empty queue without a change |
| `EdgeQueue.UndisturbedPush` | hardware/zephyr_bcc/ebike_io.cpp:59-68 | The steps of a push in a row accept the entry if the ring has room |
| `EdgeQueue.UndisturbedPop` | hardware/zephyr_bcc/ebike_io.cpp:70-78 | The steps of a pop in a row take the oldest entry |
| `CartControl.PedalTorqueIsSafe` | src/drive/cart_control.cpp:142-163 | The pedals ask for at most the limp-home torque; a pressed brake never acts with the motion; without it the torque is forward and needs both channels of a plausible pedal |
| `CartControl.BrakeFadesOut` | src/drive/cart_control.cpp:147-157 | Below the standstill speed the brake torque is bounded in proportion to the speed |
| `CartControl.FullTravel` | src/drive/cart_control.cpp:142-163 | Fully pressed pedals ask for the whole limp-home torque, forward or against the motion |
| `CartControl.BrakeTravel` | src/drive/cart_control.cpp:143-146 | The larger valid channel: a failed or released one never releases the brake |
| `CartControl.DriveTravel` | src/drive/cart_control.cpp:158-161 | The smaller channel; a failed one or an implausible pedal counts as released |
| `CartControl.BatteryLimitsAreSafe` | src/drive/cart_control.cpp:165-184 | Limits apply exactly with a fresh status and finite values, never exceed those of the BMS, and allow no battery current without a connected contactor |
| `CartControl.TorqueIsRamped` | src/drive/cart_control.cpp:117-133 | Apart from the wheel command itself, no change of the torque is steeper than the ramp |
| `CartControl.MovingCartIsRamped` | src/drive/cart_control.cpp:107-133 | Over every run of updates and received messages on a moving, engaged cart: a wheel command that was lost never takes over again, and the torque changes by no more than the ramp allows for the time passed |
| `CartControl.LossEndsIff` | src/drive/cart_control.cpp:107-115 | Over every run, both ways: a lost command stays out of use until exactly an update that finds the drive disengaged, or a fresh command at standstill |
| `CartControl.BusLossStops` | src/drive/cart_control.cpp:74-78 | After a bus-off the next update stops the cart and drops the battery limits |
| `CartControl.SilentUpdate` | src/drive/cart_control.cpp:125-133 | Without inputs an update takes the torque down by exactly the ramp and never across zero |
| `CartControl.DecayAdds` | src/drive/cart_control.cpp:125-133 | Two such updates do what one over the whole time does: their spacing does not matter |
| `CartControl.Control.Update` | src/drive/cart_control.cpp:84-140 | Mode, torque, time stamps and result of one update |
| `CartControl.Control.ChooseMode` | src/drive/cart_control.cpp:95-115 | The next mode in every mode |
| `CartControl.Control.ChooseTorque` | src/drive/cart_control.cpp:117-133 | The torque of the chosen mode |
| `CartControl.ModeFollowsInputs` | src/drive/cart_control.cpp:84-139 | For an engaged update, on freshness alone: Vdc exactly while a command may act, limp-home exactly without one, not off and with fresh pedals, stopping exactly with stale ones; a disengaged update is off without torque |
| `CartControl.CommandActs` | src/drive/cart_control.cpp:56-135 | From the received wheel command to the output: it acts for exactly the timeout, with its torque in rotor direction, unless an earlier one was lost and the cart moves |
| `CartControl.PedalsAct` | src/drive/cart_control.cpp:62-135 | From the received pedal state to limp-home for exactly the timeout, and what holds the engagement |
| `CartControl.StatusActs` | src/drive/cart_control.cpp:68-183 | A battery status limits for exactly the timeout after its arrival |
| `CartControl.PedalsTakeOver` | src/drive/cart_control.cpp:100-140 | Over every run without a command that acts and with fresh pedals each update is in limp-home, and the torque comes closer to what constant pedals ask for by exactly the ramp |
| `CartControl.PedalTorqueIsReached` | src/drive/cart_control.cpp:100-140 | So once the ramp had the time, the torque is the one of the pedals |
| `CartControl.DriveIsProportional` | src/drive/cart_control.cpp:142-163 | Without the brake the torque is in proportion to the travel of the drive pedal beyond its deadband |
| `CartControl.BrakeIsProportional` | src/drive/cart_control.cpp:142-163 | The brake torque is in proportion to its travel and, up to the standstill speed, to the speed |
| `EbikeControl.NoEngagementAfterFault` | src/ebike/ebike_control.cpp:121-138 | After a computed update that sees a fault while the drive is wanted or was engaged, or after an inhibit, no computed update asks for the drive until one finds no turn of the crank within the re-arm time (new parameters excepted) |
| `EbikeControl.LatchHolds` | src/ebike/ebike_control.cpp:121-138 | The latch holds along any such run |
| `EbikeControl.LatchEndsIff` | src/ebike/ebike_control.cpp:121-138 | Over every run, both ways: a latch lasts until exactly a computed update that finds the pedals still, or new parameters |
| `EbikeControl.LatchStep` | src/ebike/ebike_control.cpp:121-138 | One event, both ways: the latch is set by its causes and cleared by still pedals and new parameters only |
| `EbikeControl.EngageNeedsRecentRequest` | src/ebike/ebike_control.cpp:130-138 | The drive is asked for only within display timeout plus hold after the newest display request |
| `EbikeControl.EngagesIffRiddenLately` | src/ebike/ebike_control.cpp:116-138 | Over every run, both ways: a computed update asks for the drive exactly when the crank turned at an assist level of a live display now or within the hold before, with no latch and no new parameters since |
| `EbikeControl.RunKeepsInv` | src/ebike/ebike_control.cpp:89-155 | The stored times are the newest of their kind over every run |
| `EbikeControl.Control.Update` | src/ebike/ebike_control.cpp:89-155 | The whole state after an update, computed or not; the result is the sensed torque of a computed one, else the last result |
| `EbikeControl.Control.ServiceDisplay` | src/ebike/ebike_control.cpp:157-184 | The last decoded request counts; the display is lost after its timeout |
| `EbikeControl.Control.Latch` | src/ebike/ebike_control.cpp:117-128 | Still time and latch of an update |
| `EbikeControl.Control.Hold` | src/ebike/ebike_control.cpp:129-135 | Want and hold of an update |
| `EbikeControl.Control.Inhibit` | src/ebike/ebike_control.hpp:130-133 | Latched and not wanted; the last result is not touched |
| `EbikeControl.Control.Configure` | src/ebike/ebike_control.cpp:75-87 | New parameters clear latch, want and result |
| `EbikeControl.FaultOfEngagedDriveLatches` | src/ebike/ebike_control.cpp:89-155 | A fault of a drive that the last computed update saw engaged latches, wanted or not, exactly while the pedals have not stood still for the re-arm time |
| `LiveTuning.TunedLikeRestarted` | src/drive/drive_node.cpp:491-512 | Live tuning succeeds exactly when no register outside the tunable ones differs from what runs; then every loop runs with the values a restart with the live settings would load, otherwise nothing in force changes |
| `LiveTuning.UntunableChangeIsFound` | src/drive/drive_node.cpp:94-120 | The search finds nothing exactly when all untunable registers agree, and otherwise names one that differs |
| `LiveTuning.TunableIsHandedOver` | lib/settings/settings_registers.hpp:178-245 | Each tunable register is among the current gains, the outer gains or the parameters of the drive node |
| `LiveTuning.WrittenKeepsInv` | src/drive/settings_register_provider.cpp:170-192 | An accepted register write keeps the invariant that an applied count means applied settings |
| `DriveNode.OutputsHaveOneOwner` | src/drive/drive_node.cpp:446-489 | Over every run of Spins, with trips between their parts: engaged and startup-active exclude each other, released outputs mean one of them, and every logged restart of the controller found the outputs off |
| `DriveNode.MotorRunsIffLastRestartAccepted` | src/drive/drive_node.cpp:462-489 | Over every history the motor runs, engaged or not, exactly if the hardware accepted the last restart that the history brought about |
| `DriveNode.EmergencyStopIsFinal` | src/drive/drive_node.cpp:793-797 | From the Spin that receives EMERGENCY_STOP on, in every later state neither holds and the outputs are off |
| `DriveNode.OldSetpointNeverActs` | src/drive/drive_node.cpp:731-764 | After each Spin the outer loop is active exactly when engaged, and never on a setpoint accepted before the engage |
| `DriveNode.NoEngageWithoutRearm` | src/drive/drive_node.cpp:536-565 | Without a local control a drive that waits for a re-arm stays off over every run without a readiness other than ENGAGED |
| `DriveNode.TripDisengages` | src/drive/drive_node.cpp:399-413 | A lost or tripped stage always disengages; the re-arm is required exactly when the readiness had not timed out too, or the cart held the engagement |
| `DriveNode.NotWaitingMeansApplied` | src/drive/drive_node.cpp:319-361 | Over every run: no settings reported as waiting after a Spin means that the controller runs with the live settings |
| `DriveNode.EngagedKeepsUntunable` | src/drive/drive_node.cpp:462-512 | However long an engagement lasts, the applied registers that need a restart do not change in it |
| `DriveNode.SpinKeepsInv` | src/drive/drive_node.cpp:319-361 | One Spin with any messages, commands and disturbances keeps all of this |
| `DriveNode.RunKeepsInv` | src/drive/drive_node.cpp:319-361 | So does every run |
| `DriveNode.SpinKeepsEmergency` | src/drive/drive_node.cpp:793-797 | The emergency stop is set exactly by its command and never cleared |
| `DriveReadiness.SpinEngagesIfAsked` | src/drive/drive_node.cpp:536-565 | A calm drive engages on the readiness messages of one dispatch exactly when some ENGAGED is not blocked by a re-arm at its place; a STANDBY or SLEEP behind it does not withdraw the request |
| `DriveReadiness.StandbyDoesNotWithdraw` | src/drive/drive_node.cpp:543-552 | The instance ENGAGED, STANDBY: the last message says off, the drive is engaged |
| `DriveReadiness.TripStaysOff` | src/drive/drive_node.cpp:399-413 | After a Spin that finds the stage lost, with the readiness in time or the cart holding the engagement (limp-home, stopping), no later Spin engages without a readiness other than ENGAGED |
| `DriveReadiness.TripWaits` | src/drive/drive_node.cpp:399-413 | Such a Spin leaves the drive disengaged, waiting for the re-arm and without a request |
| `DriveReadiness.ActingSetpointIsFresh` | src/drive/drive_node.cpp:319-333 | Whatever the outer loop works on after a Spin was accepted within the command timeout of that Spin |
| `DriveReadiness.ActingSource` | src/drive/drive_node.cpp:414-426 | What an engaged drive works on after SpinEngagement: the e-bike torque while the e-bike asks for the drive, else the cart torque once a wheel command came, else the last bus setpoint until the command timeout, else nothing |
| `DriveReadiness.RejectedSettingsEngageNextTime` | src/drive/drive_node.cpp:745-749 | An engage fails when the hardware rejects the waiting settings, but the next one releases the outputs with the motor not running |
| `DriveReadiness.DispatchTakesOff` | src/drive/drive_node.cpp:536-565 | For any dispatch, with or without a local control: an engaged drive is on after it exactly if no STANDBY, SLEEP, RESTART or EMERGENCY_STOP is in it; taken off, it asks nothing of the outer loop and its outputs are off |
| `DriveReadiness.DispatchDoesNotEngage` | src/drive/drive_node.cpp:536-565 | No dispatch engages; only the request of a Spin does |
| `DriveReadiness.SpinStaysEngagedIff` | src/drive/drive_node.cpp:536-565 | A calm Spin of an engaged drive on the bus ends engaged exactly if no other readiness came, or an ENGAGED behind the first other one asked again |
| `DriveMessages.DispatchWhileEngaged` | src/drive/drive_node.cpp:515-735 | Whatever a dispatch brings that does not take an engaged drive off: the last setpoint of the bus counts, the cart takes its messages in order, any readiness renews the time, accepted writes reach the live settings, and nothing else changes |
| `DriveMessages.EngagedSpin` | src/drive/drive_node.cpp:319-428 | One Spin of an engaged drive on the bus, from its messages alone: it stays engaged exactly with a readiness now or in time, or while the cart holds it (limp-home included), and then works on the cart, else the newest setpoint, else one in time; otherwise it is off |
| `DriveMessages.EngagedEbikeSpin` | src/drive/drive_node.cpp:363-397 | One Spin of an engaged e-bike: it stays engaged exactly while its update asks for the drive, and works on the torque of that update, whatever setpoints and readiness ENGAGED came |
| `DriveMessages.SpinEngagesIff` | src/drive/drive_node.cpp:319-345 | For any messages of a dispatch: a Spin engages a drive on the bus exactly if some ENGAGED was not blocked by a re-arm, no emergency stop came, no startup run is under way, waiting settings are accepted and the outputs allowed; no old setpoint acts then |
| `DriveMessages.DispatchWhileOff` | src/drive/drive_node.cpp:536-565 | Re-arm, request, emergency stop and readiness time of a drive that is off after any messages, from the list alone |
| `DriveMessages.StandbyAcknowledges` | src/drive/drive_node.cpp:553-564 | STANDBY clears trip and fault of a drive that is off without releasing anything, SLEEP does not; both re-arm it |
| `DriveMessages.WritesWhileOff` | src/drive/drive_node.cpp:812-832 | The live settings of a drive that is off after any register writes and factory resets |
| `DriveMessages.OffRunsLive` | src/drive/drive_node.cpp:319-361 | After every Spin that leaves drive and outputs off, the controller runs with the live settings that its messages left |
| `DriveMessages.WritesTuneOrWait` | src/drive/drive_node.cpp:335-341 | Writes to an engaged drive: in force at the end of the Spin if everything that differs is tunable, otherwise nothing changes and they are reported as waiting |
| `DriveMessages.RunKeepsParameters` | src/drive/drive_node.cpp:430-444 | Over every run command timeout, cart and e-bike parameters are those of the applied settings, although live tuning leaves the e-bike out |
| `DriveMessages.AidUnderWayIff` | src/drive/drive_node.cpp:780-797 | After any messages to a drive that is off a startup run is under way exactly if one was released (or active) and not ended since, with no emergency stop before; without one the outputs are off |
| `DriveMessages.AidSpin` | src/drive/drive_node.cpp:446-460 | One Spin of a startup run: it goes on or ends with the outputs off, and the drive stays disengaged |
| `DriveMessages.AidResultIsTaken` | src/drive/drive_node.cpp:446-460 | The Spin after its end restarts the controller once, under outputs that are off, with what it left in the settings |
| `DriveMessages.EngageOutcome` | src/drive/drive_node.cpp:736-764 | An engage request succeeds exactly if nothing refuses it, waiting settings are accepted and the outputs allowed; it clears the trip, the setpoint and the cart, and releases the outputs; a refusal of the outputs requires the re-arm, after trip and fault were acknowledged |
| `DriveFaults.AnyDisturbanceTakesOff` | src/drive/drive_node.cpp:399-413 | A trip, a lost external enable or the break input, in a message or at any place of a Spin, takes an engaged drive off, with a local control or without: disengaged, outputs off, the outer loop not active |
| `DriveFaults.DisturbanceTakesOff` | src/drive/drive_node.cpp:399-413 | Right before the supervision it does so whatever else the Spin brought, and what it latched stays latched |
| `DriveFaults.DispatchInterrupted` | src/drive/drive_node.cpp:515-565 | A dispatch that does not take an engaged drive off leaves its outputs on exactly without such a disturbance |
| `DriveFaults.DisengageKeepsFault` | src/drive/drive_node.cpp:766-778 | A disengage switches the outputs off, drops setpoint and cart, and leaves a latched fault and trip latched |
| `DeadMan.DeadManBound` | src/drive/drive_node.cpp:399-413 | Without a local control and with nothing heard after t0, every Spin later than t0 + command timeout and at least cart timeout + abs(torque) / ramp after t0 ends disengaged, for every cart mode, every spacing of the Spins, and with trips and a bus-off in between |
| `DeadMan.SilenceAfterAnyHistory` | src/drive/drive_node.cpp:319-361 | The bound from the start of operation: any timed history of messages, faults and settings, then silence for long enough, ends disengaged |
| `DeadMan.RunStamps` | src/drive/drive_node.cpp:319-361 | Over every timed run all time stamps are in the past and nothing is left over |
| `DeadMan.SilenceDisengages` | src/drive/cart_control.cpp:84-140 | The same from the last update within the cart timeout on |
| `DeadMan.UnheardSpin` | src/drive/drive_node.cpp:319-361 | A Spin that hears nothing and leaves the drive engaged only advances the cart, and the readiness is in time or the cart holds the engagement |
| `DeadMan.SpinStamps` | src/drive/drive_node.cpp:319-361 | One Spin keeps all time stamps in the past and leaves nothing over |
| `EbikeDrive.FaultStaysOff` | src/drive/drive_node.cpp:363-413 | With a local control, after a Spin that finds the stage lost and restarts nothing: no run engages the drive in which no computed e-bike update finds the pedals still, no settings are applied, and no inhibit meets a stale result; all messages may arrive in it |
| `EbikeDrive.FaultStaysOffInEveryRun` | src/drive/drive_node.cpp:319-413 | The same from the start of operation, whatever came before the fault |
| `EbikeDrive.FaultStaysOffIffNothingApplied` | src/drive/drive_node.cpp:340-345 | Both ways: every such run stays off exactly if the Spin of the fault restarts nothing, at its engage or at its end |
| `EbikeDrive.WaitingSettingsReengage` | src/drive/drive_node.cpp:340-345 | The failing run: settings wait when the stage is lost, the same Spin restarts the controller and clears the e-bike, and two Spins later the rider is engaged again with the crank turning all along |
| `EbikeDrive.LaterSettingsReengage` | src/drive/drive_node.cpp:340-345 | The same for settings that are applied while the drive is held off |
| `EbikeDrive.StaysOffIffComputedUpdate` | src/drive/drive_node.cpp:363-397 | After new parameters, both ways: the drive stays off along every such run exactly if the next e-bike update is computed and sees the fault while the drive is wanted or was engaged |
| `EbikeDrive.HeldOffExactly` | src/drive/drive_node.cpp:363-397 | The held-off state of an adjusted, otherwise ready drive is exactly the one from which no such run engages |
| `EbikeDrive.SpinHolds` | src/drive/drive_node.cpp:319-361 | One Spin, both ways: a held-off drive stays held off exactly if no restart comes at its end |
| `EbikeDrive.TripHoldsIff` | src/drive/drive_node.cpp:399-413 | A Spin that finds the stage lost leaves the drive waiting, and held off exactly if it restarted nothing |
| `EbikeDrive.EngagedWasAsked` | src/drive/drive_node.cpp:363-397 | After every engage request an engaged drive has a result of the e-bike that asks for it, unless a restart just cleared it |
| `EbikeDrive.RunKeepsResult` | src/ebike/ebike_control.cpp:89-155 | Over every run a result that asks for the drive comes from a want, or from before a latch |
| `EbikeDrive.InhibitReengagesIff` | src/drive/drive_node.cpp:553-557 | A STANDBY or SLEEP takes the drive off the e-bike, engaged or not before; the same Spin ends engaged exactly if the e-bike update is not computed and its last result asked for the drive, or if it is computed with a re-arm time of zero and the rider wants the drive |
| `EbikeFaultRun.WriteEngagesRiderAgain` | src/drive/drive_node.cpp:340-345 | The concrete run from the start of operation: ride, then a trip in a Spin that also brings any accepted register write, then two more Spins within a millisecond; the crank turns throughout, the drive goes off and is engaged again |
| `EbikeFaultRun.TripStopsRider` | src/drive/drive_node.cpp:363-413 | The same run without the write: however it goes on, with no computed update that finds the pedals still, no applied settings and no stale inhibit, the drive stays off |
| `DriveNodeObject.Node.constructor` | src/drive/drive_node.cpp:247-272 | Disengaged, outputs off, the live settings applied |
| `DriveNodeObject.Node.Disengage` | src/drive/drive_node.cpp:766-778 | Setpoint and cart dropped, outputs off unless a startup run owns them |
| `DriveNodeObject.Node.Engage` | src/drive/drive_node.cpp:736-764 | All refusals, the settings that wait, the acknowledged trip and the release |
| `DriveNodeObject.Node.ApplySettings` | src/drive/drive_node.cpp:462-489 | Refused under released outputs, otherwise the restart with the live settings |
| `DriveNodeObject.Node.TuneLive` | src/drive/drive_node.cpp:491-512 | If only tunable registers changed, every loop runs with the live settings afterwards and all of them count as applied; otherwise nothing in force changes and the settings wait for the disengage |
| `DriveNodeObject.Node.LoadParameters` | src/drive/drive_node.cpp:430-444 | Command timeout, cart and, only while disengaged, the e-bike |
| `DriveNodeObject.Node.OnReadiness` | src/drive/drive_node.cpp:536-565 | Request, re-arm, disengage and acknowledgement; what they mean for any dispatch is DispatchTakesOff, DispatchWhileOff and StandbyAcknowledges |
| `DriveNodeObject.Node.OnEmergencyStop` | src/drive/drive_node.cpp:793-797 | Latched, startup run aborted, disengaged |
| `DriveNodeObject.Node.SpinLocalControl` | src/drive/drive_node.cpp:363-397 | The e-bike asks for the drive, keeps the readiness fresh, or takes the drive off and re-arms it |
| `DriveNodeObject.Node.SpinStartup` | src/drive/drive_node.cpp:446-460 | One step of a run; its end asks for a restart |
| `DriveNodeObject.Node.SpinEngagement` | src/drive/drive_node.cpp:399-428 | Cart update, readiness timeout before trip, torque, setpoint timeout |
| `DriveNodeObject.Node.Spin` | src/drive/drive_node.cpp:319-361 | The state after one Spin with any messages, commands and disturbances in its gaps, and the invariant again |
| `DriveNodeObject.Node.SpinAll` | src/drive/drive_node.cpp:319-361 | The state after any history of Spins |
| `DriveNodeObject.Node.Operate` | src/drive/drive_node.cpp:319-361 | From the start through any history, on the fields: released outputs have one owner, the outer loop is active exactly while engaged and never on an old setpoint, restarts found the outputs off, nothing waiting means applied, and an emergency stop anywhere leaves everything off |
| `DriveNodeObject.Node.Dispatch` | src/drive/drive_node.cpp:319-323 | The loop over the messages of a Spin has the effect of the messages in their order |
| `DriveNodeObject.Node.HandToLoops` | src/drive/drive_node.cpp:505-509 | The loop hands over exactly the live values of the given registers |
| `DriveNodeObject.Node.FindUntunableChange` | src/drive/drive_node.cpp:94-120 | The loop finds the first untunable difference |
| `SlcanCodec.ParseUndoesFormat` | hardware/zephyr_sim/slcan_media.cpp:64-138 | The parser returns every printed frame: the low 29 bits of its identifier, at most 8 bytes, zeros behind them |
| `SlcanCodec.IdenticalIffClassic` | hardware/zephyr_sim/slcan_media.cpp:64-138 | It comes back identical if and only if it has a 29-bit identifier and at most 8 bytes with nothing behind them |
| `SlcanCodec.HexRoundTrip` | hardware/zephyr_sim/slcan_media.cpp:36-50 | Up to eight printed digits read back as the number, without wrap |
| `SlcanCodec.ParseHex` | hardware/zephyr_sim/slcan_media.cpp:34-50 | The digit loop gives the value modulo 2^32, or nothing for a character that is no digit |
| `SlcanCodec.FormatFrame` | hardware/zephyr_sim/slcan_media.cpp:120-138 | The buffer holds exactly the line and its CR, the rest is untouched; a short buffer is left alone |
| `SlcanCodec.ParseLine` | hardware/zephyr_sim/slcan_media.cpp:64-118 | Reply, frame and open state of every line |
| `SlcanHost.DigitsAreHexadecimal` | hardware/zephyr_sim/slcan_media.cpp:26-50 | The digits of both cases and no other character are read; upper-case ones are printed |
| `SlcanHost.LengthsOfCodes` | hardware/zephyr_sim/slcan_media.cpp:28-30 | The sixteen CAN FD lengths |
| `SlcanHost.HostFrameArrives` | hardware/zephyr_sim/slcan_media.cpp:64-118 | Every well-formed T, D or B line of a host brings exactly its frame, CAN FD lengths included; what follows the digits is ignored |
| `SlcanHost.FrameIffWellFormed` | hardware/zephyr_sim/slcan_media.cpp:64-118 | Exactly the well-formed lines bring a frame |
| `SlcanHost.RepliesToLines` | hardware/zephyr_sim/slcan_media.cpp:64-118 | Reply and open state of every line: BEL exactly for a malformed T, D or B, none for frames and the unused t, r, R, CR for the rest; O and L open, C closes |
| `SlcanPort.StreamIsWholeLines` | hardware/zephyr_sim/slcan_media.cpp:140-168 | For any lines and any answers of the UART the sent and the pending characters are a concatenation of whole lines, and the pending buffer never overflows |
| `SlcanPort.WriteKeepsInv` | hardware/zephyr_sim/slcan_media.cpp:155-168 | A line goes out whole or not at all |
| `SlcanPort.Port.Flush` | hardware/zephyr_sim/slcan_media.cpp:140-153 | The accepted part is sent, the rest moves to the front in place |
| `SlcanPort.Port.Write` | hardware/zephyr_sim/slcan_media.cpp:155-168 | Dropped whole while something is pending or nothing is accepted; otherwise its rest is pending |
| `SlcanPort.LineGoesOutIff` | hardware/zephyr_sim/slcan_media.cpp:155-168 | A line goes out, its first characters at once and all others behind them, exactly if the UART takes what was pending and something of it; otherwise none of it ever |
| `SlcanPort.NothingIsDropped` | hardware/zephyr_sim/slcan_media.cpp:140-168 | Over every run against a UART that takes everything, each line offered goes out once and in order |
| `SlcanReceiver.FramesArriveInOrder` | hardware/zephyr_sim/slcan_media.cpp:180-223 | A receiver of concatenated printed frames gets each once, in order, in its canonical form |
| `SlcanReceiver.ItemsArriveInOrder` | hardware/zephyr_sim/slcan_media.cpp:155-223 | With replies between the frames too: a receiver of any lines of a port gets each frame once and in order, except one right behind a BEL, which has no CR of its own |
| `SlcanReceiver.PortToReceiver` | hardware/zephyr_sim/slcan_media.cpp:140-223 | From a port that writes frames and replies to a receiver: what was sent so far yields a prefix of the frames that its lines bring, the pending characters the rest |
| `SlcanReceiver.LinesAreItems` | hardware/zephyr_sim/slcan_media.cpp:155-178 | Every line that a port writes is a frame, CR or BEL, so the theorem covers every port |
| `SlcanReceiver.Portions` | hardware/zephyr_sim/slcan_media.cpp:200-223 | It does not matter in which portions characters arrive |
| `SlcanReceiver.LineIsReceived` | hardware/zephyr_sim/slcan_media.cpp:200-223 | Any line with either end: the frame that it means if it fits into the line buffer, nothing if it is too long or empty, and the next line starts afresh |
| `SlcanBus.PopsInOrder` | hardware/zephyr_sim/slcan_media.cpp:200-236 | Over every run of polls of any ports, in any order, and pops: the popped frames and the shared ring together hold, port by port and in order, exactly the frames of the characters taken from that port, and nothing else; the ring never overflows |
| `SlcanBus.PoppedArePrefix` | hardware/zephyr_sim/slcan_media.cpp:140-236 | So the frames popped of a port are a prefix of those that the lines of its host bring |
| `SlcanBus.PopIsAccesses` | hardware/zephyr_sim/slcan_media.cpp:225-236 | Pop() is the polls of all ports in their order, each going on where the last Pop() left its stream, and one pop |
| `SlcanBus.Media.Deliver` | hardware/zephyr_sim/slcan_media.cpp:225-236 | Any number of calls of Pop() on the objects while the streams of all hosts arrive in any portions: the frames delivered from each port are a prefix of those of its stream, in order |
| `SlcanBus.Media.Pop` | hardware/zephyr_sim/slcan_media.cpp:225-236 | All ports polled into the shared ring, then its oldest frame, or none |
| `SlcanBus.Media.Poll` | hardware/zephyr_sim/slcan_media.cpp:200-223 | How many characters of the port are taken (up to the limit, the end of the input or a full ring), its line so far, and the frames appended to the shared ring; the other ports are untouched |
| `SlcanBus.Media.Complete` | hardware/zephyr_sim/slcan_media.cpp:180-192 | A complete line appends its frame, if it carries one |
| `SlcanBus.PollTakesWhatItCan` | hardware/zephyr_sim/slcan_media.cpp:200-223 | A poll leaves characters only at its limit or with a full ring, and takes none exactly with a full ring or no input |
| `AngleWrap.WrapAngle` | lib/motor_control/src/angle_wrap.hpp:37-51 | The loops end with the representative in (-pi, pi] |
| `AngleWrap.WrappedIsUnique` | lib/motor_control/src/angle_wrap.hpp:37-51 | There is only one |
| `AngleWrap.StepIsTrue` | src/current_control/outer_loop.cpp:114-124 | A wrapped difference is the true displacement exactly when that is in (-pi, pi] |
| `AngleWrap.CountIsDisplacement` | src/current_control/outer_loop.cpp:114-124 | Over any run with such steps the count is the true displacement, although only wrapped angles are seen |
| `AngleWrap.PositionCount.Advance` | src/current_control/outer_loop.cpp:114-124 | The position is the first angle plus the count of all angles since the restart |
| `Homing.DoneIffStalledLongEnough` | src/current_control/outer_loop.cpp:264-289 | A step enters kDone exactly when it stalls while searching in the engaged position mode and the stalled steps in a row cover the block time |
| `Homing.StallPushesForward` | src/current_control/outer_loop.cpp:272-279 | Exactly when a step stalls, per direction of the run: slower than half the homing speed and pushing forward with 99 % of a bound that is positive |
| `Homing.StallIsSymmetric` | src/current_control/outer_loop.cpp:272-279 | Runs in both directions stall alike |
| `Homing.FoundOnlyAfterStall` | src/current_control/outer_loop.cpp:264-289 | In every reachable kDone the last steps of the run stalled, as many as cover the block time |
| `Homing.SearchingOnlyInPositionMode` | src/current_control/outer_loop.cpp:237-262 | After every step kSearching means an active position setpoint; leaving it ends the run in kFault |
| `Homing.HoldStep` | src/current_control/outer_loop.cpp:222-235 | Zero stays held over a step exactly if it brings no restart, no disengage, no accepted request and no other position setpoint |
| `Homing.HoldsZero` | src/current_control/outer_loop.cpp:222-235 | Along every run of such steps the reference of the position mode is zero |
| `Homing.HomeIsHeld` | src/current_control/outer_loop.cpp:222-289 | Over every run from the start: once a step found home, after enough stalled steps, zero is held over any further run exactly while nothing else is asked for, with the setpoint of that step as zero |
| `Homing.HoldEndsIff` | src/current_control/outer_loop.cpp:222-235 | Over every run, both ways: a held zero is given up by exactly the steps that ask for something else |
| `Homing.Loop.Step` | src/current_control/outer_loop.cpp:87-159 | State after one step |
| `Homing.Loop.SearchHome` | src/current_control/outer_loop.cpp:264-289 | Blocked steps, phase and hold |
| `Homing.Loop.UpdateHoming` | src/current_control/outer_loop.cpp:237-262 | Request, loss of the mode and disengage |
| `Homing.ReferenceFollows` | src/current_control/outer_loop.cpp:222-235 | Over every run: after a step in the position mode the reference is zero while zero is held and otherwise the position of the setpoint of that step, unless it searches |
| `Homing.FollowsWithoutHoming` | src/current_control/outer_loop.cpp:222-235 | So without a homing request every step in the position mode follows its setpoint |
| `Homing.NewSetpointIsFollowed` | src/current_control/outer_loop.cpp:222-235 | The step that gives a held zero up for a new position setpoint follows it at once |
| `Homing.RequestFindsHome` | src/current_control/outer_loop.cpp:237-289 | A request in the position mode followed by steps that stall finds home exactly when they cover the block time |
| `Homing.RestartsAndRefusals` | src/current_control/outer_loop.cpp:237-262 | A restart ends a run and a hold; a request outside the position mode is refused with kFault |

## Left out

- Memory ordering weaker than sequential consistency, and floating-point rounding.
- The range checks of `Validate` field by field: an abstract predicate of the encoded registers.
- Node-ID allocation and the calibration commit of the startup aid change settings without a register
  write; they are not part of the pending property (src/drive/drive_node.cpp:446-460 and 833-848).
- `UnsavedCount`: it does not count the erasures of a pending repair (lib/settings/settings_store.hpp:750-759).
- `HasDuplicatePort` and the port collisions; register names and descriptions.
- The speed and position controllers, the DC-link limit, the Kalman filter, flux observer, HFI, SVM,
  pedal observer and assist law: their results are inputs of a step.
- Conversion of torque to current and the current limit of a setpoint: a setpoint is what asked for it.
- The restart command's timer, status publications, logs and telemetry of the drive node.
- Init() of the control cycle while gains are being handed over; the runtime is stopped then.
- Open state of slcan ports and forwarding between them.
- CAN, UART, GPIO, ADC and clock set-up, ADC scaling, dead-time encoding, threads and command line.
- CAN transport and DSDL decoding; messages arrive decoded, and a malformed one is no message.
- DriveNodeObject.Node.LoadParameters: without the publication rates, the cart wheel, the current limit and the torque constant, which only publications and conversions use.
- DutyDelivery.FocDriver.SetDutyTicks: has updates in front of the re-check of the normal branch only; updates between any accesses are in the step system (`DutyDelivery.Call`).
- DutyDelivery.Simulator.RunCycle: the duty lines of the loop, without the samples and the trip of a sample.
- DutyMissed.LateRunRefinesSimulator: no update among the writes of a call; `SplitEarlyCallIsStale` shows what one does to an early call.
- EbikeControl.Control.ServiceDisplay: without the battery bars and the reply frame, which publish only.
- EbikeControl.NoEngagementAfterFault: excludes new parameters, which clear the latch (`LatchEndsIff` has both ways).
- EbikeControl.LatchHolds: the same.
- EbikeDrive.FaultStaysOff: excludes applied settings and stale inhibits, with which the code does engage again (see above).
- Homing.Loop.Step: the homing lines of the step only.
- SeqLock.Lock.Read: models writes that preempt single tries; all interleavings are proved about the step system.
- Homing.HoldStep: needs a step shorter than the block time, as every supported PWM frequency gives.
- SlcanBus.Media.Poll: without the flush at its start and the replies, which are writes of the port (`SlcanPort`).
- SlcanBus.Media.Complete: without the reply, the open state and the forwarding to the other ports.
- DutyMissed.UnsplitCycle: no update among the writes of the call, as in LateRunRefinesSimulator.
- EbikeDrive.FaultStaysOffInEveryRun: the exclusions of FaultStaysOff, from the start of operation.
