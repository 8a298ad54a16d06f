# A verified model of the meter firmware's stateful core

This project models the parts of the three-phase meter firmware that keep state
across faults, power losses and interleavings, and proves what they promise. The
hardware, the NVS flash, the FAT card and the RTOS appear as small abstract stores
whose operations may fail; every failure, tear and interleaving is universally
quantified. Each object that the firmware updates in place is a class whose methods
equal a transition function on values; the theorems are about all runs of those
functions.

| file | what it models |
|---|---|
| `EnergyPersist.dfy` | the energy counters in two alternating flash slots with a wrapping 16-bit number |
| `EnergyCounts.dfy` | the read-to-clear energy registers, polls and paused drains |
| `DemandWindow.dfy` | the demand window and its peak |
| `CalibMath.dfy` | the integer roundings of the calibration, with C truncation and 64-bit wrap |
| `CalibChip.dfy` | the register image, its write and read-back over a faulty bus |
| `CalibControl.dfy` | relay, rollback and multi-phase auto-calibration as transactions |
| `CalibBackup.dfy` | the 72-byte calibration backup file |
| `ConfigCodec.dfy`, `Layout.dfy` | the 1156-byte append-only configuration record, byte by byte |
| `ConfigManager.dfy` | the three-way merge of RAM, domain records and shadow |
| `ModbusMaster.dfy` | the polling task against its writers, step by step |
| `AlarmAnchor.dfy` | from alarm limits and live readings to comparator thresholds |
| `AlarmManager.dfy` | gates, confirm window, latch, incident log and arming, pass by pass |
| `SdLog.dfy` | the generation chain of the energy log |
| `CInt.dfy`, `Options.dfy` | C integer arithmetic; optional values |

Where the code and its comments disagree, the model follows the code. Where a
promise fails, a lemma names the input and the exact condition is proved:

- After several failed saves a boot may bring back an earlier failed attempt, not
  the last completed save nor the one in progress (`StaleAttemptComesBack`,
  `RestoresCompletedOrLatest`).
- Energy misses the CT factor of power by what was drained under a swapped transformer
  (`EnergyShortfall`, `SameFactorAsPower`, `DrainedPulseIsUnderweighted`).
- A gain product beyond 64 bits wraps: a reference of 562950016 units is accepted with
  a wrong gain (`HugeReferenceIsAccepted`), and a good gain can be refused
  (`HugeReferenceOverflows`); `GainIsRightExactly` says when.
- Applying a calibration reports success although a mode register kept its old value
  (`DroppedModeGoesUnnoticed`).
- The display cycle time is read without a presence check, so a record ending before
  it relies on the cleared buffer (`CycleTimeReadsPastShortRecord`); the decoder's comment
  speaks of uninitialised bytes there, but the store clears the buffer first.
- The comment on the old backup header puts the version before the header length; the
  code reads them the other way round, and so does the model (`HeadOf`).
- An accepted update with a bad type in an unused slot is refused on the next load
  (`AcceptedIsLoadable`, `UnusedSlotSpoilsTheRecord`), and rounding to tenths can merge
  two thresholds (`ReloadedIsAcceptable`, `CloseLimitsSpoilTheReload`).
- A failed domain write makes the next save undo the change (`FailedPushIsReverted`,
  `SurvivesFailedPush`), a failed snapshot write hides a later update
  (`FailedSnapshotHidesLaterUpdate`, `SurvivesFailedSnapshot`), and a save overwrites an
  update that arrives while it works (`OvertakingUpdateIsLost`).
- A configuration update during task start is not picked up
  (`UpdateDuringStartIsMissed`, `PickedUpExactly`).
- "A new limit can never be judged against the old comparator value" fails in the
  passes that open a gate, because a pass judges words it read before it wrote
  (`JudgedFreshExactly`, `UndisturbedPass`, `DefaultsAreJudged`, `StaleVerdictLatches`);
  and a request that overtakes such a pass is lost (`OvertakenRequestIsLost`,
  `ComparatorExactly`).
- A missing domain record does not replace a value of the snapshot at a start, but the
  next save takes its defaults for a newer change (`LoadedSurvivesSave`,
  `MissingRecordLosesTheName`).
- An old record can load into a configuration that, saved again, does not load
  (`RestoredIsStorable`, `ResavedOldRecordSpoils`).
- A row logged with success is lost if the row before broke off (`ReportedRowIsRead`,
  `RowAfterCutIsTorn`).
- A confirmed fault latches late if it began on tick zero or after a full turn of the
  clock (`TickZeroDelays`, `FullTurnDelays`, `LatchesExactly`).

Assumptions taken as given: saves of the energy counters are serialised; the boot
load can read every valid slot; a torn slot fails its check; over whole runs the
configuration records can be read, and no other writer runs between a save's read and
write of one record; a failed register read does not clear the register and a register
read never lies; inside one threshold pass nothing is requested, and an alarm evaluation
and a latch reset are atomic to each other; a configuration change and its threshold
request come as one step; copying the configuration out is atomic.

## Model

| member | source | states |
|---|---|---|
| CInt.CDivTruncates | components/atm90e32as/atm90e32as.c:205-206 | C division and remainder: quotient toward zero, remainder with the dividend's sign and smaller than the divisor |
| EnergyPersist.CastsAgree | main/app/energy_meter_task.c:236 | the cast of the 16-bit difference picks the newer number exactly as the linear comparison does |
| EnergyPersist.EnergyAccum.Load | main/app/energy_meter_task.c:207-262 | boot takes the newest valid slot whole, its number and total, or changes nothing |
| EnergyPersist.EnergyAccum.SaveCounters | main/app/energy_meter_task.c:266-315 | a save writes the next number into the slot of its parity, and only success moves number, total, stamp and dirty flag (`SaveDoes` says how, field by field) |
| EnergyPersist.EnergyAccum.ServiceTick | main/app/energy_meter_task.c:319-349 | marks a difference as pending and saves when the trigger says so; when that is, `TickWritesExactly` says |
| EnergyPersist.EnergyAccum.ResetEnergy | main/app/energy_meter_task.c:1230-1250 | clears the four counters and attempts a save at once |
| EnergyPersist.EnergyAccum.ResetDemandPeak | main/app/energy_meter_task.c:1252-1272 | clears the stored peak, marks a change and attempts a save at once |
| EnergyPersist.EnergyAccum.SetDemandWindow | main/app/energy_meter_task.c:1283-1297 | refuses a window of no minutes; another one is only marked for a later save |
| EnergyPersist.SaveDoes | main/app/energy_meter_task.c:266-315 | field by field: odd numbers go to slot A and even ones to slot B; success moves number, safe total (all four energies), stamp and dirty flag, a failure none of them |
| EnergyPersist.BootDoes | main/app/energy_meter_task.c:207-262 | field by field: the flash stays, the period starts anew with nothing pending, and the counters are those of the only valid slot, or of the one that is ahead by less than half the circle of numbers, or zero |
| EnergyPersist.ResetsDo | main/app/energy_meter_task.c:1230-1272 | field by field: a reset is a save of counters whose reset fields alone are zero; a failed one leaves its change pending |
| EnergyPersist.WindowDoes | main/app/energy_meter_task.c:1283-1297 | field by field: a new window is taken and pends, everything else stays |
| EnergyPersist.StepFollowsDevice | main/app/energy_meter_task.c:207-349 | the instrumented run is the device's own behaviour |
| EnergyPersist.BootRestoresDurable | main/app/energy_meter_task.c:207-315 | after any run of saves, failures, tears and reboots a boot restores one whole record, no older than the last completed save |
| EnergyPersist.SlotsAlternate | main/app/energy_meter_task.c:288-308 | slot A holds only odd and slot B only even numbers, two valid slots are neighbours mod 2^16, and the loader picks the later attempt |
| EnergyPersist.NextSaveSparesLoaded | main/app/energy_meter_task.c:217-308 | the save after a boot never touches the slot just loaded, and becomes the newest when it succeeds |
| EnergyPersist.FailedSavesLeave | main/app/energy_meter_task.c:264-315 | after any run, any series of failed saves leaves a boot the last attempt that changed the flash if it landed whole, the newest safe copy if it was torn, and what it would have restored before if none changed the flash |
| EnergyPersist.RestoresCompletedOrLatest | main/app/energy_meter_task.c:264-315 | after any run that ends with a completed save, "the last completed save or the one in progress" holds exactly when no earlier failed attempt was the last to land whole |
| EnergyPersist.StaleAttemptComesBack | main/app/energy_meter_task.c:288-308 | two failed saves after a good one: the boot restores the first of them |
| EnergyPersist.ServiceBounds | main/app/energy_meter_task.c:319-349 | after a service tick with a working flash less than the threshold is unsaved, and nothing for a whole period |
| EnergyPersist.QuietAfterSave | main/app/energy_meter_task.c:266-341 | after a completed save no tick writes for ten minutes unless the counters move by 50 Wh |
| EnergyPersist.RunIsAccounted | main/app/energy_meter_task.c:207-349 | in every run stamp, safe total, dirty flag, attempts, last success and drift are what an account of the events alone says |
| EnergyPersist.TickWritesExactly | main/app/energy_meter_task.c:319-349 | after any run a tick attempts a write, of the counters as they stand, iff they differ from the safe value by 50 Wh or more, or a change is pending and ten minutes have passed since the last completed save or boot; otherwise both slots stay |
| EnergyPersist.CrashLosesLittle | main/app/energy_meter_task.c:264-349 | over every run with a working flash a crash loses less than the threshold plus what moved since the last tick |
| EnergyPersist.DemandPeakNeverTriggers | main/app/energy_meter_task.c:326-339 | a new demand peak alone never causes a save |
| EnergyCounts.MeterTask.ReadEnergyCounts | components/atm90e32as/atm90e32as.c:666-709 | every register is attempted; exactly those read are cleared and reported valid; success if any was |
| EnergyCounts.MeterTask.Accumulate | main/app/energy_meter_task.c:844-865 | only valid counts are added, weighted with the count size and the CT scale |
| EnergyCounts.MeterTask.Poll | main/app/energy_meter_task.c:991-1014 | a measuring pass folds in whatever the four reads brought |
| EnergyCounts.MeterTask.Pause | main/app/energy_meter_task.c:966-989 | while paused, one drain per ten seconds with scale one |
| EnergyCounts.NctScale | main/app/energy_meter_task.c:1005-1010 | the CT scale times the ratio at calibration is the present ratio when both are known, and one otherwise; it is one only when no rescale applies |
| EnergyCounts.CountsConserved | main/app/energy_meter_task.c:844-865 | over every run each generated pulse is accumulated, in the chip, or dropped by a full register, and the accumulator holds exactly the polled pulses, each at the CT scale of its poll, plus the drained ones; none is dropped iff no register was ever full |
| EnergyCounts.EnergyOfCounts | main/app/energy_meter_task.c:844-865 | in every run the accumulated energy is the polled counts at their own scales plus drained counts at one, and the scale times all polled counts while no transformer is swapped |
| EnergyCounts.UnscaledRunsCount | main/app/energy_meter_task.c:844-865 | with no transformer swapped the accumulator is what was generated less what was dropped and what is still in the chip |
| EnergyCounts.EnergyShortfall | main/app/energy_meter_task.c:966-1014 | in every run the energy falls short of the factor that power has by exactly what the drains missed |
| EnergyCounts.SameFactorAsPower | main/app/energy_meter_task.c:966-1014 | energy has the same factor as power iff the drains missed nothing in sum; with drains on one side of one, iff none took counts under a swapped transformer |
| EnergyCounts.DrainedPulseIsUnderweighted | main/app/energy_meter_task.c:981-985 | one pulse drained under a transformer of twice the ratio counts once instead of twice |
| EnergyCounts.MeterFollowsEvents | main/app/energy_meter_task.c:966-1014 | event by event: pulses pile up to the register's end, a poll that reads the register turns 320 counts into a watt-hour times the factor of the transformers, a drain at most every ten seconds does so at one |
| DemandWindow.DemandMeter.Sample | main/app/energy_meter_task.c:1038-1062 | a sample integrates power over the accepted gap and publishes when the window is full |
| DemandWindow.DemandMeter.ResetDemand | main/app/energy_meter_task.c:1252-1272 | clears value, peak and the running window |
| DemandWindow.DemandMeter.SetWindowMinutes | main/app/energy_meter_task.c:1283-1297 | refuses zero; otherwise restarts the window at the new length |
| DemandWindow.PublishedIsMean | main/app/energy_meter_task.c:1038-1062 | a published value is the time-weighted mean of exactly the accepted stretches, between their extremes, over at least the configured time, less than one permitted gap more and no more than really passed |
| DemandWindow.PeakBoundsValues | main/app/energy_meter_task.c:1056-1058 | the peak bounds every value since the last reset or restore and is one of them or the restored peak |
| DemandWindow.LongGapAddsNothing | main/app/energy_meter_task.c:1042-1051 | first samples, backward clocks and gaps beyond two poll periods contribute nothing |
| DemandWindow.MeterFollowsEvents | main/app/energy_meter_task.c:1038-1062 | in every run the meter holds what its events alone make it hold, to the microsecond: gaps of up to two million count, a window is 60 seconds for every minute set, and restores, resets, pauses and new lengths do what they say |
| CalibMath.RoundDivIsNearest | main/app/energy_meter_task.c:2498-2502 | the open-coded rounding is nearest-integer division, half away from zero, symmetric about zero |
| CalibMath.NearestIff | main/app/energy_meter_task.c:2498-2502 | the nearest integer is unique, so the rounding is characterised both ways |
| CalibMath.GainIsNearest | components/atm90e32as/atm90e32as.c:188-214 | within 64 bits the gain is the nearest integer to old times reference over measured, refused exactly outside 1..65535 |
| CalibMath.GainIsRightExactly | components/atm90e32as/atm90e32as.c:188-214 | for every gain, reference and reading: a gain that exists is returned iff the product fits 64 bits; where none exists the code refuses iff the wrapped product is below half a reading or at least 65535.5 readings |
| CalibMath.HugeReferenceIsAccepted | components/atm90e32as/atm90e32as.c:196-212 | 562950016 units against a reading of 230 are accepted as gain 8916 |
| CalibMath.CalculatedGainIsNearest | components/atm90e32as/atm90e32as.c:188-214 | from reference and reading in units: refused as no reading iff either is below half a micro-unit, else the nearest gain to the quotient of two numbers within half a micro-unit of them |
| CalibMath.HugeReferenceOverflows | components/atm90e32as/atm90e32as.c:204 | a product that overflows also makes the code refuse a good gain, at readings as large as the reference |
| CalibMath.OrdinaryReferencesFit | components/atm90e32as/atm90e32as.c:196-204 | references up to 140 million units never overflow the product |
| CalibMath.ResidualIsLeast | components/atm90e32as/atm90e32as.c:196-207 | on a linear channel the new gain leaves at most half a gain step, and no other gain leaves less |
| CalibMath.PqGainIsNearest | main/app/energy_meter_task.c:2556-2576 | the PQ gain composes the old factor with reference over reading, rounded, refused only from a factor of two up; no overflow on the stated range |
| CalibMath.PhiIsNearest | main/app/energy_meter_task.c:2689-2709 | while the product fits 64 bits the phase delay is the nearest cycle of either sign, refused exactly beyond 255 |
| CalibMath.ChipReadingsFit | main/app/energy_meter_task.c:2688-2695 | readings up to 2.4 gigawatts never overflow that product |
| CalibMath.GphaseFollowsFrequency | main/app/energy_meter_task.c:2667 | each phase constant is the whole number closest to 2.048 MHz over its own line frequency times 2 pi root three, in thousandths |
| CalibMath.DelayFollowsError | main/app/energy_meter_task.c:2689-2709 | a chip that reads too much asks for a positive delay, one that reads too little for a negative one |
| CalibMath.RunningSumFits | main/app/energy_meter_task.c:2483-2494 | the running sum of the samples stays within 64 bits |
| CalibMath.AveragePower | main/app/energy_meter_task.c:2474-2504 | the average is the nearest milliwatt to the mean of all samples; one bad sample fails the call |
| CalibMath.AverageIsBetween | main/app/energy_meter_task.c:2498-2502 | a rounded mean lies between any bounds on its samples |
| CalibChip.RegistersAreDistinct | components/atm90e32as/atm90e32as.c:429-433 | the 27 calibration registers are pairwise distinct and none is a mode, limit or lock register |
| CalibChip.ImageIsUnique | components/atm90e32as/atm90e32as.c:378-385 | the nine register values, sign-magnitude delay included, determine the phase calibration |
| CalibChip.ModesAreUnique | components/atm90e32as/atm90e32as.c:347-364 | the two mode registers determine wiring, line frequency and gain stage |
| CalibChip.Atm90e32.WriteRegister | components/atm90e32as/atm90e32as.c:280-284 | a write is stored, silently dropped, or fails |
| CalibChip.Atm90e32.WriteCalibrationRegisters | components/atm90e32as/atm90e32as.c:395-422 | the nine registers of each phase in order, the delay checked before it is written, stopping at the first error |
| CalibChip.Atm90e32.VerifyCalibrationRegisters | components/atm90e32as/atm90e32as.c:424-452 | reads back all 27 and stops at the first failed read or mismatch |
| CalibChip.Atm90e32.ApplyCalibration | components/atm90e32as/atm90e32as.c:461-496 | validate, unlock, write, modes, verify, always lock again, and remember the calibration only on success |
| CalibChip.SuccessMeansWritten | components/atm90e32as/atm90e32as.c:461-496 | success means all 27 registers hold the image whatever was dropped; failure keeps the remembered calibration |
| CalibChip.AppliedByNumber | components/atm90e32as/atm90e32as.c:395-450 | after success each of the 27 registers, by its address, holds its own field of its own phase, in two's complement or as magnitude with sign |
| CalibChip.UnusableIsRefused | components/atm90e32as/atm90e32as.c:168-186 | a calibration of an unknown kind or with a gain of zero is refused before any transfer; success means it was neither |
| CalibChip.ChipIdentifiesCalibration | components/atm90e32as/atm90e32as.c:424-496 | equal chip images after two successes mean equal calibrations |
| CalibChip.ModesFollowTheirTransfers | components/atm90e32as/atm90e32as.c:474-483 | after success each mode or limit register has its new value iff its own transfer was not dropped |
| CalibChip.ModesApplied | components/atm90e32as/atm90e32as.c:347-376 | where none of their transfers was dropped, the mode and limit registers, by address, hold wiring, frequency, gain stage and limits |
| CalibChip.LocksAgain | components/atm90e32as/atm90e32as.c:461-496 | once the chip has been unlocked the last transfer locks it again, whatever failed in between; only if that one goes wrong does it stay open; success takes 61 transfers |
| CalibChip.DroppedModeGoesUnnoticed | components/atm90e32as/atm90e32as.c:475-487 | the wiring-mode register can stay stale although applying reports success |
| CalibChip.UnverifiedDropsApply | components/atm90e32as/atm90e32as.c:461-496 | a valid calibration is applied whenever no transfer fails and no verified write is dropped |
| CalibChip.OtherRegistersUntouched | components/atm90e32as/atm90e32as.c:461-496 | success or failure, no other register changes |
| CalibMath.LlRoundIsNearest | main/app/energy_meter_task.c:2243 | rounding to an integer moves a number at most half a step, symmetric about zero |
| CalibControl.EnergyMeter.Apply | main/app/energy_meter_task.c:1467-1503 | relay first on a wiring change, relay and previous image back on failure, all copies follow on success |
| CalibControl.EnergyMeter.SetWiringMode | main/app/energy_meter_task.c:1505-1521 | changes the mode of both copies and applies on request |
| CalibControl.EnergyMeter.ChangeLineFreq | main/app/energy_meter_task.c:1444-1465 | refuses an unknown frequency, stamps both copies, applies on request |
| CalibControl.EnergyMeter.ApplyCalibration | main/app/energy_meter_task.c:1523-1536 | applies the stored phases under the running gain stage, frequency and wiring |
| CalibControl.EnergyMeter.InstallPhases | main/app/energy_meter_task.c:1743-1778 | installs phases from a backup, keeping chip-wide settings, with or without applying |
| CalibControl.EnergyMeter.ImportCalib | main/app/energy_meter_task.c:1590-1634 | an old whole calibration is validated and takes over phases and wiring under the running gain stage and frequency, with or without applying |
| CalibControl.EnergyMeter.AutoCalibrateMulti | main/app/energy_meter_task.c:2172-2391 | the whole auto-calibration: rejections, offset and gain paths, rollback and outcome |
| CalibControl.ApplyIsAtomic | main/app/energy_meter_task.c:1467-1503 | applying installs exactly the target, read back from the chip register by register, or leaves every copy and the relay as they were, after trying to write the old one again if the wiring would have changed |
| CalibControl.RelayFollowsApplied | main/app/energy_meter_task.c:1467-1503 | over every run of all calibration commands and bus faults the relay is closed iff the applied calibration is three-wire, and the driver scales by that same calibration |
| CalibControl.PowerOffsetIsAllOrNothing | main/app/energy_meter_task.c:2413-2467 | power-offset calibration leaves the negated reading in the one register asked for, with a residual in tolerance, or, if the rollback is written, the original |
| CalibControl.AutoCalibrationIsAllOrNothing | main/app/energy_meter_task.c:2172-2391 | commit only the requested register of the masked phases, an offset opposite to the reading to the nearest step or the gain of that phase's reference and reading, or fail with nothing changed, or roll back to exactly the original |
| CalibControl.PowerOffsetSucceedsExactly | main/app/energy_meter_task.c:2413-2467 | on a bus without faults power-offset calibration succeeds iff the reading was had, its negation fits 16 bits and the residual is in tolerance; otherwise it says which failed, and the original is back |
| CalibControl.AutoCalibrationSucceedsExactly | main/app/energy_meter_task.c:2172-2391 | on a bus without faults auto-calibration commits iff every reading was had and every offset fits its register or every gain exists; otherwise the original is in force |
| CalibControl.OffsetsAreZeroedFirst | main/app/energy_meter_task.c:2206-2260 | while an offset is measured exactly the requested offsets are zero |
| CalibControl.RefusedExactly | main/app/energy_meter_task.c:2172-2206 | no phase or an unknown one, and any request while three-wire is applied, are refused with nothing changed |
| CalibControl.TrialIsAllOrNothing | main/app/energy_meter_task.c:2506-2771 | a trial ends with exactly the tuned calibration if it was computed, applied and accepted, else with the original if that could be written again |
| CalibControl.ChipwideCommandsDo | main/app/energy_meter_task.c:1444-1521 | field by field: wiring and frequency change in both copies even if they then cannot be applied; nothing else of the running one changes |
| CalibControl.PhaseCommandsDo | main/app/energy_meter_task.c:1405-1634 | field by field: taking over phases keeps the running gain stage and frequency, loading a calibration outright does not |
| CalibControl.ProfileCommandsDo | main/app/energy_meter_task.c:497-558 | field by field: the stored profile gives only its phases, the defaults are unity in every phase, a change of transformer moves the gain stage alone |
| CalibBackup.Pack | main/app/energy_meter_task.c:1808-1845 | the packed file is the header and payload of the running calibration |
| CalibBackup.UnpackInto | main/app/energy_meter_task.c:1852-1977 | present and older files: the checks in the code's order, then phases or the whole calibration installed |
| CalibBackup.PayloadRoundTrip | main/app/energy_meter_task.c:1714-1741 | all nine fields of all phases survive little-endian words and signed reinterpretation |
| CalibBackup.FileByNumber | main/app/energy_meter_task.c:1808-1845 | a backup byte by byte: 72 of them, the name, both lengths, wiring and checksum, and three times nine little-endian words |
| CalibBackup.ParsedByNumber | main/app/energy_meter_task.c:1852-1956 | whatever file is accepted, of any age, names itself, gives its length and checksum, and holds the parsed phases or calibration at these byte offsets |
| CalibBackup.RefusedInOrder | main/app/energy_meter_task.c:1852-1935 | which files are refused for size, name, header length, version and checksum, in the order of the checks |
| CalibBackup.ParseOfPack | main/app/energy_meter_task.c:1808-1956 | a packed file parses back to its phases, refused iff a gain is zero |
| CalibBackup.PackOfParse | main/app/energy_meter_task.c:1852-1956 | an accepted file of the present format with a known tag is byte for byte the backup of what it parses to |
| CalibBackup.RepackReads | main/app/energy_meter_task.c:1808-1977 | an accepted file of phase values of any age, packed again, parses to the same phases and wiring |
| CalibBackup.NoFileChangesChipwide | main/app/energy_meter_task.c:1747-1775 | no file of any age changes the running gain stage or line frequency |
| CalibBackup.RestoreFromBackup | main/app/energy_meter_task.c:1743-1778 | restoring with apply brings all fields while gain stage, frequency and wiring stay |
| CalibBackup.StashFromBackup | main/app/energy_meter_task.c:1769-1778 | restoring without apply changes the stored profile only |
| CalibBackup.RefusedFileLeavesMeter | main/app/energy_meter_task.c:1852-1977 | a file refused for its form or for an invalid calibration changes nothing |
| Layout.ReadText | main/app/config_manager.c:178-190 | a stored text field reads back as the text cut to its field |
| Layout.ReadTexts | main/app/config_manager.c:178-190 | a table of text fields reads back field by field |
| ConfigCodec.EncodeInto | main/app/config_manager.c:236-316 | the record filled in place equals the encoding |
| ConfigCodec.RecordByNumber | main/app/config_manager.c:60-170 | the whole record byte by byte: every field of every group at its own offset, numbers low byte first, texts ended by a zero, levels to the nearest tenth |
| ConfigCodec.ReadSlotTable | main/app/config_manager.c:588-604 | the slot loop accepts exactly the well-formed tables and reads every slot |
| ConfigCodec.ValidateSlots | main/app/config_manager.c:1198-1214 | the nested loop accepts exactly the tables whose used slots have known types and distinct legal addresses |
| ConfigCodec.DecodeReadsOnlyStored | main/app/config_manager.c:342-384 | from the cycle-time field on, a record decodes from its stored bytes alone |
| ConfigCodec.CycleTimeReadsPastShortRecord | main/app/config_manager.c:529 | below that size two buffers with the same stored bytes decode differently |
| ConfigCodec.DecodeOfStored | main/app/config_manager.c:318-631 | a record cut to what firmware of any age wrote, from the 904 bytes of the first on, decodes to canonical groups and documented fallbacks, with the stored low bytes of a cut cycle time, and is refused iff a stored group is out of range |
| ConfigCodec.DecodeOfEncode | main/app/config_manager.c:236-631 | decode after encode is the canonical form, exactly for storable configurations; what it keeps is `ReloadKeeps` |
| ConfigCodec.ReloadKeeps | main/app/config_manager.c:397-631 | field by field: a storable configuration comes back with every text as far as it fits, every number and choice in range, levels to the tenth; only zero ratios, ratios off their steps and choices out of range are replaced, by these values |
| ConfigCodec.OldRecordIsFilled | main/app/config_manager.c:318-631 | field by field: what stands for every group that an old record lacks: limits by line frequency, one device with its name by type, ratios, access point, link speed and roles |
| ConfigCodec.RecordRefusedExactly | main/app/config_manager.c:318-631 | for any bytes at all: a foreign head or a size not its own, and then any bad flag or choice in a stored group, by its offset, and nothing else refuses a record |
| ConfigCodec.LongerPrefixKeepsGroups | main/app/config_manager.c:346-372 | a longer prefix decodes every group of a shorter one the same, and the shorter one has the low bytes of its cycle time |
| ConfigCodec.RestoredIsStorable | main/app/config_manager.c:529-631 | what an old record decodes to can be stored again iff the link speed taken over from the bus and the type of the synthesised slot are in range |
| ConfigCodec.ResavedOldRecordSpoils | main/app/config_manager.c:318-631 | a first-version record with an unknown bus speed loads, and saved again leaves a record that cannot be loaded |
| ConfigCodec.CanonIsIdempotent | main/app/config_manager.c:397-631 | saving and loading twice equals once, and the canonical form stays storable |
| ConfigCodec.QuantisedIsClose | main/app/config_manager.c:305-312 | storing a level moves it at most 0.05, and storing it again no further |
| ConfigCodec.SnapCtTwice | main/app/config_manager.c:455-478 | the CT ratio lands in 1000..6000 in steps of 100, within 50 of an in-window value, once and for all |
| ConfigCodec.AcceptedIsLoadable | main/app/config_manager.c:1234-1270 | an accepted update loads again iff line frequency, wiring, TLS mode and unused slot types are in range |
| ConfigCodec.RefusedExactly | main/app/config_manager.c:1157-1265 | an update is refused for these limits, slots, periods, codes, ratios and names, and for no other reason |
| ConfigCodec.UpdateMirrors | main/app/config_manager.c:1218-1270 | an accepted update is taken as it is but for the device register, the type of the first used slot |
| ConfigCodec.UnusedSlotSpoilsTheRecord | main/app/config_manager.c:1188-1221 | an accepted update with type 2 in an unused slot leaves a record that cannot be loaded |
| ConfigCodec.ReloadedIsAcceptable | main/app/config_manager.c:1157-1186 | what a reload returns passes an update iff rounding kept the thresholds apart |
| ConfigCodec.CloseLimitsSpoilTheReload | main/app/config_manager.c:1157-1186 | limits of 229.98 V and 230.01 V are accepted and loaded, and then refused when submitted again |
| ConfigCodec.ThresholdsCanMerge | main/app/config_manager.c:305-312 | 229.98 V and 230.01 V come back equal |
| ConfigManager.SharedLaws | main/app/config_manager.c:670-686 | the thirteen shared fields are a view that reads and writes back exactly |
| ConfigManager.ConfigManager.LoadConfig | main/app/config_manager.c:1050-1111 | decode or migrate, overlay the records that exist and can be read, take the shadow, then clamp; without the buffers fall back or change nothing; `NextStartKeeps` and `StartWithoutSnapshot` say what results |
| ConfigManager.FaultyLoadAgrees | main/app/config_manager.c:692-730 | for any flash and any unreadable records, a load starts from a field's domain value iff its record exists and can be read, or snapshot or defaults say the same |
| ConfigManager.LoadedSurvivesSave | main/app/config_manager.c:688-853 | for any flash, what a start loads survives the first complete save, field by field, iff the record exists or the value is the default |
| ConfigManager.MissingRecordLosesTheName | main/app/config_manager.c:800-816 | a renamed device whose first system record could not be written keeps the name over a restart and loses it at the next save |
| ConfigManager.ConfigManager.UpdateConfig | main/app/config_manager.c:1234-1270 | an accepted update replaces the snapshot with its mirror register renewed |
| ConfigManager.ConfigManager.MergeField | main/app/config_manager.c:747-798 | one field of the merge: both sides get the winner, dirty iff RAM alone moved |
| ConfigManager.ConfigManager.MergeWire | main/app/config_manager.c:818-836 | the seven network fields merge one by one |
| ConfigManager.ConfigManager.PushDomains | main/app/config_manager.c:800-853 | the three domains merge; a record is rewritten iff it could be read, RAM moved one of its fields and the write succeeds; one that cannot be read is skipped |
| ConfigManager.ConfigManager.SaveConfig | main/app/config_manager.c:1272-1310 | merge a copy, write the snapshot, publish it and move the shadow only on success; an update that arrives meanwhile is overwritten by a successful save |
| ConfigManager.SaveAfterAnyRun | main/app/config_manager.c:800-853 | after any run a successful save, whatever update overtakes it, leaves snapshot, domain values and shadow equal on all thirteen shared fields; for each, a domain change since the last sync wins, else RAM survives; every other field is untouched |
| ConfigManager.SaveThenLoadRestores | main/app/config_manager.c:1050-1111 | the next start returns the saved configuration up to canonical form and period clamping; what that comes to, field by field, is `NextStartKeeps` |
| ConfigManager.NextStartKeeps | main/app/config_manager.c:1019-1111 | after any run and any successful save of a storable configuration the next start has every field of it: shared fields exactly, the publish period if it is at least 5000 ms and else 5000, the poll period within 5000..60000 or the nearer end, all else as `ReloadKeeps` says |
| ConfigManager.SaveWritesRecords | main/app/config_manager.c:800-853 | after any run a successful save leaves every domain record saying what the configuration says |
| ConfigManager.SaveKeepsOwnFields | main/app/config_manager.c:800-853 | no save, whatever fails in it, changes what only the domain records own |
| ConfigManager.StartWithoutSnapshot | main/app/config_manager.c:857-998 | field by field: a start without a usable snapshot takes the domain records, one slot for a device they know, and these factory values |
| ConfigManager.StartUnderFaults | main/app/config_manager.c:1050-1111 | a snapshot that cannot be read is as good as none, one that can is decoded as it is |
| ConfigManager.UpdateTakesExactly | main/app/config_manager.c:1234-1270 | an update is taken, as it is but for the device register, iff something is loaded and none of the checks refuses it; the shadow stays |
| ConfigManager.AbsentRecords | components/config_store/config_store.c:84-165 | what an absent domain record stands for |
| ConfigManager.ShadowIsLastSync | main/app/config_manager.c:661-686 | in every run the shadow is what the domain records said when both sides last agreed |
| ConfigManager.AgreesIffPushed | main/app/config_manager.c:800-853 | after a save that wrote the snapshot the copies agree iff every readable domain RAM had moved was written and every unreadable one says what RAM says |
| ConfigManager.SurvivesFailedPush | main/app/config_manager.c:800-853 | after a save with failed domain reads or writes: for each shared field, exactly when a later value in RAM survives the next save |
| ConfigManager.SurvivesFailedSnapshot | main/app/config_manager.c:1291-1308 | after a save whose snapshot write failed: for each shared field, exactly when a later value in RAM survives the next save |
| ConfigManager.FailedPushIsReverted | main/app/config_manager.c:812-816 | a failed domain write makes the next save undo the change |
| ConfigManager.FailedSnapshotHidesLaterUpdate | main/app/config_manager.c:1297-1308 | a failed snapshot write makes the next save discard a later update |
| ConfigManager.OnlyLoadClamps | main/app/config_manager.c:1019-1039 | a load brings both periods into their windows; a save takes over an unclamped one |
| ModbusMaster.ModbusMaster.CommitSlot | main/app/modbus_master_task.c:256-285 | success puts the slot online and clears its errors; the fifth error in a row takes it offline |
| ModbusMaster.ModbusMaster.ApplySnapshot | main/app/modbus_master_task.c:516-527 | installs the copy and forgets who was online, keeping the last readings |
| ModbusMaster.ModbusMaster.EverySlotOffline | main/app/modbus_master_task.c:600-616 | the two counters decide whether every enabled slot is long silent |
| ModbusMaster.ModbusMaster.AdvanceReload | main/app/modbus_master_task.c:545-564 | the reload steps: clear the flag before loading, stop, load, install, start |
| ModbusMaster.ModbusMaster.AdvancePolling | main/app/modbus_master_task.c:566-622 | the poll cycle with its abort checks and the sleep in chunks |
| ModbusMaster.ModbusMaster.Reconfigure | main/app/modbus_master_task.c:626-631 | raises the flag, or says so when the polling task is not marked as started yet |
| ModbusMaster.ModbusMaster.Interleave | main/app/modbus_master_task.c:540-631 | the class follows the transition functions through any interleaving of task, starter and requests |
| ModbusMaster.NoRequestLost | main/app/modbus_master_task.c:471-564 | under every interleaving, once the flag is down and the reload finished, the running copy is at least as new as the configuration at the latest request and has its bus switch, baud, parity, period and slots, or those of the older record if that load fell back; an open bus runs at that rate and parity |
| ModbusMaster.UpdateDuringStartIsMissed | main/app/modbus_master_task.c:773-815 | an update between the boot load and the mark of the started task is not picked up |
| ModbusMaster.PickedUpExactly | main/app/modbus_master_task.c:540-815 | wherever the system stands, an update with its request is, in each of the master's five fields, what the task ends up running, unless that load fell back, iff the task was marked as started or its starter had not loaded yet |
| ModbusMaster.ReloadRunsThrough | main/app/modbus_master_task.c:545-564 | six steps from a pending request: the flag goes down before the load, and the task ends up with the newest configuration or the older record in every field, all slots offline with their last readings, and the bus open iff it is on and could be started |
| ModbusMaster.ReloadIsPrompt | main/app/modbus_master_task.c:88-101 | eleven steps of the polling task serve a request wherever it stands and whatever writers do |
| ModbusMaster.AtMostOneMorePoll | main/app/modbus_master_task.c:578-587 | after a request at most the poll under way still reaches the bus before the reload |
| ModbusMaster.PollsFollowTheConfig | main/app/modbus_master_task.c:576-587 | every poll goes to a used and enabled slot, with the bus on, at the installed line settings |
| ModbusMaster.CycleStartsAtTheTop | main/app/modbus_master_task.c:566-576 | paused, the task sleeps 50 ms; with the bus on and open it starts with the first slot, and else rests |
| ModbusMaster.CyclePollsEverySlot | main/app/modbus_master_task.c:576-592 | an undisturbed cycle polls every used and enabled slot once, in the order of the table, and counts as one cycle |
| ModbusMaster.RestsAsConfigured | main/app/modbus_master_task.c:594-621 | between cycles the task rests 50 ms while the bus is off, 30 s when every enabled slot is long silent, else the set period or 5 s |
| ModbusMaster.SleepLasts | main/app/modbus_master_task.c:88-101 | left alone, a sleep ends after exactly one step for every started 50 ms and changes nothing else |
| ModbusMaster.OnlineMeansAnswering | main/app/modbus_master_task.c:256-285 | a slot is online iff it answered since the install and missed fewer than five polls since; its readings are valid iff it ever answered; polls and misses are counted on 32 bits |
| AlarmManager.ElapsedIsSafe | main/app/alarm_manager.c:417 | the wrapped difference never exceeds the real time, and equals it within one turn |
| AlarmManager.ElapsedIsModulo | main/app/alarm_manager.c:417 | the wrapped difference is the time passed, less whole turns of the clock |
| AlarmManager.PhaseAIsTheTopBit | main/app/alarm_manager.c:33-37 | the reversed field reports phase A from its most significant bit |
| AlarmManager.BitsByNumber | main/app/alarm_manager.c:19-37 | for every pair of status words, masks and gates, which of the fifteen bits are active, each by its number and its mask in the words |
| AlarmManager.AlarmManager.Confirm | main/app/alarm_manager.c:408-428 | each window opens, stays or closes, and ripe active bits latch |
| AlarmManager.AlarmManager.LogIncidents | main/app/alarm_manager.c:430-441 | a FAULT row per fresh latch, a CLEAR row per ended incident |
| AlarmManager.AlarmManager.Service | main/app/alarm_manager.c:351-458 | one snapshot: gates, windows, latches, rows and outputs; engineering mode only restarts windows; which bits it activates is `BitsByNumber` |
| AlarmManager.AlarmManager.ResetLatch | main/app/alarm_manager.c:460-478 | clears latches, windows and outputs, not open incidents |
| AlarmManager.AlarmManager.RequestApply | main/app/alarm_manager.c:480-495 | disarms both anchors until thresholds are written again |
| AlarmManager.AlarmManager.ApplyIc | main/app/alarm_manager.c:116-265 | one pass: skip, cache masks, anchor on the live phases or wait for grid or load, compute and write the thresholds, arm |
| AlarmManager.CommandsDo | main/app/alarm_manager.c:351-359 | field by field: engineering mode restarts the windows; a reset drops latches and outputs but ends no incident; a request closes both gates and is due at once |
| AlarmManager.PassDoes | main/app/alarm_manager.c:116-265 | field by field: when a pass runs, when it writes, and that only an acknowledged write opens a gate or settles the request |
| AlarmAnchor.AnchorVoltage | main/app/alarm_manager.c:160-171 | the loop collects the scales of the live phases and the sum of their voltages |
| AlarmAnchor.FindHeaviest | main/app/alarm_manager.c:193-200 | the loop finds the phase with the largest current, the first of equal ones |
| AlarmAnchor.Compute | main/app/alarm_manager.c:181-241 | the thresholds of the anchored scale, the mean voltage and the limits |
| AlarmAnchor.ScaleIsRobust | main/app/alarm_manager.c:91-102 | the scale lies between the live phases' scales, with three of them between any two: one wild phase cannot move it; of two it is midway |
| AlarmAnchor.ThRegIsNearest | main/app/alarm_manager.c:104-114 | a threshold register is the nearest to the wanted value and saturates outside its range |
| AlarmAnchor.LimitsStayOrdered | main/app/alarm_manager.c:233-240 | limits in order stay in order in the registers |
| AlarmAnchor.ThresholdsFollowLimits | main/app/alarm_manager.c:155-241 | on channels that read alike the over-voltage, sag and phase-loss registers are the closest to the upper limit, the lower limit and a tenth of the mean live voltage, and the frequency registers hold hundredths of a hertz |
| AlarmAnchor.CurrentFollowsLimit | main/app/alarm_manager.c:189-207 | the over-current register is the closest to the limit on the channel of the heaviest phase, and written only with a load |
| AlarmAnchor.LoadExactly | main/app/alarm_manager.c:193-203 | a load anchors the current iff the first of the phases with the most current carries half an ampere and has a raw reading |
| AlarmManager.LatchMeansConfirmed | main/app/alarm_manager.c:408-428 | a latched bit was active at every snapshot over a real stretch of at least the confirm time, with no pause or reset inside nor reset since |
| AlarmManager.LatchesPromptly | main/app/alarm_manager.c:412-424 | a bit active for the confirm time latches at the next snapshot, unless it began on tick zero or a full clock turn passed |
| AlarmManager.LatchesExactly | main/app/alarm_manager.c:408-428 | in every run an active bit is latched after a snapshot iff it was before, or the first non-zero tick of its streak lies the confirm time back on the wrapping clock |
| AlarmManager.TickZeroDelays | main/app/alarm_manager.c:412-424 | a fault first seen on a tick that reads zero does not latch at the next snapshot |
| AlarmManager.FullTurnDelays | main/app/alarm_manager.c:412-424 | a fault next seen a whole turn of the clock later does not latch |
| AlarmManager.IncidentLog | main/app/alarm_manager.c:430-441 | over every run an incident is open iff the bit's last row is FAULT, every CLEAR follows a FAULT, two FAULTs in a row enclose a reset |
| AlarmManager.OpenIncidentsAreActive | main/app/alarm_manager.c:433-441 | after an evaluated snapshot open incidents are a subset of the active bits |
| AlarmManager.LatchHoldsUntilReset | main/app/alarm_manager.c:418-423 | a latch holds until a reset, and a recurring fault writes no second FAULT row |
| AlarmManager.ComparatorsByBit | main/app/alarm_manager.c:375-403 | which category and which comparator stands behind each bit |
| AlarmManager.JudgedFreshExactly | main/app/alarm_manager.c:480-490 | "a new limit can never be judged against the old comparator value" is kept, verdict by verdict and in every run, iff the comparator was current when the words were read and nothing was reconfigured since |
| AlarmManager.ComparatorExactly | main/app/alarm_manager.c:116-265 | in every run a comparator is set from the configuration in force iff its last write since that was requested used a copy taken after the request |
| AlarmManager.OpenGateIsCurrent | main/app/alarm_manager.c:373-400 | where acknowledged writes are stored and no request overtakes a pass, an open gate means current masks and a current comparator |
| AlarmManager.ReadThroughOpenGate | main/app/energy_meter_task.c:992-1133 | words read through an open gate stay fresh until something is reconfigured |
| AlarmManager.UndisturbedPass | main/app/energy_meter_task.c:992-1133 | a pass judges fresh verdicts iff its gate was open before, or an earlier pass that reported failure had already set the comparator |
| AlarmManager.DefaultsAreJudged | main/app/energy_meter_task.c:1124-1133 | the first arming pass judges what the chip's reset defaults reported |
| AlarmManager.StaleVerdictLatches | main/app/energy_meter_task.c:1124-1133 | a limit changed just before the confirm time still latches on words read under the old one |
| AlarmManager.OvertakenRequestIsLost | main/app/energy_meter_task.c:1126-1129 | a request between the copy of the configuration and its thresholds is taken for served |
| AlarmManager.OutputsFollowTheLatch | main/app/alarm_manager.c:443-478 | the alarm believes it holds an output on only while something is latched |
| AlarmManager.OutputsExactly | main/app/alarm_manager.c:443-478 | in every run an output is on, as far as the alarm knows, iff a fresh latch switched it on, with a role and the expander's consent, and no reset came since |
| SdLog.EnergyLog.RenameFile | main/app/cert_store.c:252 | a FAT rename needs its source and never replaces its target |
| SdLog.EnergyLog.RotateGenerations | components/sd_card/sd_card.c:246-262 | remove the oldest, then shift each generation, any step failing on its own |
| SdLog.EnergyLog.AppendLine | components/sd_card/sd_card.c:163-191 | an appended line lands, does not, or breaks off; the next one is written on to a broken one; only a reported success says it landed |
| SdLog.EnergyLog.LogEnergyCsv | components/sd_card/sd_card.c:264-291 | rotate when full, write a header into an empty file, then the row |
| SdLog.RotateDropsOldest | components/sd_card/sd_card.c:246-262 | a rotation loses at most the oldest generation and reorders nothing, whichever renames fail |
| SdLog.RotationShifts | components/sd_card/sd_card.c:246-262 | whatever goes wrong in a rotation, which file ends up where: each moves one place back iff its own rename went through and that place is free by then |
| SdLog.RotatesExactly | components/sd_card/sd_card.c:264-272 | below its limit of kilobytes the live file is not rotated and the older generations stay; from the limit on it is |
| SdLog.AppendGrows | components/sd_card/sd_card.c:163-201 | the file grows by exactly the characters that reached it and the line's end |
| SdLog.EmptyFileGetsHeader | components/sd_card/sd_card.c:273-291 | an empty live file gets its header first and a row only behind it |
| SdLog.FilesBeginWithHeader | components/sd_card/sd_card.c:246-291 | in every run each file begins with its header or with what a broken write left of one, never with a row |
| SdLog.ReaderSeesSuffix | components/sd_card/sd_card.c:246-291 | reading the files oldest first gives a contiguous suffix of all rows ever written whole |
| SdLog.ReportedRowIsRead | components/sd_card/sd_card.c:163-291 | a row reported as logged can be read iff the file did not end in the middle of a line |
| SdLog.RowAfterCutIsTorn | components/sd_card/sd_card.c:172-190 | a row logged with success after a broken one shares its line |
| SdLog.RowsSurvive | components/sd_card/sd_card.c:246-291 | a row stays readable through at least three rotations |

## Left out

- SPI, I2C, GPIO and UART transfers, task creation, logging and delays: replaced by abstract results and explicit steps.
- CRC-32: a function parameter in the backup file, and a check that torn slots fail in the energy slots.
- Float rounding: energies, demand and alarm levels are reals; a level is what a 16-bit count of tenths can hold, 0 to 6553.5, which the update's own limits imply.
- CalibMath.Gain: a 64-bit product that overflows, undefined in C, wraps as the compiled multiplication does.
- CalibMath.CalculateGain: references and readings are reals up to 9e12 units; infinities and NaN, which the code refuses, are not modelled.
- CalibControl.Trial: models the apply and rollback of PQ-gain and phase calibration with the tuned copy as input; their convergence is not claimed, since they sample a cache while holding the lock its writer needs.
- CalibControl.AutoCalibrate: all computation errors of a gain are one error, and averaging over samples is an input.
- CalibBackup.Parse: the sum of header and payload length is taken without wrapping.
- Saving the installed backup to flash.
- ConfigManager.Migrated: the MQTT and platform defaults of a first start are constants.
- ConfigManager.Run: a start reads every record; what unreadable records do to one load and one save is in `FaultyLoadAgrees`, `AgreesIffPushed` and the two `Survives` lemmas.
- Factory reset and certificate files.
- AlarmAnchor.Phases: readings are reals without infinities and the applied gains are not zero, as a validated calibration has them; frequency limits end at 655 Hz, where the conversion to a register would overflow.
- That no verdict is ever stale is not promised: the order of read, write and judge in one pass contradicts it, and `JudgedFreshExactly` says when one is.
- AlarmManager.IncidentLog: a row counts as written when handed to the card log, whose result the code ignores.
- The case that the polling task cannot be created, and decoding of meter registers, are not modelled.
- The aggregate module status of the master, the user interface, console, network, MQTT, web portal and OTA: they would only add easy members.
