# NOS3 autonomy, schedule, framing and configuration: a Dafny model

NOS3 flies a small satellite's flight software against simulators. Its science mode is not one
program but a protocol between tables: Limit Checker samples telemetry against actionpoint
equations, an actionpoint that comes true starts a command sequence, and the sequences power the
instrument and arm or disarm other actionpoints. This project models that protocol and the code
that interprets it, the slot schedule that paces it, the byte streams of the Raspberry Pi client
and the telemetry sender, and the script that rewrites the configuration files.

## The protocol

* `LcRpn`, `LcVerdicts`, `LcActionpoint`, `LcRegions`: the equation evaluator and load-time validator
  of Limit Checker (arrays and loops as in the source) against ordinary expressions, what verdicts
  mean when watchpoints are stale or in error, what samples do to an actionpoint, and the science
  equations and region boxes of the tables.
* `ScienceTables`: sequences 1 and 25 to 36 command by command, and the transition system. A step
  is "an active actionpoint fires" or "an executing sequence sends its next command". Every
  interleaving of steps is a run; nothing is assumed about timing. Which actionpoints are true is
  left open there, so a run may fire any active one.
* `PowerChain`, `Battery`, `RegionTokens`: what every interleaving keeps.
* `SequenceRuns`, `Watchdogs`: what a sequence leaves when nothing else is in flight, and what
  holds between firings, from boot through any number of science sessions.
* `Registers`: what the sequences write, register by register, and which of two sequences has the
  last word in any interleaving.
* `StoredCommand`, `TimedRuns`: the sequence processor with its cached selection and its limit of
  eight commands a second, and whole flights second by second, telemetry in, commands out. Every
  sequence in flight sends each command exactly when its time tags say.
* `TimedRegions`: the power chain holds in every quiet flight with no second in which one region's
  rungs are turned on while another's are turned off; so it does with regions 26 seconds apart.
* `RegionHops`: after a one-second touch of a region, the chain holds exactly when the next region
  begins at most 4 or at least 26 seconds after it; 29 seconds still overlap an enter and a leave.
* `Overtaking`: low power or the exit while a region is being entered keeps the chain exactly from
  the enter sequence's ninth or sixth second on. `Ties` decides who goes first in one second.
* `TimedBattery`: with the time tags the battery watch is never lost, whatever the battery does.
* `Boundaries`: flights in which two actionpoints fire in the same sample, showing where the
  guarantees of one firing at a time end.

Instrument, star tracker and attitude control are modelled as commanded, not as the hardware
answers. Counters have the source's widths: the science pass counter is 16 bits; the fail counter,
the seconds and the table pass counter are 32 bits. For the counters of passes and fails a lemma
says exactly what wrapping does; the timed flights end before the seconds wrap.

## The rest

* `Schedule`, `Rates`, `Staleness`: the 500-row table, the scheduler that walks it, how often each
  row fires and how old the data behind every sample is, the wrap of the pass counter included.
* `Octets`, `SbnClient`, `TelemetrySender`: framing over arbitrary receive chunks, command dispatch,
  sensor telemetry, and the cutting of a packet file into datagrams.
* `Widths`, `Remainders`, `Concatenation`: counter widths, remainders and joined sequences.
* `Components`, `TextLines`, `LinePoints`, `SimulatorConfig`, `StartupScript`, `Configure`: the text
  rewriting of the configuration script, exceptions included, down to the names in the files.

## Where the code and its documentation part

* `sc_state.c:68-73` says the lowest-numbered of the earliest sequences goes first. The command
  selected the second before goes first even when a sequence started since is more urgent
  (`StoredCommand.WakeIsUrgent` says exactly when the order is kept, and
  `StoredCommand.StaleSelectionGoesFirst` how it comes to fail).
* A command timed at second 0xFFFFFFFF is never due, because that value also means "no time".
* After the 32-bit pass counter wraps, one sample finds the power data 596 slots old instead of at
  most 496 (`Staleness.PowerHkAge`), because a row whose frequency does not divide 2^32 loses its
  rhythm there (`Rates.RateHoldsIffDividing`).
* The actionpoint numbers in `sc_rts035.c` comments say 31 where the values are 32; the values count.
* The enabled schedule row at `sch_def_schtbl.c:350` sends message 23, which is defined as unused.
* The client compares a stream id masked to 11 bits with 0x1902, which can never hold
  (`SbnClient.CommandExactly`).
* The telemetry sender counts from one, so it reports one packet more than it sent.
* A startup script with no end mark gets its block appended in the opposite order
  (`StartupScript.WrittenIs`).

## Model

| member | source | states |
|---|---|---|
| LcRpn.EvaluateRpn | fsw/apps/lc/fsw/src/lc_action.c:288-475 | the array-stack evaluator returns the action of the stack machine's outcome, for every 20-item buffer |
| LcRpn.ValidateRpn | fsw/apps/lc/fsw/src/lc_action.c:611-703 | the table-load check accepts exactly the buffers whose depth walk reaches EQUAL with one operand |
| LcRpn.RunPostfix | cfg/nos3_defs/tables/lc_def_adt.c:86-162 | wherever the postfix form of an expression stands, running over it pushes exactly the expression's four-valued meaning |
| LcRpn.EvaluationIsMeaning | cfg/nos3_defs/tables/lc_def_adt.c:86-162 | an equation that encodes an expression evaluates to that expression, whatever follows EQUAL |
| LcRpn.AcceptsIffEncodes | fsw/apps/lc/fsw/src/lc_action.c:611-703 | the validator accepts a buffer if and only if it encodes some well-formed expression |
| LcRpn.RejectedNeverDecides | fsw/apps/lc/fsw/src/lc_action.c:288-475 | an equation the validator rejects never reaches a pass or fail verdict, for any watchpoint results |
| LcRpn.ValidatorIsExact | fsw/apps/lc/fsw/src/lc_action.c:611-703 | once all watchpoints are measured an equation decides if and only if the validator accepted it |
| LcVerdicts.MeaningIsTruth | fsw/apps/lc/fsw/src/lc_action.c:326-475 | over measured watchpoints an expression means what it means as an ordinary boolean one |
| LcVerdicts.VerdictIsSafe | fsw/apps/lc/fsw/src/lc_action.c:326-475 | no pass or fail rests on a stale or erroneous watchpoint: whatever those turn out to be the verdict stays |
| LcVerdicts.StackDecides | fsw/apps/lc/fsw/src/lc_action.c:403-475 | an equation that leaves a stack at EQUAL is stale or in error as its top is, has a verdict if nothing is left below, and is in error otherwise |
| LcVerdicts.NoStackIsError | fsw/apps/lc/fsw/src/lc_action.c:288-475 | every other equation is in error, whatever the watchpoints say |
| LcVerdicts.OperatorCodes | fsw/apps/lc/fsw/inc/lc_tbldefs.h:98-102 | what the codes 0xFFF1 to 0xFFF5 make of two watchpoints |
| LcVerdicts.ConjunctionExactly | fsw/apps/lc/fsw/src/lc_action.c:328-347 | a conjunction of any length is false if one operand is, else in error if one is, else stale if one is, else true |
| LcVerdicts.DisjunctionExactly | fsw/apps/lc/fsw/src/lc_action.c:349-368 | a disjunction of any length is true if one operand is, else in error if one is, else stale if one is, else false |
| LcVerdicts.ParityExactly | fsw/apps/lc/fsw/src/lc_action.c:370-385 | an exclusive or of any length is in error or stale if one operand is, error first, else the parity of the true ones |
| LcVerdicts.NegationExactly | fsw/apps/lc/fsw/src/lc_action.c:387-401 | a negation of a stale or erroneous operand is stale or in error |
| LcActionpoint.Actionpoint.Sample | fsw/apps/lc/fsw/src/lc_action.c:90-272 | the new state, stored result, request and six counters of one sample, limit, pass, stale and error results included |
| LcActionpoint.OneShot | fsw/apps/lc/fsw/src/lc_action.c:90-272 | between two re-arming commands an actionpoint requests its sequence at most once, and is passive from then on |
| LcActionpoint.RequestExactly | fsw/apps/lc/fsw/src/lc_action.c:90-272 | with limit one a sample requests exactly when active, Limit Checker active and equation true, except when the 32-bit counter wraps |
| LcActionpoint.RequestsIffEverTrue | fsw/apps/lc/fsw/src/lc_action.c:90-272 | over a series of samples an armed actionpoint requests its sequence once if its equation is ever true, else never |
| LcActionpoint.FailsSince | fsw/apps/lc/fsw/src/lc_action.c:116-258 | after any series of samples the consecutive-fail count is the number of fails since the last pass or stale result, errors not counting |
| LcActionpoint.RequestsIffOverdue | fsw/apps/lc/fsw/src/lc_action.c:141-258 | for every limit an active actionpoint requests its sequence, once, if and only if so many fails come with no pass or stale result in between, and then turns passive |
| LcActionpoint.PassiveLimitChecker | fsw/apps/lc/fsw/src/lc_action.c:141-230 | with Limit Checker passive nothing is requested but states and counts change alike; an actionpoint neither active nor passive is left alone |
| LcRegions.EquationsEncodeInfix | cfg/nos3_defs/tables/lc_def_adt.c:530-750 | each of the twelve science equations is the postfix of its documented infix form and loads |
| LcRegions.LeaveOppositeOfEnter | cfg/nos3_defs/tables/lc_def_adt.c:600-733 | a leave equation is the negation of its enter equation for all watchpoint results, stale and failed ones included |
| LcVerdicts.EquationVerdict | cfg/nos3_defs/tables/lc_def_adt.c:530-750 | what each of the twelve equations gives for all watchpoint results, stale and failed ones included |
| LcRegions.EnterExactlyInside | cfg/nos3_defs/tables/lc_def_wdt.c:474-652 | an enter equation is true exactly inside the region's open box with science over it enabled |
| LcRegions.RegionsByDegrees | cfg/nos3_defs/tables/lc_def_wdt.c:474-652 | the three enter equations by the degrees of their boxes |
| LcRegions.EquationsReadPosition | cfg/nos3_defs/tables/lc_def_wdt.c:474-652 | for every real latitude and longitude at most one enter equation is true, and all six read one position |
| LcRegions.BatteryHasHysteresis | cfg/nos3_defs/tables/lc_def_wdt.c:438-461 | low power and recharged are never both true, and neither is exactly from 24240 to 24960 |
| LcRegions.PostfixFits | fsw/apps/lc/fsw/src/lc_action.c:288-475 | the postfix form of an expression needs exactly the stack its tree calls for |
| LcRegions.LeftFoldNeedsTwo | cfg/nos3_defs/tables/lc_def_adt.c:600-733 | a left-folded conjunction of any length from two on needs exactly two stack cells |
| ScienceTables.StartRequest | fsw/apps/sc/fsw/src/sc_rtsrq.c:51-173 | a fired actionpoint starts its sequence at its first command exactly when that is enabled and not executing; the others keep their places |
| ScienceTables.ExecutedOnAp | fsw/apps/lc/fsw/src/lc_cmds.c:599-722 | a sent command changes an actionpoint only if it is a state command for it that Limit Checker accepts |
| ScienceTables.ExecutedOnRest | components/mgr/fsw/cfs/src/mgr_app.c:405-425 | what a sent command does to the enabled sequences, the science status and the processor |
| ScienceTables.RunsCompose | fsw/apps/sc/fsw/src/sc_cmds.c:557-604 | legal runs compose |
| PowerChain.CommandKeepsChainIff | cfg/nos3_defs/tables/sc_rts030.c:80-123 | a command keeps the power chain if and only if what it turns on rests on something on and what it turns off carries nothing |
| PowerChain.StepKeepsProgress | cfg/nos3_defs/tables/sc_rts033.c:74-110 | one step between states in which no sequence is halfway up while another is halfway down keeps the chain and every sequence's share of it |
| PowerChain.ChainHolds | cfg/nos3_defs/tables/sc_rts027.c:128-147 | over every interleaving that never has one sequence halfway up and another halfway down the chain holds at the end |
| PowerChain.ChainHoldsThroughout | cfg/nos3_defs/tables/sc_rts029.c:155-174 | ... and after every single event |
| PowerChain.UnmixedKeepsChain | cfg/nos3_defs/tables/sc_rts036.c:81-92 | in particular over every interleaving with no enter sequence in flight together with a power-down sequence, however many of either overlap |
| Battery.StepCounts | cfg/nos3_defs/tables/sc_rts028.c:83-119 | each step pays for a low-power or recharge firing with a chance it had |
| Battery.BatteryAlternates | cfg/nos3_defs/tables/lc_def_adt.c:558-584 | in every interleaving from boot: recharges <= low powers <= recharges + science entries |
| Battery.StepKeepsWatchIff | cfg/nos3_defs/tables/sc_rts028.c:83-139 | a step loses the battery watch if and only if recharged fires into the tail of its own sequence |
| Battery.WatchesNeverLost | cfg/nos3_defs/tables/sc_rts027.c:148-157 | no interleaving without the exit loses the exit watch, nor the battery watch if no recharge request is rejected |
| TimedBattery.FlightKeepsBatteryWatched | cfg/nos3_defs/tables/sc_rts028.c:80-139 | in every flight from a completed entry, whatever battery and position do, battery and exit stay watched and recharged is never armed while its sequence runs, with no premise on the run |
| TimedBattery.SampleKeepsWatch | cfg/nos3_defs/tables/lc_def_adt.c:558-584 | every sample keeps the battery watch on its schedule |
| RegionTokens.StepKeepsTokens | cfg/nos3_defs/tables/sc_rts031.c:113-122 | every step of the region sequences keeps one token per region and moves it as the firing says |
| RegionTokens.TokensConserved | cfg/nos3_defs/tables/sc_rts034.c:100-109 | in every interleaving each region has exactly one of enter armed, entering, leave armed, leaving; enters exceed leaves by the pass under way |
| RegionTokens.EnterLeaveExclusive | cfg/nos3_defs/tables/sc_rts035.c:100-109 | enter and leave of one region are never in flight together and no region start request is rejected |
| RegionTokens.PassesCounted | components/mgr/fsw/cfs/src/mgr_app.c:311-320 | the 16-bit pass counter counts every pass begun exactly once, modulo 2^16 |
| SequenceRuns.AloneRuns | fsw/apps/sc/fsw/src/sc_state.c:145-304 | sending commands in a row is a legal run with exactly their composed effect, whatever else is in flight |
| SequenceRuns.EffectOnAp | cfg/nos3_defs/tables/sc_rts029.c:110-189 | a whole sequence leaves each actionpoint where its one command for it says, or as it was |
| SequenceRuns.EffectOnHardware | cfg/nos3_defs/tables/sc_rts036.c:81-92 | a whole enter sequence leaves everything on, a power-down sequence everything off, the restart the instrument off and the rest as it was, others nothing changed |
| SequenceRuns.EffectOnStatus | components/mgr/fsw/cfs/src/mgr_app.c:405-425 | a whole sequence leaves the science status it notes, or as it was |
| SequenceRuns.EffectOnMode | cfg/nos3_defs/tables/sc_rts025.c:50-60 | only sequence 25 changes the spacecraft mode, to 3; only an enter sequence counts a pass, one |
| SequenceRuns.RebootAwaitsEntry | cfg/nos3_defs/tables/sc_rts025.c:50-60 | a completed round of 25 leaves the mode in which the entry's equation is true |
| SequenceRuns.ArmedAfterReset | cfg/nos3_defs/tables/sc_rts026.c:90-155 | every statistics reset is for an actionpoint armed later in the sequence, and every one armed but 36 was reset so |
| SequenceRuns.PointedBeforeUse | cfg/nos3_defs/tables/sc_rts030.c:80-123 | the attitude is commanded exactly after the inertial mode and just before the instrument is switched on |
| SequenceRuns.BootEnablesWhatItArms | cfg/nos3_defs/tables/sc_rts001.c:84-152 | the boot sequence enables each sequence whose actionpoint it arms |
| SequenceRuns.RoundEffect | cfg/nos3_defs/tables/sc_rts026.c:90-155 | a firing whose sequence completes alone is a legal run, and what it leaves of actionpoints, status and hardware |
| Watchdogs.BootRuns | cfg/nos3_defs/tables/sc_rts001.c:84-152 | the boot sequence arms actionpoints 25 and 26 and nothing else |
| Watchdogs.RoundKeepsGuarded | cfg/nos3_defs/tables/sc_rts028.c:83-139 | a completed round keeps the watchdogs standing |
| Watchdogs.WatchdogsArmed | cfg/nos3_defs/tables/sc_rts026.c:121-151 | from boot, through any session of completed rounds: instrument on implies 27, 29 and a leave armed; 28 armed implies instrument off and 30 to 35 disabled; the status is a region's exactly while the instrument is on |
| Watchdogs.ExitEffect | cfg/nos3_defs/tables/sc_rts029.c:110-189 | an exit from any actionpoint and hardware state disarms 27 to 36, arms 26 and turns everything off |
| Watchdogs.ExitThenEntryIsFirstEntry | cfg/nos3_defs/tables/sc_rts029.c:110-189 | exit then entry gives the actionpoints of the first entry after boot, and its hardware exactly if boot left everything off |
| Registers.WritesExactly | cfg/nos3_defs/tables/sc_rts029.c:110-189 | which command of which sequence writes each actionpoint and device, and what; none twice |
| Registers.InterleavingSettles | fsw/apps/sc/fsw/src/sc_state.c:145-304 | for every interleaving of two sequences each actionpoint and device ends as the later of their commands for it says |
| Boundaries.PairSettles | fsw/apps/lc/fsw/src/lc_action.c:41-83 | in the flight after two actionpoints fire in one sample, every register but those two actionpoints ends as the later of their commands for it says, if no register is written by both in one second and no other armed actionpoint comes true meanwhile |
| Boundaries.LowPowerWhileLeaving | cfg/nos3_defs/tables/sc_rts033.c:100-109 | low power in the sample in which AK is left always ends, on the clock, with 28 and 30 both armed |
| Boundaries.LowPowerWhileEntering | cfg/nos3_defs/tables/sc_rts030.c:80-123 | low power in the sample in which AK is entered always ends, on the clock, with the instrument on, sun-safe and without star tracker |
| Boundaries.ExitWhileRecharging | cfg/nos3_defs/tables/sc_rts028.c:83-139 | the exit in the sample in which the battery is full always ends, on the clock, with 26 and 30 to 32 armed |
| Boundaries.EntryIsBeforeAk | cfg/nos3_defs/tables/sc_rts026.c:121-151 | a completed science entry with all sequences idle is a state from which AK can be entered in the flight above |
| Boundaries.OverAkIsReached | cfg/nos3_defs/tables/sc_rts030.c:80-123 | the enter sequence of AK, run to completion from there, leaves the state from which it can be left |
| Boundaries.RechargingIsReached | cfg/nos3_defs/tables/sc_rts027.c:83-157 | low power, run to completion from there, leaves the state from which the exit and recharged can fire together |
| Boundaries.UntimedLoss | cfg/nos3_defs/tables/sc_rts028.c:83-139 | without the time tags a run from any completed entry loses the battery watch |
| StoredCommand.Processor.StartRts | fsw/apps/sc/fsw/src/sc_rtsrq.c:51-173 | only an enabled, loaded sequence starts, at its first command, due after its first tag |
| StoredCommand.Processor.GetNextRtsTime | fsw/apps/sc/fsw/src/sc_state.c:58-95 | the backward scan finds the lowest-numbered of the earliest executing sequences, or that there is none |
| StoredCommand.Processor.UpdateNextTime | fsw/apps/sc/fsw/src/sc_state.c:102-138 | the new selection is the one the table calls for |
| StoredCommand.Processor.ProcessRtpCommand | fsw/apps/sc/fsw/src/sc_cmds.c:291-397 | a due selection sends one command and moves its sequence on; nothing else changes |
| StoredCommand.ProcessedExactly | fsw/apps/sc/fsw/src/sc_state.c:145-304 | the sent sequence moves to its next command, timed by its tag modulo 2^32, or ends; no other entry changes |
| StoredCommand.Processor.OneHzWakeup | fsw/apps/sc/fsw/src/sc_cmds.c:557-604 | the wakeup loop sends, and leaves, what the wakeup specification says |
| StoredCommand.WakeSendsDue | fsw/apps/sc/fsw/src/sc_cmds.c:557-604 | a wakeup sends the lesser of eight and the number due, each at most once, and moves exactly those on |
| StoredCommand.WakeIsUrgent | fsw/apps/sc/fsw/src/sc_state.c:67-82 | from the second on, commands are sent by time then number; from the first exactly if the cached selection is the most urgent |
| StoredCommand.WakeLeavesNoneDue | fsw/apps/sc/fsw/src/sc_cmds.c:557-604 | for every table, tags of zero included: at most eight commands are sent, and with fewer none is left due |
| StoredCommand.WakeReplays | fsw/apps/sc/fsw/src/sc_cmds.c:557-604 | for every table, tags of zero included: each command sent is due when its turn comes, from the second on it is the most urgent then due, and they lead to the table left |
| StoredCommand.AllDueSent | fsw/apps/sc/fsw/src/sc_cmds.c:557-604 | with at most eight due, all are sent exactly once and none stays due |
| StoredCommand.StaleSelectionGoesFirst | fsw/apps/sc/fsw/src/sc_state.c:67-82 | from any idle table: sequence 33 started, a second later sent and selected, then 31 started: due together, 33 goes first |
| TimedRuns.ElapsedSums | cfg/nos3_defs/tables/sc_rts030.c:83-122 | the tags of low power and enter sum to 18, of the exit to 22, of recharged and leave to 12 |
| TimedRuns.ElapsedIs | cfg/nos3_defs/tables/sc_rts029.c:107-186 | the second of every command of sequences 27 to 35, counted from the start |
| TimedRuns.OtherElapsedIs | cfg/nos3_defs/tables/sc_rts001.c:84-152 | the second of every command of sequences 1, 25, 26 and 36 |
| TimedRuns.WakeKeepsSchedule | fsw/apps/sc/fsw/src/sc_cmds.c:557-604 | with one of the nine sequences idle a wakeup leaves every sequence exactly where its age says |
| TimedRuns.WakeWrites | fsw/apps/sc/fsw/src/sc_state.c:145-304 | a register no other sequence writes in this second holds what the one writes whose tag falls in it |
| TimedRuns.SampleEffect | fsw/apps/lc/fsw/src/lc_action.c:41-83 | a sample fires exactly the timed actionpoints that are armed and true, each starting its sequence unless it is in flight already |
| LcRegions.EquationMeans | cfg/nos3_defs/tables/lc_def_adt.c:530-750 | each of the twelve equations is true exactly when what its actionpoint watches for holds |
| TimedRegions.WakeKeepsClock | cfg/nos3_defs/tables/sc_rts033.c:77-109 | through a wakeup every region goes to the phase its clock says, ending sequences arming their partners |
| TimedRegions.SampleKeepsClock | cfg/nos3_defs/tables/lc_def_adt.c:600-733 | a quiet sample takes every region to the phase its position calls for |
| TimedRegions.NoOverlap | cfg/nos3_defs/tables/sc_rts033.c:77-109 | with positions over different regions 30 seconds apart no region is entered while another is left |
| TimedRegions.EntersLate | cfg/nos3_defs/tables/sc_rts030.c:83-122 | with 26 seconds a region entered while another is left was entered at least eight seconds after the leave began |
| TimedRegions.FlightKeepsClock | cfg/nos3_defs/tables/sch_def_schtbl.c:456 | a quiet flight of any length is a legal run that keeps every region in the phase its positions call for, unmixed at 30 seconds, uncrossed in clear seconds |
| TimedRegions.ClearFlightKeepsChain | cfg/nos3_defs/tables/sc_rts033.c:77-109 | the chain holds after every event of a quiet flight with no second in which one region is 3 to 16 seconds into its enter sequence and another 2 to 10 seconds into its leave sequence |
| TimedRegions.SeparatedFlightKeepsChain | cfg/nos3_defs/tables/sc_rts030.c:83-122 | at 26 seconds between regions the power chain holds after every event of a quiet flight, with no other premise |
| RegionHops.HopKeepsChainIff | cfg/nos3_defs/tables/sc_rts033.c:77-109 | after a one-second touch of one region and `gap` seconds to any other, the chain holds after every event if and only if gap <= 4 or gap >= 26 |
| RegionHops.HopBreaksChain | cfg/nos3_defs/tables/sc_rts030.c:83-122 | with a gap from 5 to 25 the flight ends with the instrument enabled and the star tracker unpowered |
| RegionHops.TwentySixIsLeast | cfg/nos3_defs/tables/sc_rts033.c:77-109 | after a one-second touch, a 25-second hop between any two regions always breaks the chain |
| RegionHops.ThirtyIsLeast | cfg/nos3_defs/tables/sc_rts030.c:83-122 | after a one-second touch, a 29-second hop always puts the enter sequence of one region beside the leave sequence of the other |
| Ties.TieInOrder | fsw/apps/sc/fsw/src/sc_state.c:58-95 | of two sequences with a command in the same second the lower goes first, unless the higher was selected the second before |
| Ties.TieIsSelected | fsw/apps/sc/fsw/src/sc_state.c:102-138 | which it is not if both are in flight then |
| Overtaking.PowerDownKeepsChainIff | cfg/nos3_defs/tables/sc_rts027.c:128-147 | low power or the exit setting in 1 to 17 seconds into an enter sequence keeps the chain after every event if and only if it does so 9, respectively 6, seconds or more into it |
| Overtaking.EarlyPowerDownBreaksChain | cfg/nos3_defs/tables/sc_rts029.c:155-174 | earlier, it ends with the instrument enabled and the star tracker unpowered |
| Overtaking.EnterIsUnderway | cfg/nos3_defs/tables/sc_rts030.c:83-122 | a quiet flight over a region, from any start, comes to the state from which those flights set out |
| TimedRegions.EntryIsStart | cfg/nos3_defs/tables/sc_rts026.c:121-151 | a completed science entry with all sequences idle is a state from which those flights start |
| TimedRegions.EntryHoldsTokens | cfg/nos3_defs/tables/sc_rts026.c:121-151 | a completed science entry gives every region its one token |
| Schedule.Scheduler.ProcessNextEntry | fsw/apps/sch/fsw/src/sch_app.c:874-958 | a row whose message, frequency, type or remainder fails the check is disabled and counted; one whose turn it is sends its message once |
| Schedule.Scheduler.ProcessNextSlot | fsw/apps/sch/fsw/src/sch_app.c:812-864 | a slot sends its rows' messages in order and the slot and pass counters move on, wrapping |
| Schedule.MessagesAreRows | fsw/apps/sch/fsw/src/sch_app.c:825-833 | a slot sends the messages of exactly its firing rows, each row's once, in the order of the rows |
| Schedule.SlotAfterIs | fsw/apps/sch/fsw/src/sch_app.c:846-855 | after n slots the scheduler stands at slot n mod 100 of pass n/100 mod 2^32 |
| Rates.CountIsExact | fsw/apps/sch/fsw/src/sch_app.c:917-920 | in any window of seconds, wraps of the pass counter included, exactly how often a live row fires |
| Rates.RateIsExact | cfg/nos3_defs/tables/sch_def_schtbl.c:81-90 | a live row fires floor(n/F) or ceil(n/F) times in any n seconds that do not straddle a wrap, and in any at all if F divides 2^32 |
| Rates.RateHoldsIffDividing | fsw/apps/sch/fsw/src/sch_app.c:846-855 | a live row keeps to floor or ceil in every window if and only if F divides 2^32 |
| Rates.BadWindowCount | fsw/apps/sch/fsw/src/sch_app.c:846-855 | otherwise, just across the wrap, it fires twice within a period or not at all for one or longer |
| Rates.PowerMissesATurn | cfg/nos3_defs/tables/sch_def_schtbl.c:484 | at the wrap the power system's five-second request is not sent in any slot of five seconds |
| Schedule.Frequencies | cfg/nos3_defs/tables/sch_def_schtbl.c:92-801 | every enabled row passes the check and its frequency divides twenty |
| Schedule.TrafficRepeats | cfg/nos3_defs/tables/sch_def_schtbl.c:92-801 | every slot sends the same messages twenty seconds later, unless the pass counter wraps |
| Schedule.WakeupsTenApart | cfg/nos3_defs/tables/sch_def_schtbl.c:97 | file delivery is woken exactly in every tenth slot, for all time |
| Schedule.SentByTimetable | cfg/nos3_defs/tables/sch_def_schtbl.c:92-801 | every other message, by its number: in which slot of which seconds it is sent, once, and never else, for all time |
| Schedule.TicksPerSecond | cfg/nos3_defs/tables/cf_def_config.c:29 | in any hundred slots exactly ten wakeups are sent, the configured ticks per second |
| Staleness.WakesThenSamples | cfg/nos3_defs/tables/sch_def_schtbl.c:279 | every second the sequence processor is woken exactly once, in slot 26, and Limit Checker samples exactly once, in slot 51 |
| Staleness.GpsAge | cfg/nos3_defs/tables/sch_def_schtbl.c:107 | the GPS request is exactly 49 slots old at every sample, for all time |
| Staleness.SampleHkAge | cfg/nos3_defs/tables/sch_def_schtbl.c:343 | the SAMPLE request's exact age, at most 416 slots, for all time |
| Staleness.ManagerHkAge | cfg/nos3_defs/tables/sch_def_schtbl.c:272 | the manager request's exact age, at most 926 slots, for all time |
| Staleness.PowerHkAge | cfg/nos3_defs/tables/sch_def_schtbl.c:484 | the power request's exact age: at most 496 slots if and only if the sample is not the one of pass 4, where after a wrap it is 596 |
| Staleness.BoundsReached | cfg/nos3_defs/tables/sch_def_schtbl.c:456 | the three bounds are reached in second 9 of every ten |
| SbnClient.PackedHeaderFrames | components/raspberry_pi/client/sbn_pi_client.py:98-112 | the header packer succeeds exactly on payloads under 65536 bytes, and its header makes one frame that parses back |
| Octets.MostSignificantFirst | components/raspberry_pi/client/sbn_pi_client.py:195-198 | fields are read with the most significant byte first |
| SbnClient.HeaderBytes | components/raspberry_pi/client/sbn_pi_client.py:98-112 | a header is the size, the kind and the processor, byte by byte |
| SbnClient.FixedMessages | components/raspberry_pi/client/sbn_pi_client.py:114-129 | the protocol and subscription messages, byte by byte |
| SbnClient.ParsePack | components/raspberry_pi/client/sbn_pi_client.py:195-208 | any list of framable frames, followed by an incomplete frame, parses to exactly that list and that remainder |
| SbnClient.PackParse | components/raspberry_pi/client/sbn_pi_client.py:195-208 | any byte stream is its parsed frames packed again plus its remainder |
| SbnClient.LeftoverBound | components/raspberry_pi/client/sbn_pi_client.py:195-205 | the remainder never exceeds 7 + 65535 - 1 bytes |
| SbnClient.LeftoverBoundReached | components/raspberry_pi/client/sbn_pi_client.py:195-205 | that bound is reached |
| SbnClient.ParseAppend | components/raspberry_pi/client/sbn_pi_client.py:192-205 | parsing can stop at any byte and go on from its remainder |
| SbnClient.Client.ReceiveLoop | components/raspberry_pi/client/sbn_pi_client.py:180-214 | for every list of chunks the frames of the stream up to its close are handled in order and its remainder is left |
| SbnClient.Client.HandleBuffer | components/raspberry_pi/client/sbn_pi_client.py:195-208 | every whole frame in the buffer is handled and cut off, in order |
| SbnClient.ChunkInvariance | components/raspberry_pi/client/sbn_pi_client.py:180-208 | two cuttings of the same bytes are handled alike and leave the same buffer |
| SbnClient.StreamStops | components/raspberry_pi/client/sbn_pi_client.py:184-190 | nothing received after the peer has closed is handled |
| SbnClient.CommandExactly | components/raspberry_pi/client/sbn_pi_client.py:223-263 | exactly which frames carry a command and which byte it is; the masked id never matches |
| SbnClient.HandledAllEffect | components/raspberry_pi/client/sbn_pi_client.py:216-276 | handling frames executes exactly their known commands in order and answers each status request with one report |
| SbnClient.KnownExactly | components/raspberry_pi/client/sbn_pi_client.py:249-264 | the commands acted on are 1, 2 and 3, each as often as it comes |
| SbnClient.KnownInOrder | components/raspberry_pi/client/sbn_pi_client.py:249-264 | ... and in order |
| SbnClient.PeerReadsReports | components/raspberry_pi/client/sbn_pi_client.py:131-171 | what the client sends parses to exactly its reports, one for each status request |
| SbnClient.SensorPacketFields | components/raspberry_pi/client/sbn_pi_client.py:131-171 | length field = bytes - 7, sequence flags 11 and the count (sections 4.1.3.4 and 4.1.3.5 of CCSDS 133.0-B-2) |
| SbnClient.SensorPacketReads | components/raspberry_pi/client/sbn_pi_client.py:146-163 | every field after the primary header reads back: both times, subseconds, spare, floats, camera, network, padding |
| SbnClient.ReportReads | components/raspberry_pi/client/sbn_pi_client.py:131-171 | so in every report sent, with its count, the client's kind and processor |
| SbnClient.CountsDistinct | components/raspberry_pi/client/sbn_pi_client.py:173-178 | two reports carry the same count if and only if a multiple of 2^14 apart |
| SbnClient.Client.GetNextSequence | components/raspberry_pi/client/sbn_pi_client.py:173-178 | the counter advances modulo 2^14 and its new value is returned |
| SbnClient.Client.SendStatus | components/raspberry_pi/client/sbn_pi_client.py:131-171 | one framed sensor packet with the next count is sent |
| SbnClient.Client.Subscribe | components/raspberry_pi/client/sbn_pi_client.py:121-129 | a subscription is sent once; subscribing again sends nothing |
| SbnClient.Client.SendProtocol | components/raspberry_pi/client/sbn_pi_client.py:114-119 | the protocol version is sent as one frame |
| SbnClient.Client.HandleAppMessage | components/raspberry_pi/client/sbn_pi_client.py:223-247 | an application message is handled as the frame specification says |
| TelemetrySender.Sender.SendTm | gsw/yamcs/simulator.py:12-29 | the loop sends the split of the file and leaves the counter at packets + 1 |
| TelemetrySender.ReadInto | gsw/yamcs/simulator.py:21-23 | the packet is filled as far as the file goes and keeps its zeros beyond |
| TelemetrySender.SplitConcat | gsw/yamcs/simulator.py:17-25 | a file of packets with fewer than six stray bytes is sent packet by packet |
| TelemetrySender.ConcatSplit | gsw/yamcs/simulator.py:17-25 | for any file the datagrams are packets that reassemble it, but for an unsent tail or zero padding |
| TelemetrySender.SentExactly | gsw/yamcs/simulator.py:17-25 | the datagrams reproduce the file if and only if it is a series of packets, and then they are those packets |
| TelemetrySender.EachSentIsSlice | gsw/yamcs/simulator.py:17-25 | every datagram but the last is the next slice of the file; the last is too, zero padded at the end of the file |
| TelemetrySender.SensorPacketsSplit | gsw/yamcs/simulator.py:17-25 | any number of the client's sensor packets, concatenated, are sent as they were built |
| TextLines.ScanStep | scripts/cfg/configure.py:355-358 | one line of a scan keeps the point at the first match, duplicates and later matches included |
| TextLines.HasSomewhere | scripts/cfg/configure.py:355-358 | a line holds a tag if and only if some stretch of it reads like the tag |
| TextLines.JoinSplit | scripts/cfg/configure.py:463-464 | reading a file into lines and joining them gives back the file |
| TextLines.SplitJoin | scripts/cfg/configure.py:549-551 | writing lines that each end in their only newline and reading them gives back the lines |
| LinePoints.NotePoints | scripts/cfg/configure.py:465-515 | one line moves the points of its tags that lie later, and fails exactly if asked for after being replaced |
| LinePoints.SwitchOff | scripts/cfg/configure.py:517-547 | exactly the lines at the switched-off points are overwritten; an index error exactly if one lies outside the file |
| LinePoints.Rewrite | scripts/cfg/configure.py:353-441 | the socket file: the lines after the first match of each disabled device's tags are OFF, all others unchanged, or an index error |
| SimulatorConfig.NumbersAreNeutral | scripts/cfg/configure.py:465-517 | for a numeric start time no rewritten line is mistaken for a name or, if disabled, for a time |
| SimulatorConfig.Scan | scripts/cfg/configure.py:463-515 | every time line is rewritten although the list changes under the iteration, and every point is the first match + 1; a value error exactly if some line is both |
| SimulatorConfig.RewriteSimulators | scripts/cfg/configure.py:463-551 | exactly when one pass over the simulator file fails, and with which error; otherwise every line of its result |
| SimulatorConfig.RewriteKeepsPoints | scripts/cfg/configure.py:463-551 | a rewrite leaves every point where it was |
| SimulatorConfig.PlacedIsPossible | scripts/cfg/configure.py:463-551 | the premise on the file holds of a name followed by a line of its own |
| SimulatorConfig.Accumulates | scripts/cfg/configure.py:91-551 | after any number of spacecraft every line of the file, given its first lines |
| SimulatorConfig.InactiveIffEverDisabled | scripts/cfg/configure.py:91-551 | a simulator is inactive in the end if and only if it was at first or some pass disabled it |
| SimulatorConfig.WrittenReadsBack | scripts/cfg/configure.py:463-551 | the file written reads back as the same lines in the next iteration |
| StartupScript.Rewrite | scripts/cfg/configure.py:142-286 | the scan and the 26 insertions write the specified script |
| StartupScript.LastMatchIsLast | scripts/cfg/configure.py:175-253 | the line kept for an application is the last one with its tag |
| StartupScript.WrittenIs | scripts/cfg/configure.py:256-281 | the script for every input: the block in front of the end mark, or, without one, appended in reverse |
| StartupScript.BlockInScript | scripts/cfg/configure.py:256-281 | where each application's line stands in the block, cf first and a newline last |
| StartupScript.BlockByName | scripts/cfg/configure.py:175-281 | the block line by line: which component's switch keeps the line of which tag, and in what order |
| Configure.Build.Configure | scripts/cfg/configure.py:91-551 | one spacecraft: which files are written with what, and with which error it stops |
| Configure.Build.ConfigureAll | scripts/cfg/configure.py:91-551 | after the loop the startup script and the socket file depend on the last spacecraft alone, the simulator file on all; with every name placed and found the loop completes |
| Configure.InactiveIffSomeSpacecraftDisables | scripts/cfg/configure.py:91-551 | after the loop a simulator is inactive if and only if it was at first or some spacecraft did not enable its component |
| Configure.SimulatorsByName | scripts/cfg/configure.py:465-547 | for each of the sixteen names in the simulator file, the line after it is inactive if and only if it was at first or some spacecraft does not enable that component |
| Configure.SocketsByName | scripts/cfg/configure.py:353-441 | for each of the sixteen names in the socket file, the line after it is OFF exactly if the last spacecraft does not enable that component |
| Configure.OtherSimulatorLines | scripts/cfg/configure.py:463-551 | every other line of the simulator file holds the start time if it held one and is unchanged otherwise |

## Left out

- LcActionpoint.Actionpoint.Sample: event messages and the application-wide counters of samples and requests.
- StoredCommand.Processor.UpdateNextTime: no absolute-time sequence executes, as in science mode; with one executing, the earlier of the two processors goes first.
- StoredCommand.Processor.ProcessRtpCommand: a transmit failure, a bad length and a buffer overrun, which stop the sequence, do not occur in these tables; a sequence is not stopped by command, so the cached selection stays true of its entry.
- StoredCommand.Processor.OneHzWakeup: the pending switch of absolute-time sequences and the absolute-time commands served in the same loop.
- StoredCommand.WakeSendsDue: stated, like AllDueSent and WakeIsUrgent, for tables whose next command does not fall in the same second, as in sequences 26 to 36; tags of zero occur only in sequences 1 and 25, and `WakeReplays` and `WakeLeavesNoneDue` cover them.
- TimedRuns.SampleEffect: sequences 25, 26 and 36 do not start in a timed flight; requests and state commands between Limit Checker and Stored Command take effect before the next wakeup or sample; Limit Checker is active, its watchpoints are measured, and neither its fail counters nor the 32-bit seconds wrap during the flight; the clock's second does not change between slot 26, in which commands are sent, and slot 51, in which sequences are started, as with a time correlation factor of zero.
- TimedRuns.WakeKeepsSchedule: stated, like WakeWrites, with one of the nine sequences idle, so that at most eight commands fall in a second; enter and leave of one region are never in flight together.
- TimedRegions.SeparatedFlightKeepsChain: flights over the region sequences only; battery, exit and failure actionpoints stay untrue, as its premise on the telemetry says.
- RegionHops.HopKeepsChainIff: the if-and-only-if is stated for flights over two regions after a one-second touch; for other flights ClearFlightKeepsChain gives the one direction, because with the sequences of a third region in flight a rung may be held by either.
- Overtaking.PowerDownKeepsChainIff: the power-down sets in at least one second after the enter sequence was started; Boundaries.LowPowerWhileEntering has low power in the same second.
- Watchdogs.BootRuns: the boot sequence's fifth command starts sequence 3, whose commands, SUNSAFE among them, are not modelled; that the hardware is unchanged and nothing is executing afterwards is said of the modelled commands alone.
- Schedule.Scheduler.ProcessNextSlot: the ground commands processed in the time-sync slot and the count of processed slots are not modelled.
- SbnClient.Client.ReceiveLoop: an exception inside a receive or a handler, which ends the loop, and stopping by flag are not modelled; each handler call is atomic.
- SbnClient.SensorPacketFields: the four floats are the bytes they are packed to, and the subsecond count is taken to fit its 16 bits.
- SimulatorConfig.NumbersAreNeutral: the start time is text without the letter n, which every text accepted as a finite number is.
- TelemetrySender.Sender.SendTm: a length field of 65501 or more makes a packet of at least 65508 bytes, which a UDP socket refuses to send with an error that ends the loop.
- Configure.Build.Configure: the rewriting of Inp_Sim.txt and SC_NOS3.txt, which lies between the files modelled, with the index errors it may end in.
- TextLines.JoinSplit: carriage returns are not translated.
- The answers of the hardware: switch states and modes are those commanded, so a device that fails to initialise looks enabled.
- Event messages, command and error counters, persistence counts and housekeeping packets of Limit Checker and Stored Command.
- Ground commands, which may set any actionpoint or start any sequence at any time.
- Sequences 3, 5 and 37 and the absolute-time sequence, which are outside the science protocol.
- The restart commanded by sequence 36 ends a run; what the processor keeps over it is not modelled.
- The scheduler's timers and its catching up after a missed slot: slots are processed one after the other.
- Sockets, threads, logging, sensor reading and sleeps; the client's own five-second report loop.
- The parsing of the mission and spacecraft files, file copies, and the two simulation input files Inp_Sim.txt and SC_NOS3.txt, which use the same first-match scan for one to three lines.
- Data storage, housekeeping, telemetry output and file manager tables: constants whose consumers are elsewhere.
- The radio, cryptography, user interface and ground system plumbing.
