# NVMain: command path, event engine and data structures

NVMain is a cycle-accurate simulator of DRAM and non-volatile memories. This project models its
command path and the engine that drives it, and proves what they promise over every input and
every run.

**Command path.** The memory controller keeps a shadow of every bank (`activateQueued`,
`activeSubArray`, `effectiveRow`, `refreshQueued`). From it alone it expands transactions into
ACTIVATE, READ, WRITE, PRECHARGE and REFRESH commands, which wait in one queue per bank. The banks
and their subarrays are the state machines that must accept those commands later, under next-command
timers and completion events. The main result is a simulation: replaying a bank's queue on its real
row state meets no illegal command and ends exactly in the shadow. From it follow legality, progress
and exactly-once delivery. The same banks are shown to keep the DDR3 command distances (JEDEC
JESD79-3, section 4) between any two commands of a run, and to accept a command as soon as these have
passed. The controller does not poll: it sleeps until
the cycle that some queue head asks for. Over whole runs it is shown never to be late if the timings
meet a condition, and this condition is exact. Its methods are proved to be the steps of those runs.

**Event engine.** An event queue skips its clock from event to event; a global queue drives several
such queues whose clocks differ by real factors. Skipping is proved equal to ticking, and the global
clock coherent and terminating.

**Smaller cores.** The Flip-N-Write encoder, the row buffers of the cached bank, address translation,
the DRAM cache protocol of LO-Cache, the bit counts of multi-level cells, and an LRU list.

Where the source updates objects in place there is a class with the same fields, whose methods are
proved against a specification on values; theorems about runs are lemmas on that specification.

| files | what they hold |
|---|---|
| Commands, Arithmetic, Sequences | requests, operations, timing parameters; index arithmetic |
| SubArraySpec, SubArray, BankSpec, Bank | the device state machines, on values and in place |
| BankRuns, Replay | runs of one bank: timing, wake-up times, row state, progress |
| BankLaw, PowerDowns | when a bank accepts a command, by its log and the timings alone; power modes |
| ControllerSpec, Channel | the shadow, expansion, selectors; runs of a whole channel |
| RowHits | row buffer hits, by the commands that were sent; page policies |
| ChannelBanks, ChannelRefresh, ChannelProgress | the channel's banks, refreshes and progress |
| Wakeups, WakeupRuns, Handovers | runs of the event-driven controller: never late with prompt timings, and exactly for which pairs |
| Timetable | its runs with timed refresh pulses and the order of events within a cycle |
| ControllerLaw | refreshes, pulses, turns and scheduled events, counted over its runs |
| Driving, Opening | steps and runs that use a few banks |
| LateWakeup, LateTimings | late runs, and exactly when there are any |
| TwoRefreshes | runs with two refreshes outstanding |
| Memory, MemoryController, RefreshSpec | the controller in place, refresh bookkeeping |
| FrfcfsSpec, Frfcfs, WriteQueueSpec, WriteQueue | two scheduling policies |
| EventSpec, EventRuns, EventQueue, GlobalSpec, GlobalEventQueue | the event engine |
| FlipSpec, FlipRuns, FlipNWrite | Flip-N-Write |
| RowBufferSpec, RowBuffers | cached row buffers |
| AddressSpec, TranslateSpec, AddressTranslator | address mapping |
| LoCacheSpec, LoCacheRuns, LoCache | the DRAM cache protocol |
| BitCount, LruSpec, Lru | bit counts; the LRU list |

## Assumptions

- Precharges are used (`UsePrecharge`), writes go through to the cells, and every bank has its own
  command queue under schedule scheme 1 or 2.
- No unsigned subtraction of timing parameters goes below zero, and `tRP >= 1` (`Parameters.Valid`).
  `BanksPerRefresh` divides `BANKS` and `DelayedRefreshThreshold >= 1`.
- What depends on data or configuration outside the model is an input of each step: the latency that
  cell programming, encoding and endurance add, and what an interrupted write becomes.
- Write pausing is off, or every write that is sent carries the forced flag; the controller with a
  write queue is proved to be of the second kind.
- Event handlers insert and remove events at strictly later cycles only, and clocks stay below the
  largest 64-bit value.
- Main memory behind the DRAM cache refuses a request only while it is busy
  (`RefusesOnlyWhenBusy`); this is needed for liveness alone.

## Findings

- "Can we remove this sanity check and totally trust IsIssuable()?" (src/SubArray.cpp:284,
  Banks/DDR3Bank/DDR3Bank.cpp:316): yes. At the subarray that holds with interrupted writes as well
  (`SubArraySpec.GuardIsComplete`, `SubArraySpec.EverythingKeepsRestorable`); at the bank it is
  proved without them (`BankSpec.GuardIsComplete`).
- A bank that starts powered down (`InitPD`) is never woken, because the low-power handling that
  would do it is commented out: `BankRuns.NeverWoken`; `Replay.HeadBecomesIssuable` has the exact
  condition.
- The assertion on sending a REFRESH (src/MemoryController.cpp:636) holds exactly when no refresh is
  queued for a group whose flag is still set: `ChannelRefresh.AssertionHoldsIff`. The controller does
  not check the flag before it queues one. `TwoRefreshes.SecondSendFindsNoFlag` is a run that keeps to
  the refresh pulses: a write that recovers slowly holds the first REFRESH in its queue until the next
  pulse, and the assertion then fails.
- When a read for another bank of the group comes in the cycle of the first REFRESH, the second one is
  shut out by the row that the read opens (`TwoRefreshes.SecondIsShutOut`);
  `ChannelProgress.RefreshCanBeSentIff` says when a REFRESH can be sent at all.
- The controller can wake up late. A cycle event sends a command after the wake-up times were
  computed; a wake-up in the same cycle still finds that command at the head of its queue and sleeps
  until another of its kind could follow, although the precharge or refresh behind it may be ready
  before. No run is late if `WakeupRuns.PromptTimings` holds (`WakeupRuns.NeverOversleeps`,
  `Timetable.PromptIsNeverLate`). The condition is exact for every pair of commands
  (`Handovers.PromptIsExact`) and, under the open-page policy with two banks outside of a refresh
  group, for the controller as a whole (`LateTimings.NeverLateIff`), over runs that keep to the refresh
  pulses and to the order of events within a cycle.
- The timings in Config/3D_DRAM_example.config (tBURST 2, tCCD 4, tRTP 5, tAL 0) do not meet the
  condition: 4 + 4 exceeds 0 + 2 + 5. `LateTimings.ControllerOversleeps` is a late run of the FRFCFS
  controller with these timings, this refresh interval and the 32 banks in two refresh groups. That
  file puts all banks into one group, for which no late run is shown.
- Relaxed close-page (`ClosePage` 1) is described as closing the row behind the last request for it
  (src/MemoryController.cpp:1471-1476). It does so unless the request opened its row beside or instead
  of another one; then the row stays open: `RowHits.RelaxedClosesIff`. It also takes requests of another
  column group of the row, which are no hits, for a reason to keep it open.
- WRITE_PRECHARGE replaces the cycle from which a bank may be powered down instead of moving it
  (Banks/DDR3Bank/DDR3Bank.cpp:478), and so forgets a refresh of another subarray:
  `PowerDowns.RefreshIsCutShort`, and `PowerDowns.PowerDownIsSafe` for what is kept. The controller
  sends no power-down.
- The round robin over `n` command queues has `n + 1` turns, in two of which queue 0 comes first
  (src/MemoryController.cpp:1896): `ControllerLaw.SentInTurn`.
- Calling `Drain` while writes are being drained starves every waiting read for the rest of the run
  (`WriteQueueSpec.DrainDuringDrainStarvesReads`, reached from power-on in
  `WriteQueueSpec.DrainCanStarve`); the trace-driven front end calls it at the end of
  its trace and then waits for all requests (traceSim/traceMain.cpp:206-221).
- The sanity check of the watermarks can leave the low one above the high one
  (`WriteQueueSpec.SanitizedLimits`).
- Events inserted without a stored priority do not take part in the priority order
  (`EventRuns.SortedStaysSortedIff`, `EventRuns.UnstoredPriorityBreaksOrder`); the cleanup callback
  still runs first in its cycle (`EventRuns.UrgentRunFirst`), and the controller's other events keep
  their order (`EventRuns.ControllerOrder`).
- `InvertData` mirrors the bits of each byte, so the bits charged for an inverted partition need not
  be the bits that change (`FlipRuns.InvertedChargeMayBeWrong`); `FlipRuns.ChargeIsRightIff` says when
  they are. Decoding is unaffected. On a range that is not whole bytes it loses data
  (`FlipSpec.InvertIsInvolutionIff`).
- The count assertion in `WriteCellData` holds exactly when the word size leaves a remainder below 2
  modulo 32 (`BitCount.CellCountAssertionIff`).

## Model

| member | source | states |
|---|---|---|
| SubArrays.SubArray.IsIssuable | src/SubArray.cpp:1114-1218 | accepts a command exactly when its timer has run out, the row state fits, and no forced write is in progress |
| SubArrays.SubArray.NextIssuable | src/SubArray.cpp:1098-1109 | the cycle of the timer that guards the command |
| SubArrays.SubArray.CheckWritePausing | src/SubArray.cpp:829-915 | interrupting a write restores the timers from before it and moves its completion to the next cycle |
| SubArrays.SubArray.Activate | src/SubArray.cpp:275-356 | the whole new state of an activate: open row, row and column timers, and refusal by the sanity checks |
| SubArrays.SubArray.Read | src/SubArray.cpp:361-501 | the whole new state of a read, with and without implicit precharge |
| SubArrays.SubArray.Write | src/SubArray.cpp:506-710 | the whole new state of a write, with the completion and precharge events it schedules |
| SubArrays.SubArray.Precharge | src/SubArray.cpp:715-770 | the whole new state of a precharge, and the event that closes the row |
| SubArrays.SubArray.Refresh | src/SubArray.cpp:776-827 | the whole new state of a refresh, and the event that ends it |
| SubArrays.SubArray.IssueCommand | src/SubArray.cpp:1223-1269 | a command that is not issuable changes nothing; any other is carried out by its kind |
| SubArrays.SubArray.CompleteClosing | src/SubArray.cpp:1309-1366 | an implicit precharge event starts the precharge; the closing event closes the row |
| SubArrays.SubArray.CompleteWrite | src/SubArray.cpp:1271-1308 | the completion of the latest write ends it |
| SubArraySpec.GuardIsComplete | src/SubArray.cpp:1114-1269 | a command is carried out if and only if IsIssuable accepts it, interrupted writes included, so the sanity checks behind it are dead |
| SubArraySpec.EverythingKeepsRestorable | src/SubArray.cpp:829-1366 | what the guard relies on holds at power-on and is kept by every command and every event, whether writes are interrupted or not |
| SubArraySpec.IssueKeepsInv | src/SubArray.cpp:1223-1269 | every command keeps the invariant, never moves a timer back, and never overwrites a pending completion event |
| SubArraySpec.CompleteKeepsInv | src/SubArray.cpp:1271-1366 | every completion event keeps the invariant, the timers, and whether a row is held open |
| SubArraySpec.InterruptUndoesWrite | src/SubArray.cpp:829-915 | interrupting a write takes back what it did to the timers, and its completion comes in the next cycle |
| Banks.Bank.IsIssuable | Banks/DDR3Bank/DDR3Bank.cpp:714-864 | accepts a command exactly when the mode, the bank timers and the subarrays it asks do: the addressed one, the active ones for PrechargeAll, all of them for power commands |
| Banks.Bank.NextIssuable | Banks/DDR3Bank/DDR3Bank.cpp:699-709 | the later of the bank timer and the subarray's own answer |
| Banks.Bank.Activate | Banks/DDR3Bank/DDR3Bank.cpp:314-365 | the whole new state of the bank and its subarrays after an activate |
| Banks.Bank.Read | Banks/DDR3Bank/DDR3Bank.cpp:370-449 | the whole new state after a read; an implicit precharge deactivates its subarray at once |
| Banks.Bank.Write | Banks/DDR3Bank/DDR3Bank.cpp:454-538 | the whole new state after a write; an implicit precharge deactivates its subarray at once |
| Banks.Bank.Precharge | Banks/DDR3Bank/DDR3Bank.cpp:543-652 | the whole new state after a precharge of one subarray or of all active ones |
| Banks.Bank.Refresh | Banks/DDR3Bank/DDR3Bank.cpp:657-697 | the whole new state after a refresh |
| Banks.Bank.PowerDown | Banks/DDR3Bank/DDR3Bank.cpp:217-261 | the power-down mode that results from the request and the mode |
| Banks.Bank.PowerUp | Banks/DDR3Bank/DDR3Bank.cpp:267-309 | the mode and timers after waking up |
| Banks.Bank.IssueCommand | Banks/DDR3Bank/DDR3Bank.cpp:869-923 | a command that is not issuable changes nothing; any other is carried out by its kind, in place |
| BankSpec.PrechargeActiveSucceeds | Banks/DDR3Bank/DDR3Bank.cpp:560-610 | precharging every active subarray succeeds and leaves every other subarray alone |
| BankSpec.GuardIsComplete | Banks/DDR3Bank/DDR3Bank.cpp:314-923 | with uninterrupted writes, a bank carries a command out if and only if IsIssuable accepts it, and keeps the active queue duplicate-free and exact |
| BankRuns.TimingSafety | src/SubArray.cpp:299-767 | in every run from power-on, any two accepted commands of a bank keep the distance the timers promise, however far apart; two activates of a subarray are separated by a closing command and by the sum along that path |
| BankLaw.AcceptedIffAllowed | src/SubArray.cpp:275-1218 | in every run of a bank from power-on, once the completions that are due have come, an array command is accepted if and only if the log allows it: the bank is up, every logged distance has passed and the row is as the command needs it |
| BankLaw.CompletionsAreTimed | src/SubArray.cpp:361-827 | in every run, a row closes max(1, tRP) after its precharge, tRFC after its refresh, and tRP after its implicit precharge began, which is timed by the log as well; a write is done when its bursts and latency have passed |
| BankLaw.NextIssuableIsLatest | Banks/DDR3Bank/DDR3Bank.cpp:699-709 | in every run, NextIssuable is the first cycle at which the logged distances to the bank, and for plain row and column commands those to the subarray, have passed |
| PowerDowns.SubDownTimerIs | src/SubArray.cpp:275-710 | the distance that each command demands of a power-down by its subarray |
| PowerDowns.BankDownTimerIs | Banks/DDR3Bank/DDR3Bank.cpp:267-697 | the distance that each command demands of a power-down by the bank, where WRITE_PRECHARGE forgets those of other commands |
| PowerDowns.PowerDownIsSafe | Banks/DDR3Bank/DDR3Bank.cpp:217-261 | in every run, when a power-down is accepted no write is in progress, no row is open unless it goes to active power-down, and every distance has passed that no WRITE_PRECHARGE made the bank forget |
| PowerDowns.PowerUpAcceptedIff | Banks/DDR3Bank/DDR3Bank.cpp:217-309 | in every run, the power-down mode follows from the request and the open rows, and PowerUp is accepted if and only if the bank is down and tPD has passed |
| PowerDowns.RefreshIsCutShort | Banks/DDR3Bank/DDR3Bank.cpp:475-484 | a run in which a bank accepts a power-down while one of its subarrays is being refreshed |
| BankRuns.IssueKeepsGood | src/SubArray.cpp:299-767 | each accepted command keeps every earlier command's distances enforced by the current timers |
| BankRuns.PendingCloseBlocks | src/SubArray.cpp:1309-1326 | while an implicit precharge or a closing event is pending, the subarray accepts no array command |
| BankRuns.QuietRunKeepsTimers | src/SubArray.cpp:1271-1366 | completion events and time change no timer |
| BankRuns.IssuableAfterNextIssuable | Banks/DDR3Bank/DDR3Bank.cpp:699-709 | a command that is issuable has reached the cycle that NextIssuable names |
| BankRuns.NeverSleepsPast | Banks/DDR3Bank/DDR3Bank.cpp:699-864 | whatever events and time pass before the cycle that NextIssuable names, the command does not become issuable before it |
| BankRuns.NeverWoken | Banks/DDR3Bank/DDR3Bank.cpp:163-164 | a bank that starts powered down accepts none of the controller's commands in any run, and stays down |
| Replay.IssueFollowsReplay | Banks/DDR3Bank/DDR3Bank.cpp:869-923 | a command the bank accepts is legal in the replay of row states, and changes the real row state as the replay says |
| Replay.QuietRunKeepsView | src/SubArray.cpp:1271-1366 | completion events and time do not change the row state that the replay sees |
| Replay.TimePasses | src/SubArray.cpp:1271-1366 | completion events can always be worked off, so that time gets past any cycle |
| Replay.HeadBecomesIssuable | Banks/DDR3Bank/DDR3Bank.cpp:714-864 | a legal command becomes issuable after some quiet run if and only if the bank is not powered down |
| Replay.HeadIsNeverStuck | Banks/DDR3Bank/DDR3Bank.cpp:714-864 | a legal command of a bank that is not powered down can always be brought to issue |
| MemoryControllers.MemoryController.constructor | src/MemoryController.cpp:354-573 | the controller starts in the initial state of the specification, and the first refresh pulses are spread evenly over one refresh interval |
| MemoryControllers.MemoryController.Prequeue | src/MemoryController.cpp:175-180 | the request goes to the front of its queue |
| MemoryControllers.MemoryController.Enqueue | src/MemoryController.cpp:182-223 | the whole new state: the request goes to the back of its queue, and a cycle event comes in this cycle if nothing is left to send for its bank |
| MemoryControllers.MemoryController.TransactionAvailable | src/MemoryController.cpp:225-245 | whether some transaction waits for the queue |
| MemoryControllers.MemoryController.Reschedule | src/MemoryController.cpp:142-173 | a cycle event follows in the next cycle exactly if none is scheduled there and a transaction waits for a queue with nothing left to send |
| MemoryControllers.MemoryController.Test | src/MemoryController.cpp:1122-1486 | the condition of each of the four selectors |
| MemoryControllers.MemoryController.LastRequest | src/MemoryController.cpp:1081-1112 | the last-request flag for open, relaxed and restricted close-page policies |
| MemoryControllers.MemoryController.Find | src/MemoryController.cpp:1122-1486 | takes out the first request the selector matches, keeps the order of the others, and flags a last request |
| MemoryControllers.MemoryController.QueueCommands | src/MemoryController.cpp:1551-1665 | the commands queued and the tables afterwards, in each of the branches, and refusal otherwise |
| MemoryControllers.MemoryController.IssueMemoryCommands | src/MemoryController.cpp:1498-1674 | expansion followed by a wake-up that covers every queue head; with no refresh due, exactly the commands of the transaction are added and the wake-up is the earliest that a head asks for |
| MemoryControllers.MemoryController.CycleCommandQueues | src/MemoryController.cpp:1676-1773 | sends the first issuable head in round-robin order, at most one per cycle, flags it, schedules cleanup and, for a queue run empty, a cycle event; the round-robin moves by one queue, whichever was sent; sends none only if no head is issuable |
| MemoryControllers.MemoryController.NeedRefresh | src/MemoryController.cpp:590-600 | whether the delayed refreshes of the group have reached the threshold |
| MemoryControllers.MemoryController.ResetRefreshQueued | src/MemoryController.cpp:629-639 | clears the flag of every bank of the group and no other, and reports whether the assertion held: all of them were flagged |
| MemoryControllers.MemoryController.DecrementRefreshCounter | src/MemoryController.cpp:655-661 | one delayed refresh of the group is taken, never below zero, and counted as queued; no other group changes |
| MemoryControllers.MemoryController.FindDue | src/MemoryController.cpp:667-683 | the first group in round-robin order that needs a refresh; none only if no group does |
| MemoryControllers.MemoryController.TakeRefresh | src/MemoryController.cpp:684-746 | the whole effect of taking one refresh: the commands queued, both counts, the need flag, and the next round-robin position |
| MemoryControllers.MemoryController.AdvanceRoundRobin | src/MemoryController.cpp:735-744 | the round-robin goes to the next group, and after the last one to the next rank |
| MemoryControllers.MemoryController.QueueGroup | src/MemoryController.cpp:684-727 | queues the precharges that open banks need and one REFRESH at the head, and flags the group |
| MemoryControllers.MemoryController.HandleRefresh | src/MemoryController.cpp:667-757 | does nothing only if no group is due; otherwise the first due group is refreshed, and it is the only one if taking its refresh leaves none due; pulses stay equal to refreshes queued plus those delayed, and every queue head is covered by a wake-up |
| MemoryControllers.MemoryController.ProcessRefreshPulse | src/MemoryController.cpp:763-780 | a pulse is counted for its group, which is flagged exactly if it now needs a refresh, and comes again after the refresh interval |
| MemoryControllers.MemoryController.IsRefreshBankQueueEmpty | src/MemoryController.cpp:786-801 | whether every queue of the group is effectively empty |
| MemoryControllers.MemoryController.RefreshCallback | src/MemoryController.cpp:293-306 | the whole new state after a pulse: one step of the specification, after which no group is left with a refresh due; the invariant holds again |
| MemoryControllers.MemoryController.EffectivelyEmpty | src/MemoryController.cpp:1877-1885 | a queue is effectively empty if nothing but a sent head is in it |
| MemoryControllers.MemoryController.NextIssuable | src/MemoryController.cpp:1816-1851 | the earliest cycle that some queue head asks for, moved into the future, when no refresh is due; covers every queue head in any case; terminates although it handles refreshes that come back to it |
| MemoryControllers.MemoryController.ScheduleCommandWake | src/MemoryController.cpp:247-263 | every queue head is covered by a wake-up still to come, and no earlier one is lost |
| MemoryControllers.MemoryController.CommandQueueCallback | src/MemoryController.cpp:265-291 | the whole new state after a wake-up: one step of the specification; the next wake-up covers every head, and the invariant of controller and banks holds again |
| MemoryControllers.MemoryController.CleanupCallback | src/MemoryController.cpp:308-320 | drops exactly the commands that were sent, and keeps the invariant |
| MemoryControllers.MemoryController.CompleteEvent | src/SubArray.cpp:1271-1366 | a completion event of one subarray changes its bank only, and keeps the invariant of the controller |
| Wakeups.TurnCovers | src/MemoryController.cpp:1890-1901 | the round-robin order reaches every queue |
| Memories.Memory.IsIssuable | Ranks/StandardRank/StandardRank.cpp:732-755 | a command is accepted by its bank; a refresh by every bank of the group |
| Memories.Memory.IssueCommand | Ranks/StandardRank/StandardRank.cpp:575-607 | a command changes its bank only; a refresh changes every bank of the group and no other |
| ControllerSpec.FirstMatch | src/MemoryController.cpp:1122-1486 | the first request that a selector matches, and none before it |
| ControllerSpec.ExpandKeepsPrediction | src/MemoryController.cpp:1551-1665 | a request found by a selector is never refused, and the shadow keeps predicting the row state exactly |
| ControllerSpec.QueueRefreshKeepsPrediction | src/MemoryController.cpp:684-727 | queueing a refresh keeps the shadow exact and leaves no row open in it |
| ControllerSpec.SendKeepsPrediction | src/MemoryController.cpp:1695-1726 | the head that is sent is legal, and the shadow predicts from the row state after it |
| ControllerSpec.CleanupKeepsPrediction | src/MemoryController.cpp:308-320 | dropping sent commands does not change what the shadow predicts |
| ControllerSpec.UnissuedIsPending | src/MemoryController.cpp:308-320 | as only heads are sent, cleanup leaves exactly the commands that are pending |
| Channel.QueueIdIsBijective | src/MemoryController.cpp:1782-1814 | under schedule schemes 1 and 2 every bank has its own command queue, within the number of queues |
| Channel.QueueIdOrder | src/MemoryController.cpp:1790-1803 | scheme 1 numbers the queues bank by bank, scheme 2 rank by rank |
| Channel.ExpandQueuesOnce | src/MemoryController.cpp:1551-1665 | expanding a transaction queues its column command exactly once, after the commands that prepare it |
| RowHits.NextIsHitIff | src/MemoryController.cpp:1513-1665 | behind a transaction that leaves its row open, one for the same subarray is a hit, and a column command alone, if and only if it has the same row and the same column group; else PRECHARGE and ACTIVATE come first |
| RowHits.HitIffLastSent | src/MemoryController.cpp:1323-1373 | in every reachable state, a transaction is found by the hit selector if and only if the last command sent to its subarray was a read or write of the same row and column group that left it open |
| RowHits.ExpansionIs | src/MemoryController.cpp:1551-1665 | the commands of a transaction, by the tables alone: none, ACTIVATE, or PRECHARGE and ACTIVATE before its column command |
| RowHits.RefusedIff | src/MemoryController.cpp:1525-1665 | a transaction is refused if and only if commands wait for its bank, it is no hit and no cache serves it |
| RowHits.LastFlagIff | src/MemoryController.cpp:1081-1112 | open page flags no last request, restricted close-page every one, and relaxed close-page one for whose row no other transaction waits |
| RowHits.RelaxedClosesIff | src/MemoryController.cpp:1081-1665 | relaxed close-page closes a row behind a transaction if and only if no other waits for that row and it found no row of its bank open, or its own |
| Channel.StepKeepsInv | src/MemoryController.cpp:142-1773 | accepting, scheduling, sending, cleanup, refreshes, completion events and time all keep the invariant of the channel |
| Channel.NoHeadIsSentTwice | src/MemoryController.cpp:1695-1726 | when a command may be sent, no head is one that was sent before |
| Channel.ShadowSimulatesDevice | src/MemoryController.cpp:1551-1665 | in every reachable state, replaying a bank's unsent commands on its real row state meets no illegal command and gives exactly the shadow tables; activateQueued holds iff some subarray is active |
| Channel.SelectedIsNeverRefused | src/MemoryController.cpp:1498-1674 | in every reachable state, the expansion accepts whatever a selector found, as its callers rely on |
| Channel.ExactlyOnce | src/MemoryController.cpp:182-1773 | in every reachable state each accepted transaction is in exactly one of transaction queue, command queue and sent log, and at most one command is sent per cycle |
| Channel.RestrictedClosePageNeverHits | src/MemoryController.cpp:1615-1665 | under the restricted close-page policy no row buffer hit is ever scheduled |
| Channel.RefreshIsLegalForGroup | src/MemoryController.cpp:684-727 | a refresh is legal in every bank of the group once that bank's own queue has been carried out |
| Channel.CachedIsNeverIssuable | Banks/DDR3Bank/DDR3Bank.cpp:714-864 | a plain bank never serves a cached request, so the cached-address selector finds nothing |
| ChannelBanks.EveryBankIsTimed | src/MemoryController.cpp:1695-1726 | every bank of every run of the channel, refreshes included, follows a run of its own: all its commands keep their distances, and activates of a subarray are separated by a closing command |
| ChannelProgress.HeadCanBeSent | src/MemoryController.cpp:1695-1726 | from every reachable state the head of every queue, unless it is a REFRESH, can be sent after events, time and cleanup alone |
| ChannelProgress.RefreshCanBeSentIff | Ranks/StandardRank/StandardRank.cpp:732-755 | a REFRESH head whose group has nothing else queued can be sent after events, time and cleanup if and only if no other bank of the group has subarray 0 open; a flagged group never has |
| ChannelProgress.QueuesDrain | src/MemoryController.cpp:1676-1773 | if refreshes are queued only for groups that are not flagged, a run of sends, cleanups, events and time empties every command queue from every reachable state, REFRESH included |
| ChannelRefresh.UnflaggedQueueingSuffices | src/MemoryController.cpp:629-639 | if refreshes of a group are queued only while it is not flagged, every REFRESH that is sent finds the flag set in the whole group, and at most one is ever outstanding |
| ChannelRefresh.AssertionHoldsIff | src/MemoryController.cpp:629-639 | over any run of the channel after which no refresh of the group is outstanding, the assertion held at every send if and only if no refresh was queued while the group was flagged |
| ControllerLaw.RefreshesFollowPulses | src/MemoryController.cpp:590-790 | in every state that the controller reaches, the first pulses of a bank group, one fewer than the threshold, are put off, and each later one has queued exactly one REFRESH |
| TwoRefreshes.SecondSendFindsNoFlag | src/MemoryController.cpp:629-639 | a run by the timetable in which a slow write holds the first REFRESH in its queue until the next pulse; after it was sent, the next wake-up sends the second one while no bank of the group is flagged, so the assertion fails |
| TwoRefreshes.SecondIsShutOut | src/MemoryController.cpp:684-727 | such a run with a read for the other bank of the group handed over in the cycle of the first REFRESH: the read opens a row, and the second REFRESH can never be sent by events and time |
| Wakeups.SoonestIsLeast | src/MemoryController.cpp:1816-1851 | the wake-up time is asked for by some queue head, and no head asks for an earlier one |
| Wakeups.FirstTurnCanSend | src/MemoryController.cpp:1695-1726 | the head that is sent can be sent, and nothing before it in round-robin order can |
| ControllerLaw.SentInTurn | src/MemoryController.cpp:1676-1773 | in every reachable state, after k commands were sent the next is that of the first queue that can, counted from k mod (n + 1) of the n queues on; none only if no head can be sent, or in a cycle in which one was sent or a refresh was handled |
| ControllerLaw.HandledIff | src/MemoryController.cpp:667-760 | the last cycle in which a refresh was handled is that of the last pulse that queued one |
| ControllerLaw.CycleEventsIff | src/MemoryController.cpp:142-223 | when each callback, cycle event and transaction brings a cycle event, by the commands and transactions that wait, and that nothing else does |
| ControllerLaw.WakesIff | src/MemoryController.cpp:247-291 | when a wake-up is scheduled, and that it is for the earliest cycle at which the bank of some queue head asks for it to be tried |
| Wakeups.StepIsRun | src/MemoryController.cpp:142-320 | whatever a callback or a cycle event does, the channel can do step by step |
| WakeupRuns.StepKeepsValid | src/MemoryController.cpp:142-320 | every callback, cycle event, completion event and passing of time keeps the invariant: that of the channel, no refresh left due, no wake-up or cycle event in the past |
| WakeupRuns.RunsAreChannelRuns | src/MemoryController.cpp:142-320 | every run of the event-driven controller is a run of the channel, so that all channel results hold for it |
| WakeupRuns.NeverOversleeps | src/MemoryController.cpp:247-291 | with prompt timings, in every state that the event-driven controller reaches, sends from cycle events included: whenever a head can be sent, a wake-up is still to come in this very cycle, or one has come and the next is in the next cycle |
| WakeupRuns.TransactionsAreAttended | src/MemoryController.cpp:142-223 | in every state that it reaches, while a transaction waits for a queue with nothing left to send, a cycle event comes in this cycle or the next, whatever the timings |
| Handovers.ColumnsInTimeIff | src/MemoryController.cpp:1816-1851 | over all runs of a bank, the wake-up asked for by a sent read or write comes in time for the precharge behind it if and only if the timings are prompt for the pair |
| Handovers.ClosesInTimeIff | src/MemoryController.cpp:1816-1851 | the same for column commands with implicit precharge and the precharge or refresh behind them |
| Handovers.PromptIsExact | src/MemoryController.cpp:1816-1851 | the timings are prompt if and only if every handover between two commands that can be queued behind each other is in time |
| Timetable.RunsAreControllerRuns | src/MemoryController.h:65-69 | a run by the timetable (pulses when they are due, the events of a cycle in the order of their priorities, the host after them) is a run of the event-driven controller, so all its results hold |
| Timetable.PulsesAreRegular | src/MemoryController.cpp:529-567 | in every run by the timetable no pulse is missed, and those of a group are whole refresh intervals apart, from a first one that is staggered by group |
| ControllerLaw.PulsesComeOnTime | src/MemoryController.cpp:529-567 | in every run by the timetable, the n-th pulse of group g of m comes at n intervals and g slices of an m-th of it |
| Timetable.PromptIsNeverLate | src/MemoryController.cpp:247-291 | with prompt timings no run by the timetable, whatever is scheduled, reaches a state in which a command can be sent and nothing looks at the queue heads before a later cycle |
| LateTimings.SomeRunIsLate | MemControl/FRFCFS/FRFCFS.cpp:220-281 | under the open-page policy, with two banks outside of a refresh group: if a row can be closed before another column command could follow the one that was sent, a run of the FRFCFS controller by the timetable is late, for every long enough refresh interval |
| LateTimings.NeverLateIff | src/MemoryController.cpp:247-291 | for such configurations no run by the timetable is late if and only if the timings are prompt |
| LateTimings.ControllerOversleeps | MemControl/FRFCFS/FRFCFS.cpp:220-281 | a late run of the FRFCFS controller by the timetable, with the timings and the refresh interval of an example configuration, reads of at most two bursts, and two refresh groups |
| RefreshSpec.OneRefreshIsEnough | src/MemoryController.cpp:644-757 | taking one refresh of each due group leaves none due |
| RefreshSpec.ScanVisitsEachHeadOnce | src/MemoryController.cpp:667-757 | the round-robin scan visits every group head of every rank exactly once |
| Frfcfs.FRFCFS.IsIssuable | MemControl/FRFCFS/FRFCFS.cpp:126-139 | accepts exactly while the queue is shorter than its size |
| Frfcfs.FRFCFS.IssueCommand | MemControl/FRFCFS/FRFCFS.cpp:145-169 | an accepted transaction goes to the back of the queue with its arrival cycle, as a step of the specification; a refused one changes nothing |
| Frfcfs.FindNext | MemControl/FRFCFS/FRFCFS.cpp:220-268 | takes the transaction that the policy picks out of a queue, and leaves the others in order |
| Frfcfs.Issue | MemControl/FRFCFS/FRFCFS.cpp:270-274 | the transaction that was picked is never refused by the expansion, and its commands and the wake-up for them are all that is added |
| Frfcfs.FRFCFS.Cycle | MemControl/FRFCFS/FRFCFS.cpp:220-281 | the whole new state after a cycle event, which is a step of the specification with the choice of the policy: one transaction is picked by starved, hit, ready, closed order, at most one command is sent, and the invariant holds again |
| FrfcfsSpec.PickTakesOne | MemControl/FRFCFS/FRFCFS.cpp:232-268 | the transaction picked comes from the queue and its bank has nothing queued; none is picked only if no selector matches any request |
| FrfcfsSpec.PickIsOldestOfBestClass | MemControl/FRFCFS/FRFCFS.cpp:232-268 | over the tables and arrival cycles alone: the oldest transaction of the most urgent class is picked, starved conflicts before hits before open banks before closed ones; none only if none may be scheduled |
| FrfcfsSpec.HitOnlyBelowThreshold | src/MemoryController.cpp:1146-1158 | a hit is scheduled past a waiting conflict only below the starvation threshold |
| FrfcfsSpec.StarvationCounts | src/MemoryController.cpp:1558-1621 | the starvation counter of a subarray counts the hits scheduled since its last other request, over every kind of step |
| FrfcfsSpec.BoundedBypass | MemControl/FRFCFS/FRFCFS.cpp:232-275 | while a conflicting request waits, at most as many hits of its subarray are scheduled as the threshold still allows, over runs of any length |
| WriteQueue.WriteQueueController.constructor | MemControl/FRFCFS-WQF/FRFCFS-WQF.cpp:132-177 | the watermarks are clamped as configured, no drain is under way |
| WriteQueue.WriteQueueController.IsIssuable | MemControl/FRFCFS-WQF/FRFCFS-WQF.cpp:230-243 | reads are accepted below the read queue size; writes below the write queue size and never during a drain |
| WriteQueue.WriteQueueController.IssueCommand | MemControl/FRFCFS-WQF/FRFCFS-WQF.cpp:245-273 | an accepted transaction goes to the queue of its kind, as a step of the specification; anything else changes nothing |
| WriteQueue.WriteQueueController.SwitchMode | MemControl/FRFCFS-WQF/FRFCFS-WQF.cpp:336-428 | a drain starts at the high watermark and ends at the low one, unless it is forced |
| WriteQueue.WriteQueueController.Cycle | MemControl/FRFCFS-WQF/FRFCFS-WQF.cpp:333-508 | the whole new state after a cycle event, which is a step of the specification: one transaction is picked from the queue the mode selects, flagged while draining and counted, at most one command is sent, and the invariant holds again |
| WriteQueue.WriteQueueController.Drain | MemControl/FRFCFS-WQF/FRFCFS-WQF.cpp:537-542 | sets the forced flag and nothing else, and keeps the invariant |
| WriteQueue.TickIsARound | MemControl/FRFCFS-WQF/FRFCFS-WQF.cpp:333-508 | a tick of the specification picks, queues, flags and counts as a cycle of the controller does |
| WriteQueueSpec.SanitizedLimits | MemControl/FRFCFS-WQF/FRFCFS-WQF.cpp:158-172 | after the sanity check the high watermark fits the queue; the low one is at most the high one exactly if a clamped high watermark still leaves room |
| WriteQueueSpec.HostAcceptedIff | MemControl/FRFCFS-WQF/FRFCFS-WQF.cpp:229-333 | a transaction is accepted if and only if its queue is not full, and a write only while nothing is or has to be drained; it becomes the last of its queue |
| WriteQueueSpec.TickFollowsWatermarks | MemControl/FRFCFS-WQF/FRFCFS-WQF.cpp:336-505 | unless all has to be drained, a drain is over in a tick if and only if at most the low watermark of writes waits, and begins if and only if the high watermark is reached; the tick schedules the policy's pick from the queue that follows from this, counts writes and flags what it drains |
| WriteQueueSpec.ProjectionIsEnabled | MemControl/FRFCFS-WQF/FRFCFS-WQF.cpp:445-505 | whatever the controller does the channel allows; a write is only scheduled with the forced flag |
| WriteQueueSpec.StepKeepsInv | MemControl/FRFCFS-WQF/FRFCFS-WQF.cpp:230-508 | every step keeps both queue sizes, reads and writes apart, the forced flags, and the count of drained writes |
| WriteQueueSpec.RunsAreChannelRuns | MemControl/FRFCFS-WQF/FRFCFS-WQF.cpp:230-508 | every run of this controller is a run of the channel even when writes can be paused, so all channel results hold for it |
| WriteQueueSpec.NoWriteIsBounced | MemControl/FRFCFS-WQF/FRFCFS-WQF.cpp:283-289 | in every reachable state all sent writes carried the forced flag, no write was paused or cancelled, and no queue is longer than its size |
| WriteQueueSpec.DrainStepOnlyShrinks | MemControl/FRFCFS-WQF/FRFCFS-WQF.cpp:336-505 | a step of a drain accepts no write and removes at most the one write it counts; reads are only added |
| WriteQueueSpec.DrainOnlyShrinks | MemControl/FRFCFS-WQF/FRFCFS-WQF.cpp:336-505 | over a whole drain the write queue only shrinks and the drain counts exactly what left it |
| WriteQueueSpec.DrainIsComplete | MemControl/FRFCFS-WQF/FRFCFS-WQF.cpp:348-428 | a drain ends only at the low watermark and has then scheduled at least high minus low writes |
| WriteQueueSpec.ForceFreezesDraining | MemControl/FRFCFS-WQF/FRFCFS-WQF.cpp:336-352 | once a drain is forced, the draining flag never changes again |
| WriteQueueSpec.ReadsServedAfterDrainIff | MemControl/FRFCFS-WQF/FRFCFS-WQF.cpp:445-490 | after Drain a tick serves a ready read if and only if no drain was under way |
| WriteQueueSpec.DrainDuringDrainStarvesReads | MemControl/FRFCFS-WQF/FRFCFS-WQF.cpp:445-542 | Drain during a drain keeps every waiting read waiting for the rest of the run |
| WriteQueueSpec.DrainCanStarve | MemControl/FRFCFS-WQF/FRFCFS-WQF.cpp:336-542 | such a drain is reached from power-on with a write, a read and a tick when the high watermark is one write; Drain then starves the waiting read for ever |
| EventQueues.EventQueue.InsertEvent | src/EventQueue.cpp:137-179 | the event is put before the first of its cycle with a greater stored priority; the next cycle is the lesser |
| EventQueues.EventQueue.InsertCallback | src/EventQueue.cpp:182-195 | a callback is inserted with the priority it stores |
| EventQueues.EventQueue.RemoveEvent | src/EventQueue.cpp:198-238 | the first such event of the cycle goes, an empty list goes with it, and the next cycle is the least key |
| EventQueues.EventQueue.Process | src/EventQueue.cpp:358-418 | dispatches the events of the next cycle and removes it |
| EventQueues.EventQueue.Tick | src/EventQueue.cpp:312-324 | one cycle: events that are due are dispatched, then the clock moves by one |
| EventQueues.EventQueue.Loop | src/EventQueue.cpp:327-355 | the clock skips from event to event; terminates |
| EventSpec.ProcessKeepsInv | src/EventQueue.cpp:358-418 | every event of the cycle calls its recipient once, in list order, whatever the recipients insert or remove; the next event is strictly later |
| EventRuns.ProcessDelivers | src/EventQueue.cpp:358-418 | a cycle calls the recipients of exactly its cycle, response and callback events, with the cycles since the last events; the events left are those that were there, changed only as the recipients say |
| EventRuns.LoopKeepsInv | src/EventQueue.cpp:327-355 | the clock moves by exactly the steps, no call is lost, the next event is the least key and strictly later |
| EventRuns.LoopSplits | src/EventQueue.cpp:327-355 | Loop(a) and then Loop(b) make the same calls and end in the same queue as Loop(a + b), for all a and b |
| EventRuns.TickIsLoop | src/EventQueue.cpp:312-355 | one tick and the events of the cycle it reaches are Loop(1) |
| EventRuns.TicksAreLoop | src/EventQueue.cpp:312-355 | n ticks make the same calls as Loop(n), up to the events of the final cycle |
| EventRuns.InsertOrderedAdds | src/EventQueue.cpp:150-178 | insertion adds the event once and overtakes only events of greater stored priority |
| EventRuns.InsertEventPlaces | src/EventQueue.cpp:137-180 | an inserted event goes behind all events of its cycle of at most its priority, and other cycles stay as they are |
| EventRuns.ChangesKeepInv | src/EventQueue.cpp:137-240 | inserting an event that is still to come, and removing any, keep the next cycle the least one with events |
| EventRuns.RemoveEventTakes | src/EventQueue.cpp:198-240 | removal takes the first occurrence and keeps every other event |
| EventRuns.RemoveEventMisses | src/EventQueue.cpp:198-240 | removing an event that is not there leaves the events alone |
| EventRuns.SortedStaysSortedIff | src/EventQueue.cpp:123-179 | a list stays sorted by stored priority exactly when the stored priority of the new event fits where it was inserted |
| EventRuns.UnstoredPriorityBreaksOrder | src/EventQueue.cpp:123-135 | an event inserted with priority 30 but none stored is not overtaken by a callback of priority 10 |
| EventRuns.UrgentRunFirst | src/MemoryController.h:65-69 | whatever is inserted for a cycle and in whatever order, the cleanup callback comes before everything else in it |
| EventRuns.ControllerOrder | src/MemoryController.h:65-69 | however the events of a cycle are inserted, pulses ahead of cycle events, cleanup runs first, responses before pulses, pulses before cycle events, and wake-ups last |
| GlobalEventQueues.GlobalEventQueue.AddSystem | src/EventQueue.cpp:456-473 | a subsystem no faster than the global clock joins with a multiplier of at least one |
| GlobalEventQueues.GlobalEventQueue.GetNextEvent | src/EventQueue.cpp:520-549 | the first queue whose next event is earliest on the global clock, and that cycle |
| GlobalEventQueues.GlobalEventQueue.Sync | src/EventQueue.cpp:556-570 | every queue runs up to the local cycle of the global clock |
| GlobalEventQueues.GlobalEventQueue.Cycle | src/EventQueue.cpp:476-507 | equals the specification of a cycle on the whole state; terminates |
| GlobalSpec.Earliest | src/EventQueue.cpp:520-549 | the earliest event over all domains, the first domain among equals |
| GlobalSpec.ToLocalIsLast | src/EventQueue.cpp:556-570 | the local cycle at a global cycle is not ahead of the global clock |
| GlobalSpec.ToGlobalIsFloor | src/EventQueue.cpp:520-549 | a local cycle falls into the global cycle in which it begins |
| GlobalSpec.ToLocalIsFloor | src/EventQueue.cpp:556-570 | at a global cycle a domain is in the local cycle that has begun and not ended |
| GlobalSpec.AtMostOneAhead | src/EventQueue.cpp:556-570 | a domain that is not ahead of the global clock is at most one cycle past its local cycle |
| GlobalSpec.SyncKeepsOk | src/EventQueue.cpp:556-570 | after Sync every domain is at the local cycle of the global clock or one further, and never ahead of it |
| GlobalSpec.RunEventProgress | src/EventQueue.cpp:481-507 | every iteration keeps the clocks coherent and brings the termination measure down |
| GlobalSpec.CycleIsCoherent | src/EventQueue.cpp:476-507 | a cycle moves the global clock by exactly the steps, leaves every domain in step with it, and leaves no event that is due |
| GlobalSpec.CycleMovesOn | src/EventQueue.cpp:476-507 | no domain loses a call it has made or goes back to an earlier event |
| GlobalSpec.CycleRunsDomains | src/EventQueue.cpp:476-507 | under the global clock every domain makes the calls, and ends in the queue, that its own queue would have by itself |
| GlobalSpec.CallsAreDue | src/EventQueue.cpp:476-507 | no event is dispatched before its time on the global clock |
| FlipNWriteEncoder.FlipNWrite.InvertByte | DataEncoders/FlipNWrite/FlipNWrite.cpp:95-116 | the inverted byte, bit by bit: covered bits are complemented and mirrored |
| FlipNWriteEncoder.FlipNWrite.InvertData | DataEncoders/FlipNWrite/FlipNWrite.cpp:78-116 | inverts the range in place, byte by byte, and nothing else |
| FlipNWriteEncoder.FlipNWrite.CountChanges | DataEncoders/FlipNWrite/FlipNWrite.cpp:173-216 | counts per partition exactly the bits in which stored and new data differ |
| FlipNWriteEncoder.FlipNWrite.Write | DataEncoders/FlipNWrite/FlipNWrite.cpp:127-268 | the flipped partitions, both statistics and the data stored after a write |
| FlipSpec.InvertIsInvolutionIff | DataEncoders/FlipNWrite/FlipNWrite.cpp:78-116 | inverting a range twice restores all data if and only if the range is whole bytes |
| FlipSpec.InvertAligned | DataEncoders/FlipNWrite/FlipNWrite.cpp:78-116 | an aligned range is inverted byte by byte and every other byte is left alone |
| FlipSpec.MirrorBit | DataEncoders/FlipNWrite/FlipNWrite.cpp:103-110 | an inverted byte is the complement of the byte read backwards |
| FlipSpec.KeysAreInjective | DataEncoders/FlipNWrite/FlipNWrite.cpp:161-164 | no two partitions of the memory share a key |
| FlipRuns.ChargeBounds | DataEncoders/FlipNWrite/FlipNWrite.cpp:218-263 | a write never charges more than the bits that changed, nor more than half of its bits |
| FlipRuns.FlipsIffMoreThanHalf | DataEncoders/FlipNWrite/FlipNWrite.cpp:229-262 | a partition is stored inverted if and only if more than half of its bits differ from what was stored, and is charged the bits that differ or else those that do not |
| FlipRuns.StatisticsCountBits | DataEncoders/FlipNWrite/FlipNWrite.cpp:188-262 | a write adds the differing bits of its word to one statistic, and the charges of its partitions to the other |
| FlipRuns.ChargeIsRightIff | DataEncoders/FlipNWrite/FlipNWrite.cpp:218-263 | an uninverted partition is charged exactly the bits that change; an inverted one if and only if the stored data differs from the new data in as many bits as from the mirrored new data |
| FlipRuns.PalindromesAreChargedRight | DataEncoders/FlipNWrite/FlipNWrite.cpp:103-263 | the charge is exact whenever every byte of the partition reads the same in both directions |
| FlipRuns.InvertedChargeMayBeWrong | DataEncoders/FlipNWrite/FlipNWrite.cpp:103-110 | a word for which the bits charged are not the bits that change, because bits are mirrored |
| FlipRuns.ComparesWithStored | DataEncoders/FlipNWrite/FlipNWrite.cpp:161-171 | the old data, brought into stored form, is what is really stored |
| FlipRuns.WriteKeepsDecodes | DataEncoders/FlipNWrite/FlipNWrite.cpp:127-268 | a write keeps every stored word decodable, its own and all others |
| FlipRuns.LastWriteIsRead | DataEncoders/FlipNWrite/FlipNWrite.cpp:127-268 | after any run of writes, decoding the stored word at an address gives the data last written there |
| FlipRuns.RunIsCheap | DataEncoders/FlipNWrite/FlipNWrite.cpp:218-268 | over any run the bits charged never exceed those a plain compare-and-write would change, nor half of the bits written |
| RowBuffers.CachedBank.constructor | Banks/CachedDDR3Bank/CachedDDR3Bank.cpp:77-100 | all buffers are distinct, unused and clean |
| RowBuffers.CachedBank.Activate | Banks/CachedDDR3Bank/CachedDDR3Bank.cpp:103-186 | the row gets a buffer: its own, a free one, or the last one, whose dirty words are written back; the read-only assertion holds |
| RowBuffers.CachedBank.MoveToFront | Banks/CachedDDR3Bank/CachedDDR3Bank.cpp:284-294 | the array stays a permutation of its buffers, the others in order |
| RowBuffers.CachedBank.Read | Banks/CachedDDR3Bank/CachedDDR3Bank.cpp:245-305 | a read is served exactly when some buffer holds the word; the buffer moves to the front |
| RowBuffers.CachedBank.Write | Banks/CachedDDR3Bank/CachedDDR3Bank.cpp:308-374 | a write is kept exactly when buffers are writable and some buffer holds the word; the word becomes dirty |
| RowBufferSpec.ActivateKeepsInv | Banks/CachedDDR3Bank/CachedDDR3Bank.cpp:103-186 | used buffers stay a prefix with different rows, ordered by latest hit |
| RowBufferSpec.ReadKeepsInv | Banks/CachedDDR3Bank/CachedDDR3Bank.cpp:245-305 | a read keeps the order by latest hit, the rows and the dirty accounting |
| RowBufferSpec.WriteKeepsInv | Banks/CachedDDR3Bank/CachedDDR3Bank.cpp:308-374 | a write keeps the order by latest hit, the rows and the dirty accounting |
| RowBufferSpec.WriteDirtiesOnly | Banks/CachedDDR3Bank/CachedDDR3Bank.cpp:308-374 | a write makes exactly its own word dirty, if the buffers are writable and one holds its row |
| RowBufferSpec.ReadDirtiesNone | Banks/CachedDDR3Bank/CachedDDR3Bank.cpp:245-305 | a read changes nothing about which words are dirty |
| RowBufferSpec.ActivateCleansEvicted | Banks/CachedDDR3Bank/CachedDDR3Bank.cpp:103-186 | an activate cleans exactly the words of the row it evicts, writes back as many as were dirty, and leaves its row held |
| RowBufferSpec.NewBufferIsUncounted | Banks/CachedDDR3Bank/CachedDDR3Bank.cpp:103-186 | a row that is not held gets a clean buffer without hits, a free one or the last; nothing else changes |
| RowBufferSpec.HeldRowIsKept | Banks/CachedDDR3Bank/CachedDDR3Bank.cpp:103-141 | activating a row that is held changes nothing |
| RowBufferSpec.ReadIsCounted | Banks/CachedDDR3Bank/CachedDDR3Bank.cpp:245-305 | a read that is served brings its buffer to the front, the others in order, and is counted by the buffer and in all |
| RowBufferSpec.WriteIsCounted | Banks/CachedDDR3Bank/CachedDDR3Bank.cpp:308-374 | a write that is kept brings its buffer to the front and is counted likewise; with read-only buffers it changes nothing |
| RowBufferSpec.EvictsLeastRecentlyHit | Banks/CachedDDR3Bank/CachedDDR3Bank.cpp:143-186 | only when all buffers are used and none holds the row is one evicted, and it is the least recently hit |
| RowBufferSpec.ReadOnlyNeverWritesBack | Banks/CachedDDR3Bank/CachedDDR3Bank.cpp:186 | with read-only buffers no dirty word is evicted |
| RowBufferSpec.ActivatedRowIsHeld | Banks/CachedDDR3Bank/CachedDDR3Bank.cpp:103-186 | after an activate every word of the row is served from a used buffer |
| RowBufferSpec.AtMostOneHolds | Banks/CachedDDR3Bank/CachedDDR3Bank.cpp:250-254 | only one buffer can serve a word, and it is in use |
| RowBufferSpec.DirtyWordsAreAccountedFor | Banks/CachedDDR3Bank/CachedDDR3Bank.cpp:103-374 | over any run, the words marked dirty are exactly those written back and those still dirty; none with read-only buffers |
| AddressTranslation.MLog2 | include/NVMHelpers.cpp:38-53 | the position of the highest bit, 0 for numbers below 2 |
| TranslateSpec.Log2Bounds | include/NVMHelpers.cpp:38-53 | two to the result is at most the number, and two to its successor exceeds it |
| AddressTranslation.TranslationMethod.SetAddressMappingScheme | src/TranslationMethod.cpp:135-181 | the orders that a scheme leads to, named fields first, the others below them |
| AddressTranslation.AddressTranslator.FindOrder | src/AddressTranslator.cpp:391-417 | the field of an order, or none |
| AddressTranslation.AddressTranslator.Translate | src/AddressTranslator.cpp:189-231 | every field of the address, by remainder and division in order |
| AddressTranslation.AddressTranslator.ReverseTranslate | src/AddressTranslator.cpp:76-153 | the address that the fields make up, above the burst bits |
| AddressSpec.SchemeIsPermutationIff | src/TranslationMethod.cpp:69-181 | a scheme gives every field an order of its own if and only if its first six tokens are known and different and no later one names a field |
| AddressSpec.TokensGiveOrders | src/TranslationMethod.cpp:145-170 | in such a scheme, R, C, BK, RK, CH or SA as token i gives order 5 - i to its field |
| AddressSpec.UnnamedFollowInTurn | src/TranslationMethod.cpp:172-178 | fields that a scheme does not name are placed in the sequence SA, CH, RK, BK, R, C from high to low |
| TranslateSpec.FieldIsTakenFrom | src/AddressTranslator.cpp:189-231 | translation takes each field from above the burst bits and all fields of lower order |
| TranslateSpec.FieldsArePutAt | src/AddressTranslator.cpp:76-177 | reverse translation puts each field above the burst bits and all fields of lower order, and nothing else |
| TranslateSpec.FieldAtIsInverse | src/AddressTranslator.cpp:391-417 | under such a scheme every order belongs to exactly one field |
| TranslateSpec.TranslateAfterReverse | src/AddressTranslator.cpp:76-231 | translating an address put together from fields in range gives the fields back |
| TranslateSpec.ReverseAfterTranslateIff | src/AddressTranslator.cpp:76-231 | putting a translated address together gives it with its burst bits cleared if and only if the address fits the fields |
| TranslateSpec.CapacityIsPower | src/AddressTranslator.cpp:329-389 | the fields together hold two to the sum of their widths |
| LoCache.NVMain.RetryPending | NVM/nvmain.cpp:511-517 | a completion sends the oldest pending request if it is accepted, and never drops one |
| LoCache.NVMain.EnqueuePendingMemoryRequests | NVM/nvmain.cpp:540-543 | a pending request goes to the back of the queue |
| LoCache.LOCache.IssueCommand | MemControl/LO-Cache/LO-Cache.cpp:235-271 | a request of the host enters the cache |
| LoCache.LOCache.RequestComplete | MemControl/LO-Cache/LO-Cache.cpp:273-474 | the whole new state after a completion, for fills, memory reads, write-backs, writes, hits and misses |
| LoCache.LOCache.MemoryComplete | NVM/nvmain.cpp:470-520 | a completion of main memory reaches the cache and then retries; the assertion on outstanding fills holds |
| LoCacheSpec.StepKeepsInv | MemControl/LO-Cache/LO-Cache.cpp:273-474 | every step keeps each request in exactly one place and the fills equal to the memory reads |
| LoCacheRuns.AnsweredAtMostOnce | MemControl/LO-Cache/LO-Cache.cpp:273-474 | over any interleaving each request is answered at most once, never before it was made, and until then it is in the cache or waits for one memory read |
| LoCacheRuns.FillsAreMemoryReads | MemControl/LO-Cache/LO-Cache.cpp:337-452 | the outstanding fills are keyed by exactly the memory reads in flight or pending |
| LoCacheRuns.PendingIsNeverDropped | NVM/nvmain.cpp:511-517 | pending requests leave in order, only to be sent, and none is lost |
| LoCacheRuns.EveryLineComesThrough | MemControl/LO-Cache/LO-Cache.cpp:273-474 | over any interleaving and for every line: each miss is or was fetched, each fetch is or was filled, and each dirty victim of a fill or a write is or was written back |
| LoCacheRuns.CompletionMakesProgress | MemControl/LO-Cache/LO-Cache.cpp:273-474 | every completion brings the work ahead down |
| LoCacheRuns.EveryRequestIsAnswered | MemControl/LO-Cache/LO-Cache.cpp:273-474 | once the host stops, the completions are bounded, and when none is possible every request has been answered and nothing is pending |
| LoCacheRuns.RefusalWhileIdleStrands | NVM/nvmain.cpp:511-517 | if main memory refused a read while idle, the read would never be answered |
| BitCount.Count32MLC1 | src/SubArray.cpp:1536-1548 | the number of one bits of every word |
| BitCount.Count32MLC2 | src/SubArray.cpp:1497-1520 | the number of aligned bit pairs equal to the value, for every word |
| BitCount.CountBitsMLC1 | src/SubArray.cpp:1551-1563 | the number of ones, or of zeros, in the words |
| BitCount.CountBitsMLC2 | src/SubArray.cpp:1523-1533 | the number of pairs equal to the value in the words |
| BitCount.TrickCountsOnes | src/SubArray.cpp:1536-1548 | the bit manipulation agrees with plain counting |
| BitCount.CountsPartition | src/SubArray.cpp:1002-1005 | over any data the four pair counts add up to 16 for each word |
| BitCount.CellCountAssertionIff | src/SubArray.cpp:1002-1008 | the assertion on the four counts holds if and only if the word size is a multiple of 32, or one more |
| Lru.LruMem.InsertNode | Utils/CoinMigrator/LruMem.cpp:25-52 | the address moves or goes to the front; a full list gives up its last one; index and length agree with the list |
| Lru.LruMem.TakeOut | Utils/CoinMigrator/LruMem.cpp:54-63 | takes out the last address |
| Lru.LruMem.IsInLru | Utils/CoinMigrator/LruMem.cpp:19-22 | the index answers for the list |
| LruSpec.ContentsAreRecent | Utils/CoinMigrator/LruMem.cpp:25-52 | after any insertions, a list of capacity k holds exactly the k most recently inserted addresses, latest first |
| LruSpec.SmallerIsPrefix | Utils/CoinMigrator/LruMem.cpp:25-52 | after the same insertions the list of capacity k is a prefix of that of capacity k + 1 |
| LruSpec.EvictedIsLeastRecent | Utils/CoinMigrator/LruMem.cpp:38-45 | what a full list gives up was inserted least recently of all it holds |

## Left out

- Requests are values with an identity; pointer aliasing and deallocation are not modelled. A write that is interrupted and issued again is outside the invariant, which is why pausing is off or every write forced.
- `MemoryControllers.MemoryController` keeps its per-bank tables (active subarrays, rows, mux levels, starvation counters, refresh flags) as one record per command queue, not as arrays; `RowBuffers.RowBuffer` keeps its dirty marks as a sequence, not as an array.
- SubArrays.SubArray.CheckWritePausing: what the interrupted write becomes (its progress, the threshold, the count of cancellations, forcing after `MaxCancellations`) is an input of the step.
- Memories.Memory.IsIssuable: the rank's own timers (tRRDR, tRAW, rank switching) are left out; ranks pass commands on.
- Memories.Memory.IssueCommand: likewise the rank's state and timers.
- MemoryControllers.MemoryController.Enqueue: the address is not translated again for the channel; requests carry their translated address.
- MemoryControllers.MemoryController.HandleRefresh: when several groups are due at once, the groups that nested wake-ups refresh after the first one are not named; from the initial state on no more than one is ever due (`MemoryControllers.MemoryController.RefreshCallback`).
- Frfcfs.FRFCFS.Cycle: requires write pausing to be off, as unforced writes that are interrupted are outside the invariant.
- Channel.NoHeadIsSentTwice: that cleanup runs before everything else in its cycle is a guard of the channel's steps; `EventRuns.UrgentRunFirst` derives it from the event queue.
- LateTimings.NeverLateIff: the open-page policy, a threshold of one delayed refresh, no write pausing, and a first rank with two banks outside of its first refresh group; whether other configurations can be late is not shown, in particular those with a single group.
- LateTimings.SomeRunIsLate: the same configurations.
- PowerDowns.PowerDownIsSafe: says when a power-down is not accepted; that it is accepted otherwise is left to the timers of single commands (`PowerDowns.SubDownTimerIs`, `PowerDowns.BankDownTimerIs`), as a PRECHARGE_ALL that finds no open row leaves no entry in the log but delays a power-down.
- FrfcfsSpec.PickIsOldestOfBestClass: the class of requests found in a cache and that of reads stalled by writes are left out, as below.
- RowBuffers.CachedBank.Activate: the timers of the cached bank and the command to its subarray are left out.
- RowBuffers.CachedBank.Read: its timers and events, and the fall-through to the plain bank, are left out.
- RowBuffers.CachedBank.Write: likewise.
- LoCache.LOCache.IssueCommand: `PerfectFills` is left out.
- LoCache.LOCache.RequestComplete: hit, miss and dirty victim of the functional cache are inputs.
- Queues per rank or per subarray, schedule scheme 0 and `UsePrecharge` off. With queues per subarray the wake-up looks only at the first one.
- Write-back of rows, rank-level distances (tRRD, tRAW, rank switching) and the interconnect: ranks and bus pass commands through, except that a refresh reaches the whole group.
- Low power: the controller's handling is commented out in the source; the bank's power-down and power-up commands are modelled.
- The cached-address selector, which finds nothing on plain banks (`Channel.CachedIsNeverIssuable`), and the selector for reads stalled by writes, which is off without write pausing.
- Energy, power, latency averages and other statistics; the deadlock timer; hooks, checkpoints, configuration, traces.
- Clock ratios and floors are exact; rounding of doubles and wrap-around of 64-bit cycles are excluded by preconditions.
- Events inserted from one clock domain into another, and insertion or removal at the cycle that is being processed.
- The bus events of the cached bank, a row buffer size other than the row size, and reads of buffers that were never bound (their column range is uninitialised in the source; here it is empty).
- The LRU list re-reads the address from the node it has just erased; here it is the address that was inserted. A capacity of zero is excluded.
- LO-Cache: the contents of the functional cache, atomic accesses and refreshes.
- Prefetching and its buffer in nvmain.cpp; LH-Cache, MissMap and PredictorDRC; DRCDecoder; ByteModel; the migrator's tables.
- Address mapping: a scheme longer than the source's 16-byte buffer, and the splitting of the scheme string at its colons (tokens are given).
