# Sage coding workbench: verified models of runs, streams, budgets and settings

This project models the parts of the Sage coding workbench that decide who owns a run, what is stored and
streamed for it, and what bounds apply, and proves what they guarantee. `dafny verify dfyconfig.toml` verifies
all of it.

| files | component | form |
|---|---|---|
| `Journal` | the durable session journal: log, lease row, fencing tokens | functions, one per transaction |
| `Coordinator`, `CoordinatorProofs`, `LostLeases`, `CancelledStarts` | one coordinator process: start, consume, cancel, suspend, late writes, other processes | a state machine over the code between two awaits |
| `CoordinatorObject` | the coordinator's own fields and methods | class: the blocks of `cancel` and `suspend_for_restart` are single steps of that machine, an uninterrupted start, consumer and cleanup are schedules of it |
| `Subscriptions`, `SubscriptionLoop` | replay plus live delivery through drop-oldest queues | a state machine; the queues and the repair loop as classes |
| `ProtocolFilter` | the incremental tag stripper | class against a declarative scanner |
| `ToolCalls`, `EventAdapter` | tool-call and budget announcements | functions; the adapter as a class |
| `RuntimeLease` | the operation lock shared by turns, compaction and model switches | a state machine over any number of tasks |
| `RunTurn`, `RunTurnProofs` | one turn: an async generator closed at any yield | class against functions on traces |
| `Engine`, `EngineProofs`, `EngineTurns` | the engine's loop of model, parse, tool and final; a turn driven by it | functions over what happens in each round; the loops as methods |
| `Projection` | canonical transcript, checkpoint and active projection | class against functions on sequences |
| `WebEvidence`, `EvidenceItems`, `EvidenceBundle`, `PyText` | token estimates, excerpt fitting, dedup, budget fit, bundles | methods with loops against functions |
| `ProviderSettings`, `ProviderSettingsLoops`, `ProviderSettingsProofs` | strict parser, printer, lookups, request arguments | functions; the parsing loops as methods |
| `Watchdog`, `WatchdogProofs`, `WatchdogAccounts` | the gateway watchdog with its status file | class against a list of effects; crashes are prefixes of that list |

Every theorem about a protocol quantifies over all schedules of its steps: a schedule is any sequence of steps in
which each one is enabled, so calls, tasks, queue overflows, late writes, cancellations and foreign processes
interleave without restriction. The outside world (clocks, networks, model output, digests, URL rules) is a
parameter. `Options` holds the one datatype they share.

## Where the code does not do what one would expect

Each item names a lemma at a concrete input and, in parentheses after it, the exact condition over all inputs.

- **A suspended run can lose its lease.** Suspending a run before its consumer's first step, or while the consumer
  waits its turn to store its error terminal so that this write never starts, returns normally and leaves the lease
  held, with nothing left that would give it up: `SuspendBeforeFirstStepKeepsTheLease`,
  `SuspendDuringErrorWriteKeepsTheLease` (`LeaseIsLostExactlyWhen`). No run of the session can begin or be resumed as
  long as no recovery finds the owner process gone (`LostLeaseIsForever`). A write that had reached the journal's
  thread still closes the run: `ErrorWriteMayStillClose`.
- **A surface context that cannot be copied locks the session.** It is copied after the lock is taken and before any
  `try`, so the lock stays held for good: `UncopyableContextLocksTheSession` (`TurnClosesOnceIff`, `Turn`,
  `LostLockIsForever`).
- **The same-name fallback announces another call.** A call or result whose id is not pending announces the oldest pending
  call of the same tool, if there is one: `FallbackAnnouncesTheOtherCall` (`AnnouncedExactlyWhen`,
  `ResultAnnouncesExactlyWhen`).
- **A blank before trailing slashes breaks the settings round trip.** The base URL is stripped before its slashes
  are trimmed, not after: `PaddedBaseUrlChanges` (`BaseUrlReparsesIff`, `RoundTripIff`).
- **A repeated message id desynchronises the transcript.** An append whose message is already stored returns the
  old number but still appends to both histories: `RepeatedMessageShrinksTheRange` (`RunKeepsStepIff`). No caller in
  the repository passes a repeated id: `run_turn` makes a fresh one and the others pass none, and then the two stay in
  step (`NewIdsAreNotRepeated`).
- **A clock that steps back restarts the gateway early.** The cooldown test ignores a negative elapsed
  time: `ClockSteppingBackRestartsTwice` (`EarlyRestartExactlyWhen`).
- **An evidence read without usable children reports `omitted` 0** although every requested reference is missing;
  all other reads count the missing ones: `MissingIsNotOmitted` (`ReadBundle`).
- **A journal append without credentials can follow a terminal event**: it is refused only while the run is
  leased: `UnfencedAppendAfterTerminal` (`UnfencedAppendKeepsFinalityIff`).

Two more inputs concern engines other than the repository's. `run_turn` itself relies on its engine to end with a
deciding event (final, error, cancelled or step_limit), and on closing the engine's stream not to be cancelled. An
engine that only streamed text would leave the status "running" and a `cancelled` event after `turn_finished`
(`SilentTurnStaysRunning`, `StuckRunningIff`, `EndsUndecidedIff`). One whose closing awaits, cancelled there, would
leave the lock held and the turn unclosed (`CancelledCloseLocksTheSession`, `CancelledCloseLeavesTheTurnOpen`). The
repository's own `Engine` rules both out: it ends every turn with a deciding event unless it raises (`EngineTurn`),
and it awaits nothing when it is closed at a yield, so its turns are always closed whole (`EngineTurnIsClosed`).

## Model

| member | source | states |
|---|---|---|
| `Journal.BeginRunKeeps` | core/coding/persistence/session_event_journal.py:361-418 | beginning a run leaves a valid journal in which the caller holds the lease under a token never used before, and the run has no terminal event |
| `Journal.ResumeRunKeeps` | core/coding/persistence/session_event_journal.py:420-486 | resuming takes the lease under a new token and writes nothing |
| `Journal.AppendKeeps` | core/coding/persistence/session_event_journal.py:201-236 | a fenced append keeps terminal events last and the lease as it was |
| `Journal.TerminateKeeps` | core/coding/persistence/session_event_journal.py:276-316 | an accepted fenced terminal writes exactly one event and releases the lease in the same transaction |
| `Journal.RecoverLeaseKeeps` | core/coding/persistence/session_event_journal.py:516-581 | recovery leaves a lease whose owner process is alive alone; one whose owner is gone is freed and its run closed, unless an approval is pending; the journal stays valid and only grows |
| `Journal.UnfencedAppendKeepsFinalityIff` | core/coding/persistence/session_event_journal.py:1184-1213 | an append without credentials keeps terminal events last exactly when its run has none |
| `Journal.UnfencedAppendAfterTerminal` | core/coding/persistence/session_event_journal.py:1184-1213 | a finished run and an append without credentials that is stored after its terminal event |
| `CoordinatorProofs.StepKeepsInv` | core/coding/run_coordinator.py:81-279 | every step of starters, consumers, cancel and suspend calls, late writes and foreign processes keeps the coordinator invariant |
| `CoordinatorProofs.TerminalEventsAreFinal` | core/coding/run_coordinator.py:358-484 | in every schedule a run has at most one terminal event and none of its events follows it |
| `CoordinatorProofs.LeaseIsAccountedFor` | core/coding/run_coordinator.py:81-220 | at most one consumer is unfinished, it is the active run, and a lease held by this process belongs to the call that is starting the run or to its task |
| `CoordinatorProofs.FinishedRunIsClosed` | core/coding/run_coordinator.py:358-425 | a consumer that ended by stream end, streamed terminal, error or cancellation leaves exactly one terminal event and no lease; a suspended one leaves no terminal of its own and no lease |
| `CoordinatorProofs.CancelClosesTheRun` | core/coding/run_coordinator.py:222-261 | once a cancel call is over, however early it landed, the task is done, its lease is gone and its run has exactly one terminal event, unless it was suspended or recovered |
| `CoordinatorProofs.AuditEventsOnceInOrder` | core/coding/run_coordinator.py:427-445 | under any overlapping cancel calls the audit events stored for a task are a prefix, without repetition, of the first non-empty tuple offered for its run since the record was last dropped, when the task's cleanup took it; all of them precede the terminal event |
| `LostLeases.LeaseIsLostExactlyWhen` | core/coding/run_coordinator.py:358-425 | once nothing of a cancelled or suspended consumer is under way, its unrecovered lease is still held exactly when no cancel call was made on it and the cancellation found it before its first step, or waiting to store its error terminal with that write never carried out |
| `LostLeases.LostLeaseIsForever` | core/coding/persistence/session_event_journal.py:361-581 | in every later schedule in which no recovery finds the owner gone, such a lease is still held and nobody can begin or resume a run |
| `LostLeases.SuspendBeforeFirstStepKeepsTheLease` | core/coding/run_coordinator.py:263-279 | a schedule in which suspend returns normally with nothing under way and the lease is lost, so that no run can begin |
| `LostLeases.SuspendDuringErrorWriteKeepsTheLease` | core/coding/run_coordinator.py:405-414 | the same for a suspension that lands before the write of the error terminal starts |
| `LostLeases.ErrorWriteMayStillClose` | core/coding/run_coordinator.py:405-414 | the same schedule with the write carried out: the run is closed and the lease free |
| `CancelledStarts.CancelledStartGivesBack` | core/coding/run_coordinator.py:107-212 | a start that was cancelled and yet given the lease still waits, or gives its token back for good: a new run by its cancelled terminal under that token, a resumed one by a release that leaves it without a terminal; only recovery can take the lease before |
| `CoordinatorObject.RunCoordinator.Install` | core/coding/run_coordinator.py:139-147 | the end of a start path hands the token to a new task and sets the three active fields together: it is the installing step |
| `CoordinatorObject.RunCoordinator.BeginCancel` | core/coding/run_coordinator.py:229-245 | cancel finds exactly the active run; then it keeps the first non-empty audit tuple and requests the task's cancellation: it is the cancel step; otherwise nothing changes |
| `CoordinatorObject.RunCoordinator.BeginSuspend` | core/coding/run_coordinator.py:263-270 | the same for suspension, which marks the run instead of recording audit events |
| `CoordinatorObject.RunCoordinator.FinishCall` | core/coding/run_coordinator.py:256-261 | the last block of both calls forgets the task only if it still is the active one |
| `CoordinatorObject.RunCoordinator.LeaveConsumer` | core/coding/run_coordinator.py:416-425 | the consumer's finally block clears the active run only if it is its own, and drops its marks |
| `CoordinatorObject.RunCoordinator.StartRun` | core/coding/run_coordinator.py:81-220 | an uninterrupted start is the schedule begin, commit, install; it succeeds exactly when no run is active, no approval blocks a new run and the journal accepts, and else changes nothing |
| `CoordinatorObject.RunCoordinator.Consume` | core/coding/run_coordinator.py:358-425 | an uninterrupted consumer is a schedule that ends with the task done; under its lease it appends what `ConsumedIs` describes and frees the lease, without it it stores nothing |
| `CoordinatorObject.ConsumedIs` | core/coding/run_coordinator.py:365-414 | a consumer stores a beginning of its stream, all accepted, and then exactly one terminal event: the stream's own, completed if the stream is used up, or error |
| `CoordinatorObject.RunCoordinator.PersistCancelledRun` | core/coding/run_coordinator.py:427-445 | the cleanup is a schedule of its steps: it writes the audit events up to the first refused one and then the cancelled terminal, which frees the lease, and leaves with an error exactly when an event was refused; if the lease was lost it stores nothing and leaves with an error |
| `Subscriptions.SubscriberSeesTheJournal` | core/coding/run_coordinator.py:281-329 | in every schedule a subscriber has received exactly the journal slice after its start up to its cursor, its queue is within capacity, and the unrepairable-gap error is never raised |
| `Subscriptions.OwnStepShrinks` | core/coding/run_coordinator.py:291-326 | each page read or yield strictly shrinks the distance to the target of the replay or repair, which ends only at that target |
| `Subscriptions.OthersDoNotInterfere` | core/coding/run_coordinator.py:484-493 | no append, broadcast or step of another subscriber moves that distance, the cursor or the phase |
| `Subscriptions.Finishes` | core/coding/run_coordinator.py:291-326 | from any state there is a schedule of at most that many steps of the subscriber's own that ends its replay or repair |
| `Subscriptions.EveryScheduleFinishes` | core/coding/run_coordinator.py:291-326 | every schedule in which the subscriber takes that many steps of its own, whatever else happens in between, reaches the goal of its replay or repair |
| `Subscriptions.PollCatchesUp` | core/coding/run_coordinator.py:299-326 | whatever was dropped or never broadcast, one poll and its repair deliver everything up to the journal's end |
| `Subscriptions.EveryPollCatchesUp` | core/coding/run_coordinator.py:299-326 | after a poll, every schedule with two own steps per missing event and one more has delivered all the journal held at the poll |
| `SubscriptionLoop.EventQueue.PutDroppingOldest` | core/coding/run_coordinator.py:486-493 | a full queue loses its oldest event, the new one is last, and the capacity is never exceeded |
| `SubscriptionLoop.BroadcastHub.Broadcast` | core/coding/run_coordinator.py:486-493 | a stale event reaches no queue, a newer one reaches each queue exactly once |
| `SubscriptionLoop.Subscription.YieldPage` | core/coding/run_coordinator.py:324-326 | yielding a page keeps delivery equal to the journal slice while other writers append between yields |
| `SubscriptionLoop.Subscription.RepairTo` | core/coding/run_coordinator.py:316-326 | the repair loop ends exactly at its target with every event up to it delivered once, whatever is appended meanwhile |
| `ProtocolFilter.LegacyProtocolFilter.Feed` | core/harness/event_adapter.py:48-100 | the output so far, followed by a scan of the held text and any future text, is a scan of everything; the text held in text mode is at most 7 characters; a final feed scans all that is left |
| `ProtocolFilter.LegacyProtocolFilter.Finish` | core/harness/event_adapter.py:102-103 | finishing emits the scan of what is held and empties the buffer |
| `ProtocolFilter.SettledIsShort` | core/harness/event_adapter.py:38-100 | text held back is a proper beginning of a tag, at most 7 characters |
| `ProtocolFilter.ConsumeMeans` | core/harness/event_adapter.py:48-100 | one round of the loop emits and drops exactly what the scanner does, for every continuation of the text |
| `ProtocolFilter.FilterStream` | core/harness/event_adapter.py:48-103 | for every cutting of every text, feeding the pieces and finishing gives the scanner's output on the whole |
| `ProtocolFilter.FilterWhole` | core/harness/event_adapter.py:666-670 | one final feed of the whole text gives the same output |
| `ToolCalls.EachCallAnnouncedOnce` | core/harness/event_adapter.py:166-215 | over any stream announced calls have pairwise distinct non-empty ids, none seen before, and each budget stop is announced at most once |
| `ToolCalls.AnnouncedExactlyWhen` | core/harness/event_adapter.py:607-636 | exactly when a call's own id ends up announced; exactly when another call is announced for it, which is then the oldest pending one of its tool; and exactly when nothing is announced |
| `ToolCalls.FallbackAnnouncesTheOtherCall` | core/harness/event_adapter.py:577-636 | a call "b" of tool "x" that announces the pending "a" of that tool instead of itself |
| `ToolCalls.ResultFollowsItsCall` | core/harness/event_adapter.py:200-226 | a result whose call is pending is preceded by the announcement of that call, which is then pending no more |
| `ToolCalls.ResultAnnouncesExactlyWhen` | core/harness/event_adapter.py:200-226 | exactly when a result is swallowed, preceded by its own call, preceded by the oldest pending call of its tool, and published alone |
| `EventAdapter.HarnessEventAdapter.TakePendingToolCall` | core/harness/event_adapter.py:577-605 | the pending call with that id, else the oldest of that tool, is removed and announced unless already seen |
| `EventAdapter.HarnessEventAdapter.ToolCallEvent` | core/harness/event_adapter.py:607-636 | a direct call announces a matching pending call, else itself if it is new and complete |
| `EventAdapter.HarnessEventAdapter.BudgetEvents` | core/harness/event_adapter.py:537-575 | a known stop not seen before is announced, remembered, and clears the pending calls |
| `EventAdapter.HarnessEventAdapter.AdaptItem` | core/harness/event_adapter.py:133-141 | one item changes the books and emits exactly as specified, and assistant text goes through the filter |
| `EventAdapter.AdaptStream` | core/harness/event_adapter.py:133-155 | a whole stream announces each call and stop at most once, and the published text is the filtered model text however it was cut and whatever came in between |
| `RuntimeLease.RunKeepsInv` | core/coding/runtime.py:716-738 | every schedule of turns, compactions and switches keeps the lease invariant |
| `RuntimeLease.MutualExclusion` | core/coding/runtime.py:1131-1154 | at most one turn, external turn or compaction is inside, and it holds the lock |
| `RuntimeLease.ActiveRunHoldsTheLock` | core/coding/runtime.py:716-738 | a run is active only while the lock is held by the turn of that very run |
| `RuntimeLease.ClientIsFixedWhileInside` | core/coding/runtime.py:378-410 | whoever is inside sees the client it found on entry, and no enabled step changes it |
| `RuntimeLease.SecondLookNeverFires` | core/coding/runtime.py:941-948 | whoever acquires the lock gets in: the re-check of the active run never refuses |
| `RuntimeLease.RefusedExactlyWhenLocked` | core/coding/runtime.py:1016-1019 | a call is refused exactly when the lock is held |
| `RuntimeLease.LockIsGivenBack` | core/coding/runtime.py:730-739 | unless a turn dies holding it, the lock is held exactly while some task is inside |
| `RuntimeLease.LostLockIsForever` | core/coding/runtime.py:1384-1397 | a turn that dies holding the lock locks the session for every later schedule: every kind of call is refused and the client never changes |
| `RuntimeLease.UncopyableContextLocksTheSession` | core/coding/runtime.py:1148-1152 | from the initial state: a turn whose context cannot be copied, after which every schedule is refused |
| `RuntimeLease.CancelledCloseLocksTheSession` | core/coding/runtime.py:1384-1397 | the same for a turn cancelled while an engine stream whose closing awaits is being closed; the repository's own awaits nothing there |
| `RunTurn.Runtime.Turn` | core/coding/runtime.py:1104-1397 | a turn is refused exactly while a run or operation is active; otherwise it leaves the specified trace, and the lock free, no active run and no stop request exactly when its cleanup runs |
| `RunTurn.Runtime.Stream` | core/coding/runtime.py:1265-1383 | what the consumer receives is the turn's script cut where it was closed, and the trace holds exactly its durable events |
| `RunTurn.Runtime.EngineLoop` | core/coding/runtime.py:1275-1324 | each engine event is forwarded once, followed by a changed mode and a newly opened review |
| `RunTurn.Runtime.PersistTerminal` | core/coding/runtime.py:1043-1086 | what is missing of cancelled, run_finished and turn_finished is added once, in this order |
| `RunTurnProofs.TurnClosesOnceIff` | core/coding/runtime.py:1129-1397 | closed at any point, failed, cancelled or complete, a turn leaves exactly one run_finished and one turn_finished in this order exactly when its context could be copied and its engine stream closes (or nothing was cut) |
| `RunTurnProofs.TurnFinishedIsLastIff` | core/coding/runtime.py:1043-1086 | turn_finished is the last event unless the body ended undecided and ran to its end |
| `RunTurnProofs.StuckRunningIff` | core/coding/persistence/run_store.py:530-545 | the final status reads "running" exactly when an undecided turn recorded its own run_finished |
| `RunTurnProofs.CancelledMeansCancelled` | core/coding/persistence/run_store.py:530-545 | otherwise the status is "cancelled" exactly when the trace holds a cancelled event |
| `RunTurnProofs.SilentTurnStaysRunning` | core/coding/runtime.py:1365-1397 | a turn whose engine, unlike the repository's own, only streams text: its status stays "running" and a cancelled event follows turn_finished |
| `RunTurnProofs.CancelledCloseLeavesTheTurnOpen` | core/coding/runtime.py:1384-1397 | the same turn cancelled while the closing of its engine stream awaits, which the repository's own never does: no closing event is written |
| `RunTurnProofs.EndsUndecidedIff` | core/coding/runtime.py:1275-1365 | a turn ends undecided exactly when it streams, neither engine nor diff fails, and no engine event is a final, error, cancelled or step_limit |
| `RunTurnProofs.DecidedTurnIsClosed` | core/coding/runtime.py:1265-1397 | if the engine emits a deciding event or raises, there is one run_finished and one turn_finished, which is last, and the status is settled |
| `Engine.RunTurn` | core/coding/engine/engine.py:124-336 | the loop computes the specified turn, round by round, for every model, tool and user behaviour |
| `Engine.RunCalls` | core/coding/engine/engine.py:266-302 | the calls of one answer are run in order until one repeats, is stopped, or the step limit is reached |
| `EngineProofs.EngineTurn` | core/coding/engine/engine.py:124-336 | every turn ends with one deciding event for the reason it stands for, makes at most max_steps + 2 model requests, sends at most four answers back, and starts at most max_steps calls |
| `EngineProofs.TurnEndsDecided` | core/coding/engine/engine.py:155-336 | the last event is final, cancelled or step_limit and the only deciding one, except for the error just before a cancellation by a blocked context |
| `EngineProofs.NoCallLoops` | core/coding/engine/engine.py:266-289 | no tool call is started four times in a row |
| `EngineProofs.CallsRunInOrder` | core/coding/engine/engine.py:266-302 | the calls started are those the model asks for, in order: all of every accepted answer before the last, and the last one's up to where it was cut |
| `EngineProofs.EndIsExplained` | core/coding/engine/engine.py:155-336 | why a turn ends: cancelled only on a stop or a blocked context, step_limit only at a limit, final only on an answer, a third malformed or invalid one, or a repetition; no earlier round gave a reason |
| `EngineTurns.EngineTurnIsClosed` | core/coding/runtime.py:1226-1397 | a turn driven by the engine, closed, failed or complete, has one run_finished and one turn_finished, which is last, and a settled status |
| `EngineTurns.EngineDecidesTheStatus` | core/coding/persistence/run_store.py:530-545 | if neither engine nor diff failed and the turn recorded its own run_finished, its status is that of the engine's last event |
| `Projection.Session.CheckpointMatches` | core/coding/runtime.py:642-682 | accepts exactly a checkpoint inside a contiguous transcript whose evidence and prefix digests agree |
| `Projection.Session.Restore` | core/coding/runtime.py:605-640 | restores the matching checkpoint's summary and tail, else the whole transcript; the projection's numbered items are the canonical ones above the start |
| `Projection.Session.AppendCanonical` | core/coding/runtime.py:684-701 | a new message gets the next number in store, history and projection; a stored one its old number; a conflicting one changes nothing |
| `Projection.Session.ActiveRange` | core/coding/runtime.py:1025-1033 | the first and last number of the projection |
| `Projection.AppendKeepsStepIff` | core/coding/runtime.py:684-701 | one append keeps projection and transcript in step exactly when it inserts into both or is refused |
| `Projection.RunKeepsStepIff` | core/coding/runtime.py:605-701 | after any run of appends the projection is the transcript above the checkpoint exactly when no message was already stored |
| `Projection.RangeIsTheTail` | core/coding/runtime.py:1025-1033 | in step, the active range is (k+1, n), or none when nothing follows the checkpoint |
| `Projection.NewIdsAreNotRepeated` | core/coding/persistence/transcript_store.py:248-288 | messages with new, pairwise different ids are all inserted, in order |
| `Projection.RepeatedMessageShrinksTheRange` | core/coding/persistence/transcript_store.py:257-271 | a concrete repeated message that shrinks the range to (1, 1) |
| `WebEvidence.CostMonotone` | core/harness/web_evidence.py:8-16 | the estimate of a right-trimmed, marked prefix never falls as the prefix grows |
| `WebEvidence.FitExcerpt` | core/harness/web_evidence.py:19-40 | the binary search finds the same cut as looking at every prefix |
| `WebEvidence.FittedFitsAndIsLongest` | core/harness/web_evidence.py:19-40 | a non-empty result fits the budget with its overhead, and every prefix that fits trims to the same text or a shorter one |
| `EvidenceItems.SortIsStable` | core/harness/evidence_bundle.py:250-256 | the order is sorted by priority, source and reference, a permutation, and stable |
| `EvidenceItems.DeduplicateSources` | core/harness/evidence_bundle.py:250-267 | the seen-sets loop computes the greedy choice over the sorted items; kept plus duplicates is the input size |
| `EvidenceItems.DedupIsMaximalByPriority` | core/harness/evidence_bundle.py:250-267 | no two kept items share a reference or known source, and every given item shares one with a kept item that sorts no later |
| `EvidenceItems.FitItems` | core/harness/evidence_bundle.py:270-295 | the selection is the longest fitting prefix or at most the cut first item; usage is the sum of the selected counts and within budget; selected plus omitted is the input |
| `EvidenceItems.FitLengthIsLongestFit` | core/harness/evidence_bundle.py:270-295 | the chosen prefix fits and the next one does not |
| `EvidenceItems.LongestFitIsLongest` | core/harness/evidence_bundle.py:270-295 | no longer prefix fits, because every item costs at least one token |
| `EvidenceBundle.BoundedUniqueIs` | core/harness/evidence_bundle.py:303-308 | bounded references are trimmed, non-blank, distinct and given, in the order of their first occurrences; one that is lost comes after all that are kept, and only when the bound is reached |
| `EvidenceBundle.AuthorizedRefsAreDeclared` | core/harness/evidence_bundle.py:111-127 | a reference is authorized exactly when the last terminal receipt of a research child of this parent succeeded for it and lists it |
| `EvidenceBundle.TraceItemsAre` | core/harness/evidence_bundle.py:130-247 | a trace resolves exactly the authorized references that a non-error result with evidence of an evidence tool cites, and offers exactly their items |
| `EvidenceBundle.ChildrenItemsAre` | core/harness/evidence_bundle.py:66-95 | over all children, a requested reference is resolved exactly when some child authorizes and cites it, and the candidates are exactly the items they offer |
| `EvidenceBundle.CandidatesCounted` | core/harness/evidence_bundle.py:66-95 | every item is a candidate as often as there are places (child, event, citation) that offer it |
| `EvidenceBundle.CollectTrace` | core/harness/evidence_bundle.py:130-247 | a reference is resolved exactly when it is authorized and some evidence result cites it; the items are exactly the authorized citations and pages of those results |
| `EvidenceBundle.CollectChildren` | core/harness/evidence_bundle.py:66-95 | the loop over children skips missing runs and unauthorized ones without losing a candidate |
| `EvidenceBundle.ReadSync` | core/harness/evidence_bundle.py:66-108 | every item is requested and resolved; the missing references are exactly the requested ones that no child authorizes and cites; the candidates are exactly what the children offer, each as often as it is offered, and are selected plus duplicates plus budget-omitted; omitted counts budget and missing; usage is within budget |
| `EvidenceBundle.ReadBundle` | core/harness/evidence_bundle.py:34-64 | refused exactly for a foreign thread or inactive parent, and for a budget out of range; otherwise accounted for as above, with the bounded references and the budget it was given; `omitted` includes the missing ones exactly when there are children or nothing was requested |
| `EvidenceBundle.MissingIsNotOmitted` | core/harness/evidence_bundle.py:51-57 | a read of one reference without children: it is missing and `omitted` is 0 |
| `ProviderSettingsLoops.Modes` | core/coding/provider_settings.py:505-516 | the mode loop accepts exactly listed, distinct modes, in order |
| `ProviderSettingsLoops.Models` | core/coding/provider_settings.py:316-368 | the model loop and the id set it shares across providers compute the specified parse, first error first |
| `ProviderSettingsLoops.Providers` | core/coding/provider_settings.py:229-325 | the provider loop with both id sets computes the specified parse, and the shared set ends as all model ids |
| `ProviderSettingsProofs.RoundTripIff` | core/coding/provider_settings.py:201-253 | an accepted document comes back from its own print-out exactly when no base URL ends in a blank |
| `ProviderSettingsProofs.BaseUrlReparsesIff` | core/coding/provider_settings.py:533-548 | a parsed base URL parses to itself exactly when it does not end in a blank |
| `ProviderSettingsProofs.PaddedBaseUrlChanges` | core/coding/provider_settings.py:533-548 | a base URL with a blank before its slash, which a second parse changes |
| `ProviderSettingsProofs.AcceptedSettingsAreConsistent` | core/coding/provider_settings.py:229-253 | accepted settings have bounded, distinct providers and models, each model under the provider its id names, and a default among them |
| `ProviderSettingsProofs.LookupsAgreeWithTheCatalog` | core/coding/provider_settings.py:152-199 | every declared model is found under its id with its provider, and no other id is found |
| `ProviderSettingsProofs.RequestsSucceedExactlyForListedModes` | core/coding/provider_settings.py:79-89 | a request succeeds exactly for "off" and the listed modes, with the configured budget |
| `Watchdog.Process.RunOnce` | scripts/cc_connect_watchdog.py:344-419 | one activation leaves exactly the specified effects in order, the last written status on disk, and returns whether the last report was healthy |
| `Watchdog.Process.AwaitRecovery` | scripts/cc_connect_watchdog.py:396-419 | the bounded loop stops at the first probe that shows daemon and socket up |
| `Watchdog.Process.RestartGateway` | scripts/cc_connect_watchdog.py:385-394 | the restart record is on disk before the command |
| `Watchdog.Process.PersistHealthy` | scripts/cc_connect_watchdog.py:323-342 | the healthy status, with the recovery counted and its notice pending if there was one |
| `Watchdog.Process.FlushRecovery` | scripts/cc_connect_watchdog.py:313-321 | a pending notice is sent, and forgotten only once delivered |
| `Watchdog.Process.NotifyIncident` | scripts/cc_connect_watchdog.py:302-311 | an alert not already in force is sent, and recorded only once delivered |
| `WatchdogProofs.RunRestartsAfterRecording` | scripts/cc_connect_watchdog.py:385-394 | wherever an activation dies, a restart it issued was recorded first with its own start time, and nothing else touches the record |
| `WatchdogProofs.RestartsAreACooldownApart` | scripts/cc_connect_watchdog.py:371-392 | over any history with a clock that does not step back, crashes anywhere and any status file, recorded restart times are pairwise a cooldown apart |
| `WatchdogProofs.RestartRate` | scripts/cc_connect_watchdog.py:371-392 | n restarts need a span of at least (n - 1) cooldowns |
| `WatchdogProofs.EarlyRestartExactlyWhen` | scripts/cc_connect_watchdog.py:371-383 | a restart comes within the cooldown exactly when the clock reads less than the record |
| `WatchdogProofs.ClockSteppingBackRestartsTwice` | scripts/cc_connect_watchdog.py:371-383 | a concrete history with two restarts one second apart |
| `WatchdogAccounts.RestartCountIsAhead` | scripts/cc_connect_watchdog.py:385-391 | the recorded count is never below the issued restarts and exceeds them by at most one per crash |
| `WatchdogAccounts.NoticesNeverExceedRecoveries` | scripts/cc_connect_watchdog.py:313-342 | delivered notices plus the pending one never exceed recoveries, but for at most one repeat per crash |
| `WatchdogAccounts.CountersAreExact` | scripts/cc_connect_watchdog.py:344-369 | without crashes consecutive_failures counts the failed activations since the last healthy one, the mode is the last verdict, and recovery_count counts recoveries |
| `WatchdogAccounts.PendingMeansOwed` | scripts/cc_connect_watchdog.py:313-342 | without crashes a notice is pending exactly when some recovery has not been told since |
| `WatchdogAccounts.NoticeStatesTheFailures` | scripts/cc_connect_watchdog.py:323-342 | over any history without crashes, an activation that recovers sends a notice, which states how many activations failed since the last healthy one, itself included if its first look failed |
| `WatchdogAccounts.AlertsAreSeparatedByHealth` | scripts/cc_connect_watchdog.py:302-342 | without crashes there is a healthy check between any two delivered alerts |
| `WatchdogAccounts.HealthyWritesMarkSuccess` | scripts/cc_connect_watchdog.py:323-342 | a healthy status is written exactly by an activation that returns True |

## Left out

- HTTP and WebSocket routes, response projections, container sandboxes, MCP transport, model clients, SQL schemas and file security: plumbing and foreign processes.
- Storage failures: every journal, trace and status write either commits or is refused by its own guards; database errors and full disks are not modelled.
- Cancellation of a consumer task by anything other than `cancel` and `suspend_for_restart`.
- Unfenced journal appends to a run that already has a terminal event: foreign writers in the coordinator model append without credentials only to unterminated runs, as the one caller in the repository does.
- `CoordinatorObject`: interruptions, the release of a suspended run's lease, late writes and foreign processes are steps of the state machine only.
- Finding unresolved approvals in the journal: whether one is pending is an input of the start and of recovery.
- Coordinators that share an owner id: without an explicit `owner_id` all coordinators of one process use the same, while foreign steps of the coordinator model always have another one.
- Engine.RunTurn: parsing model text, validating and executing tools, prompts and history are inputs of a round, and an exception is a cut of the event stream in `EngineTurns.DrivenBy`; that closing the engine's generator at a yield awaits nothing is read off its source, not proved.
- The coordinator's event observer and the closing of the event stream: neither changes owned state.
- ProtocolFilter.LegacyProtocolFilter.Feed: lower-casing is taken character by character, so the one character whose lower case is longer (U+0130) and shifts the source's positions is not modelled.
- Public projections of tool payloads (redaction, truncation, proposals): tool arguments, results and budget usages are opaque values here.
- EvidenceBundle.CollectTrace: metadata fields that no rule reads (timestamps, revisions inside items) are left out, and the source digest is a parameter.
- ProviderSettings: texts of error messages, file loading, the legacy manifest and the settings store; the URL grammar is a parameter assumed to accept a URL without its trailing slashes.
- RunTurn.Runtime.Turn: the run id is taken to be new, the context and an engine other than `Engine` are taken not to emit the two closing events, and the transcript items a turn appends belong to `Projection`.
- Compaction itself (summaries, token counts, prefix splitting): `Projection` covers restoring a checkpoint and appending, not producing one.
- Projection.Session.Restore: the checkpoint's own signature check in the store is an input.
- Reading a damaged status file (the watchdog then starts from defaults), the file lock and the atomic rename: one watchdog process and atomic writes are taken for granted.
- RuntimeLease: `asyncio` grants a free lock without suspending, so the model's gap between testing and acquiring the lock allows more schedules than occur.
- `Coordinator` and `Subscriptions` treat one journal transaction as one step; threads inside SQLite are not modelled.
