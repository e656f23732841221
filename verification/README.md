# Verified model of recording, replay and qualification logic

This project models seven parts of a browser extension and its tooling that records user actions, turns them
into rules and replays them, and proves what they are for.

- **Replay session** (`ReplaySession`, `ReplayRuns`, `ReplayOutcomes`). The background worker holds a session in memory, a copy in
  storage, two watchdog alarms, the replay tab and the list of terminal broadcasts. Events arrive in any order;
  the worker can be evicted and recovered at any time. A success report and the cleanup after it are two events.
- **Recorder buffer** (`SnapshotDelta`, `SnapshotEdits`, `JsonPointer`, `JsonPatch`, `JsonStrip`, `SnapshotExpansion`,
  `SequenceNumbers`, `SnapshotStore`, `SnapshotForms`, `MergedSnapshots`, `EventLinking`, `EventTurns`, `ElementIndex`,
  `CheckpointMerge`). Captures reserve sequence numbers and complete in any order; equal pages are stored as references, similar ones as patches;
  events wait for their captures in a queue or overtake it; element indices expire; two diverged copies are merged.
- **Recording handoff** (`RecordingHandoff`). Checkpoints and handoffs are served from one queue while the tabs
  go on recording and sending.
- **Bounded redaction** (`Text`, `Redaction`, `BoundedRedactor`, `NestedRedaction`).
- **Readiness checker** (`Readiness`, `ReadinessAcceptance`) against the way the engine runs lists of steps.
- **Input generator** (`TaskInputs`, `InputAnswers`) against a JSON Schema validator.
- **Printers, shuffles and deadlines** (`CssIdentifier`, `StabilitySchedule`, `StabilityOrders`,
  `ProgressDeadline`).

Text is a sequence of UTF-16 code units in the redaction and CSS modules and of characters elsewhere. JSON numbers
are reals. Values compared by their serialised text are compared as the values that the text spells, member order
included; two texts are equal exactly when these are. What the system reads from outside (the clock, which writes and
messages succeed, whether a patch text is less than half of the content text, the outputs of the random generator)
is a parameter.

Where the code differs from what its comments promise, the model follows the code, and the difference is stated
exactly:

- an alarm that acts while a session is in memory leads to a second terminal broadcast
  (`ReplayRuns.LiveAlarmTellsTwice`);
- an alarm that acts while a session is in memory leaves a session that progress persists again without alarms
  (`ReplayRuns.LiveAlarmDisarms`);
- a start between a success report and its cleanup misplaces the success (`ReplayRuns.SupersededSuccessIsMisplaced`);
- sorting by sequence when recording stops can move a reference before its target, and the recording then no longer
  expands (`SnapshotStore.SortedExpandsWhen`);
- removing final snapshots keeps baselines that may name them (`SnapshotStore.RemovalExpandsForeverWhen`);
- snapshots merged from another copy of the recording can name what is not there, or another snapshot of the same
  number (`MergedSnapshots.RestoresExactlyWhen`, `MergedSnapshots.CoincidingNumbersMislead`);
- in the two functions for deltas, a member named by the empty string makes a patch that is refused, and a member
  named like an inherited one is not removed (`SnapshotDelta.DeltaLaw`); content that the recorder captures has
  neither;
- tasks left over from a replaced recording record into the imported one and can claim another document's snapshot,
  and captures still running can take its numbers (`EventLinking.ImportStaysInOrderWhen`,
  `EventLinking.OtherDocumentsSnapshotIsClaimed`);
- a checkpoint overtaken by a handoff can shorten the store (`RecordingHandoff.CommitGrowsWhen`), and a lost reply to
  a discard can leave nobody recording, or both tabs (`RecordingHandoff.RollbackLeavesNoneOrBoth`);
- an eviction after a rollback whose writes were lost hands the recording to the target after all
  (`RecordingHandoff.EvictionAfterRollback`);
- the merge of two copies can give one index to two elements (`ElementIndex.MergeKeepsIndicesWhen`);
- the readiness checker accepts waits that can be skipped or may fail without stopping the list
  (`Readiness.SegmentIsSoundWhenWaitHolds`, `Readiness.ListIsGuardedWhen`);
- generated integers, padded texts and upper length bounds can miss their schema; `TaskInputs.Fits` is the exact
  condition.

Standards cited: RFC 6901 and RFC 6902 (JSON Pointer and Patch), sections 4.3.7 to 4.3.11 of CSS Syntax Module Level 3,
section 2.1 of CSSOM, section 6 of JSON Schema Validation 2020-12.

`dafny verify dfyconfig.toml` checks the whole project.

## Model

| member | source | states |
|---|---|---|
| `ReplayRuns.AtMostOneTerminal` | extension/src/background.ts:1245-1319 | Over every run of starts, progress, completions (in memory, from storage, duplicate, late), tab events, alarms, aborts, evictions and recoveries in which an alarm that acts finds no session in memory: no task is told twice that it is over, and a started task is exactly one of told, dropped, or still persisted |
| `ReplayRuns.LiveAlarmTellsTwice` | extension/src/background.ts:3053-3083 | From any state such a run reaches: an alarm that acts, followed by the removal of the tab it closed, broadcasts twice exactly when a session was in memory |
| `ReplayRuns.SuccessIsEarned` | extension/src/background.ts:1508-1540 | Over every run in which no start takes effect while the oldest success report still being handled is one whose tab was retained: only tasks whose own tab reported success are told to have succeeded |
| `ReplayRuns.SupersededSuccessIsMisplaced` | extension/src/background.ts:1523-1540 | In every run, the cleanup that comes after a start that takes effect tells the replay just started, which nobody reported, a success exactly when a completion was pending whose tab had been retained; it tells it failure when one was pending that was not retained, and nothing otherwise |
| `ReplayRuns.FirstSuccessIsFinal` | extension/src/background.ts:1555-1563 | After a handled success any number of further reports from that tab leave the state as it is, tab included |
| `ReplayRuns.StrangersEndNothing` | extension/src/background.ts:1518-1573 | Any number of reports from other tabs, or for other tasks, broadcast nothing and change nothing but tabs that sent one |
| `ReplayRuns.NavigationsAreBounded` | extension/src/background.ts:1377-1385 | Over all runs, all alarms included: hop counts stay within 0..50 in memory and in storage, and a task accepts at most 50 navigations plus ten for each progress message, across evictions |
| `ReplayRuns.TotalAlarmStaysArmed` | extension/src/background.ts:3137-3147 | Over every run in which an alarm that acts finds no session in memory, across evictions and recoveries: a persisted session keeps both alarms armed, the total one for no later than its start plus 30 min 30 s |
| `ReplayRuns.TotalAlarmIsInTime` | extension/src/background.ts:3137-3147 | Over all runs, alarms that find a session in memory included: a total alarm armed for a session, in memory or in storage, is due no later than its start plus 30 min 30 s |
| `ReplayRuns.LiveAlarmDisarms` | extension/src/background.ts:3053-3083 | Why that proviso: after an alarm that acts, a progress message persists the session again with neither alarm armed exactly when the session was in memory |
| `ReplayRuns.RecoveredSessionIsYoung` | extension/src/background.ts:3110-3139 | After any time and evictions, a recovery revives exactly a session then at most 30 min old whose tab is open and whose hosts are known; any other is dropped without a broadcast |
| `ReplayRuns.IdleAlarmCountsFromProgress` | extension/src/background.ts:3074-3082 | After a progress message, any time and any evictions, the idle alarm ends the replay exactly when more than 120 s have passed since the message |
| `ReplayRuns.RunAccounted` | extension/src/background.ts:2953-2958 | The invariant behind the first row, kept by every event of a run |
| `ReplayOutcomes.HostRule` | extension/src/background.ts:1162-1164 | The host check passes exactly when the labels of some domain are the last labels of the host |
| `ReplayOutcomes.LoadDecides` | extension/src/background.ts:1353-1419 | A finished load in the replay tab lets the replay go on, one hop further, exactly when its host is on a domain by labels, fewer than 50 hops are used, the payload is stored and the injection succeeds; otherwise the task is told one failure and its tab is closed. Other loads change nothing |
| `ReplayOutcomes.NavigationsStayOnDomains` | extension/src/background.ts:1353-1419 | In every run, whatever makes a task accept a navigation is a finished load of a host on one of the domains the task was started with |
| `ReplayOutcomes.OverWhen` | extension/src/background.ts:1245-1319 | For every state and event: a task is told that it is over, and how, exactly by the listed events with the listed conditions on session, tab, report, host and clock |
| `ReplayOutcomes.OverClosesTab` | extension/src/background.ts:1245-1319 | What is over is no longer persisted; its tab stays open after a success and is closed otherwise, and no other tab is touched |
| `ReplaySession.Background.CleanupReplaySession` | extension/src/background.ts:1245-1319 | A session rebuilt from storage leaves the one in memory in place; alarms, storage, tab and broadcast follow the session cleaned up |
| `ReplaySession.Background.CloseRetainedReplayTab` | extension/src/background.ts:1340-1347 | Releases the retained tab, reporting whether there was one |
| `ReplaySession.Background.HandleStartReplay` | extension/src/background.ts:2953-3024 | The whole new state of START_REPLAY, with its two failure exits |
| `ReplaySession.Background.HandleBootFailed` | extension/src/background.ts:3017-3022 | A failed boot ends the replay only if its tab still runs it |
| `ReplaySession.Background.HandleProgress` | extension/src/background.ts:1459-1486 | Progress from the replay tab pays back ten hops, never below zero, and is persisted |
| `ReplaySession.Background.HandleComplete` | extension/src/background.ts:1508-1588 | REPLAY_COMPLETE on its three paths: the session in memory, no sender tab, or elsewhere |
| `ReplaySession.Background.HandleCompleteElsewhere` | extension/src/background.ts:1545-1586 | Reports from other tabs, authorised against storage when nothing is in memory |
| `ReplaySession.Background.FinishOldestSuccess` | extension/src/background.ts:1523-1539 | The cleanup after a retained success acts on whatever session is in memory by then |
| `ReplaySession.Background.HandleTabUpdated` | extension/src/background.ts:1353-1419 | Host check, hop limit, persistence, missing payload and failed injection |
| `ReplaySession.Background.HandleTabRemoved` | extension/src/background.ts:1420-1423 | Closing the replay tab ends its session as a failure |
| `ReplaySession.Background.HandleAlarm` | extension/src/background.ts:3053-3083 | Both alarms act on the persisted session alone |
| `ReplaySession.Background.HandleAbort` | extension/src/background.ts:3027-3034 | Cancels the session in memory, otherwise releases a retained tab; reports whether either existed |
| `ReplaySession.Background.RecoverReplaySessionOnStartup` | extension/src/background.ts:3089-3156 | The whole new state of a recovery |
| `ReplaySession.Background.Rearm` | extension/src/background.ts:3137-3147 | The total alarm gets the remaining time, at least the minimal interval |
| `ReplaySession.Background.Revive` | extension/src/background.ts:3094-3147 | A recovery up to the point where a loaded tab is resumed |
| `ReplaySession.Background.LoseMemory` | extension/src/background.ts:3085-3087 | Eviction forgets the session in memory and the completions being handled, and nothing else |
| `ProgressDeadline.StrictReportKeepsOpen` | extension/src/background.ts:213-235 | A report that beats all before it keeps the wait open for a stall window, up to the ceiling, whatever is reported later |
| `ProgressDeadline.StaleReportIgnored` | extension/src/background.ts:227-233 | A report that is no progress changes neither the deadline nor the best count |
| `ProgressDeadline.Deadline.Observe` | extension/src/background.ts:227-233 | The closure's state is that of the whole history of reports |
| `ProgressDeadline.Deadline.Expired` | extension/src/background.ts:226-226 | Expired exactly from the deadline of the history on |
| `ProgressDeadline.PollBound` | extension/src/background.ts:685-698 | For every clock that advances 750 ms per round and every progress history, at most 2400 requests |
| `ProgressDeadline.BoundIsReached` | extension/src/background.ts:685-698 | A job that advances in every round of 750 ms gets exactly 2400 |
| `ProgressDeadline.OpenWhen` | extension/src/background.ts:213-235 | From the replies themselves: before any round the wait is open exactly within 30 minutes, and within 3 minutes while no reply has counted more chunks done than all before it, or within 10 minutes after one that has |
| `ProgressDeadline.LoopEndsAtFirst` | extension/src/background.ts:685-698 | The loop ends at the first closed check or the first reply that is not of a running job, and tells which |
| `ProgressDeadline.TimesOutOnlyWhenClosed` | extension/src/background.ts:685-698 | Times out exactly at a check that found the wait closed after nothing but running replies |
| `ProgressDeadline.PollRequirementJob` | extension/src/background.ts:685-698 | The poll loop computes that run, with that bound |
| `SnapshotStore.EveryPushIsRestored` | extension/src/content.ts:1128-1289 | For every interleaving of captures, every delta size and any number of resumes: expanding the stored list succeeds exactly when no patch path is refused, and gives back every pushed snapshot in order: position, url, domTree and capture exactly, selectorMap up to boundingRect; always without empty member names. Captured content has no member named like an inherited one |
| `SnapshotStore.LinksPointBack` | extension/src/content.ts:1196-1243 | A reference names an earlier snapshot that is no reference, a delta an earlier full one, so chains are at most reference, delta, full |
| `SnapshotStore.SortedExpandsWhen` | extension/src/content.ts:489-493 | After the sort by sequence at stop the list expands exactly when, no path being refused, every reference and delta names a smaller number than its own |
| `SnapshotStore.InOrderNamesSmaller` | extension/src/content.ts:489-493 | Captures that complete in the order they began meet that condition |
| `SnapshotStore.OvertakenCaptureBreaksTheSort` | extension/src/content.ts:489-493 | A run of two overlapping captures of one page that does not |
| `SnapshotStore.RemovedExpandsWhen` | extension/src/content.ts:437-447 | Right after final snapshots are removed the list expands exactly when no kept patch has a refused path and nothing kept names a removed snapshot |
| `SnapshotStore.RemovalExpandsForeverWhen` | extension/src/content.ts:437-447 | The list expands after the removal and after every later run of captures and resumes (refused paths aside) exactly when nothing kept and neither baseline names a removed snapshot; in every other case a run is given that ends in a list no receiver can expand |
| `SnapshotStore.FinalCaptureIsUnsafe` | extension/src/content.ts:437-447 | That condition fails after every final capture that is stored whole or as a delta |
| `SnapshotStore.StepKeepsInv` | extension/src/content.ts:1204-1243 | What every push, reservation and resume keeps |
| `SnapshotStore.PushKeepsInv` | extension/src/content.ts:1204-1243 | The invariant through one push, however the candidate is stored |
| `SnapshotStore.ResumeKeepsInv` | extension/src/content.ts:895-910 | The invariant through serialisation, the new sequence counter and the restored baselines |
| `SnapshotStore.EqualTextSameContent` | extension/src/content.ts:1245-1271 | Equal texts mean equal content to a receiver, up to boundingRect |
| `SnapshotForms.RepeatedIsReferred` | extension/src/content.ts:1204-1226 | After a capture, and any others that have no content or repeat it, a capture is stored as a reference exactly when address and content are the same, geometry in the selector map aside, and then to where the content of the first can be found |
| `SnapshotForms.ResumeComparesWithNewestWhole` | extension/src/content.ts:895-910 | After a resume the recorder compares with, and makes deltas to, the newest snapshot that is stored whole; without one, with nothing |
| `SnapshotForms.RepeatedAfterResume` | extension/src/content.ts:895-910 | So the first capture after a resume is stored as a reference exactly when it repeats that one, and then to it |
| `SnapshotStore.SnapshotBuffer.BeginCapture` | extension/src/content.ts:2132-2146 | A capture takes the next sequence number when it begins |
| `SnapshotStore.SnapshotBuffer.PushSnapshot` | extension/src/content.ts:1160-1243 | The wrapped push, with the whole new state |
| `SnapshotStore.SnapshotBuffer.RestoreDedupBaseline` | extension/src/content.ts:1276-1292 | The baselines come from the newest full snapshot, or are empty |
| `SnapshotStore.SnapshotBuffer.RestoreFrom` | extension/src/content.ts:895-910 | Resuming a persisted list |
| `SnapshotStore.SnapshotBuffer.RemoveFinalSnapshotsInPlace` | extension/src/content.ts:437-447 | The backward splice loop removes exactly the final snapshots |
| `SnapshotExpansion.ExpansionRestores` | src/rule-generator/converter/snapshot-refs.ts:19-71 | Of any list whose names resolve to what they were derived from: expansion succeeds exactly when names point back and paths are accepted, and then restores what was pushed |
| `SnapshotExpansion.DeltaExpands` | src/rule-generator/converter/snapshot-refs.ts:55-71 | Applying a stored delta of captured content to its base gives the content of the candidate exactly when its paths pass the guard: no member of such content has an inherited name, so none stays behind |
| `SnapshotExpansion.NamedIsIntact` | extension/src/recording/snapshot-delta.ts:99-118 | Content without empty member names never yields a refused path |
| `SnapshotExpansion.ExpandSnapshotReferences` | src/rule-generator/converter/snapshot-refs.ts:19-53 | The expansion loop, error cases included |
| `JsonStrip.WireOfStrip` | extension/src/content.ts:1254-1261 | What a comparison by text with a replacer compares is what travels, less the dropped members, at every depth |
| `JsonStrip.StripTwice` | extension/src/content.ts:1254-1271 | Serialising in between does not change what is compared |
| `SnapshotDelta.DeltaLaw` | extension/src/recording/snapshot-delta.ts:45-91 | For all well-formed base and candidate, the candidate without a member named `__proto__`: the applier accepts the printed diff on the serialised base exactly when every path passes its guard, and the result is the serialised candidate exactly when, besides, no compared object of the base owns an inherited name (`toString` and the like) that the candidate lacks |
| `SnapshotDelta.DiffRuns` | extension/src/recording/snapshot-delta.ts:45-91 | Before printing: running the edits gives the candidate with the members that stay behind at every depth, for arrays, objects, undefined members and items, names inherited on either side |
| `SnapshotDelta.LandsWhenNothingStays` | extension/src/recording/snapshot-delta.ts:74-91 | That result is the candidate exactly when nothing stays behind anywhere |
| `SnapshotEdits.DiffAddressesDifferences` | extension/src/recording/snapshot-delta.ts:45-88 | Every operation of a diff goes down through containers of one kind that differ and ends at a difference, replacing, removing or adding just that |
| `SnapshotDelta.DeltaIsBuiltWhenSmall` | extension/src/recording/snapshot-delta.ts:99-118 | A delta is emitted exactly for 1 to 2048 operations and a small enough text: no operation ever loses its value |
| `SnapshotDelta.DiffIsUsable` | extension/src/recording/snapshot-delta.ts:69-91 | No add or replace of a diff carries undefined |
| `SnapshotDelta.PatchIsAddressed` | extension/src/recording/snapshot-delta.ts:45-91 | Two objects without empty member names always patch |
| `SnapshotDelta.EmptyKeyDefeatsPatch` | src/rule-generator/converter/json-patch.ts:48-52 | A member named by the empty string makes a delta that the applier refuses |
| `SnapshotDelta.InheritedNameStays` | extension/src/recording/snapshot-delta.ts:76-82 | For every inherited name, two objects whose diff is emitted and accepted and does not give the candidate |
| `JsonPatch.ApplyPatch` | src/rule-generator/converter/json-patch.ts:40-90 | The applier's loop, failing at the first refused operation; replace and remove accept inherited names as the `in` operator does |
| `JsonPointer.ParseRender` | src/rule-generator/converter/json-patch.ts:17-22 | Reading a printed path gives its tokens back, whatever "~" and "/" they hold |
| `JsonPointer.IndexReadsBack` | src/rule-generator/converter/json-patch.ts:24-34 | A printed index addresses that index exactly when it is in range |
| `EventLinking.SnapshotsNameTheirEvents` | extension/src/content.ts:1456-1469 | In every interleaving of queued and overtaking events, captures, failures, timeouts and calm imports: an action index names a recorded event, the one recorded with that very capture; no two snapshots claim one event; every event recorded with a snapshot is claimed by it |
| `EventTurns.EveryTurnIsTaken` | extension/src/content.ts:1442-1454 | In every run, from the offers and the ends of the captures alone: recorded of the queue is, in order and once, exactly each task that had its turn and is a navigation, whatever became of its capture, or an action without a capture or with one that completed; each with its own snapshot if that arrived, in time for a navigation; the rest still waits in order; every overtaking event is recorded |
| `EventTurns.NumbersAdvance` | extension/src/content.ts:2132-2146 | Captures take consecutive numbers, and an import goes on right above the highest number it brings |
| `EventLinking.QueueIsFirstInFirstOut` | extension/src/content.ts:1442-1454 | Queued events are recorded in the order they were offered; the rest is still waiting in that order |
| `EventLinking.RecordedIdsAre` | extension/src/content.ts:1442-1454 | That order is strictly increasing and holds exactly the tasks whose fate was to be recorded |
| `EventLinking.AllSucceedAllClaimed` | extension/src/content.ts:1705-1721 | When no capture fails or times out, nothing is dropped and each event of the document is claimed |
| `EventTurns.AwaitingEmptiesTheQueue` | extension/src/content.ts:410-415 | Once every capture is decided, awaiting the queue empties it and records, in order, every waiting navigation and every waiting action that has no capture or whose capture completed |
| `EventLinking.InitialFailureSilencesTheQueue` | extension/src/content.ts:353-358 | In any run, whatever was offered before: once the capture of the initial snapshot has failed no queued event is ever recorded |
| `EventLinking.PoisonedQueueNeverMoves` | extension/src/content.ts:1442-1454 | A rejected queue records and drops nothing, whatever follows |
| `EventLinking.LeftoverTasksBreakLinks` | extension/src/content.ts:592-615 | Any queue of decided tasks left from a replaced recording records into the imported one: when all had their turn the links are true exactly when each capture one of them links was itself imported, unclaimed; another snapshot of the same number does not do |
| `EventLinking.ImportStaysInOrderWhen` | extension/src/content.ts:592-615 | After an import over waiting tasks and running captures, decided before or later: in every continuation numbers stay distinct and links true exactly when each running capture fits between the imported numbers and each leftover task that is to link a capture finds that very capture imported and unclaimed |
| `EventLinking.OtherDocumentsSnapshotIsClaimed` | extension/src/content.ts:1456-1469 | Every leftover task whose capture shares its number with an imported snapshot of another document claims that one |
| `EventLinking.RunningCapturesCollideWhen` | extension/src/content.ts:592-615 | After an import over running captures: in every continuation all snapshot numbers stay distinct exactly when the running captures have distinct numbers below the next one that the imported recording does not hold |
| `EventLinking.StepKeeps` | extension/src/content.ts:2064-2107 | What every step keeps, navigations that give up on their snapshot included |
| `EventLinking.EventRecorder.EnqueueEvent` | extension/src/content.ts:1714-1721 | The capture starts with the event, its turn comes later |
| `EventLinking.EventRecorder.CompleteCapture` | extension/src/content.ts:2209-2213 | A capture that completes is stored, unclaimed |
| `EventLinking.EventRecorder.LinkSnapshotToNextEvent` | extension/src/content.ts:1456-1469 | The first stored snapshot of that number gets the index of the next event |
| `EventLinking.EventRecorder.RunTask` | extension/src/content.ts:1442-1454 | A task at its turn: recorded with its snapshot, alone, dropped, or the queue rejected |
| `EventLinking.EventRecorder.RecordEventSync` | extension/src/content.ts:1705-1713 | Snapshot and event of a navigating action are recorded at once |
| `RecordingHandoff.StoreOnlyGrows` | extension/src/background.ts:1035-1090 | Over any chain of checkpoints, handoffs and evictions, failures and lost replies included, the stored event list only grows at its end at every step, as long as each commit and each eviction leaves an owner whose waiting checkpoints and recording extend the store |
| `RecordingHandoff.GrowsOnWhen` | extension/src/background.ts:1933-1955 | Between handoffs that condition is exact: otherwise serving what waits, and then the owner's own checkpoint, shrinks the store |
| `RecordingHandoff.HandoffMovesTheRecording` | extension/src/background.ts:1035-1090 | Over a whole handoff, whatever the tabs record and send meanwhile: when its commit succeeds the target owns, and the store is what the source had recorded when the handoff was served followed by exactly the navigation that the import reported, if any |
| `RecordingHandoff.ImportAnswers` | extension/src/content.ts:576-615 | After an accepted import the target records the export and the navigation reported; a refused or unheard one adds no event |
| `RecordingHandoff.CommitGrowsWhen` | extension/src/background.ts:1067-1090 | For every outcome of a commit and its rollback: the store grows on afterwards exactly when what waits from the owner then, and its recording, extend what was left in the store |
| `RecordingHandoff.RollbackGrowsWhen` | extension/src/background.ts:1084-1089 | After every commit without success: exactly when every waiting checkpoint of the source, and its recording unless it stopped, extends what was left, restored or not |
| `RecordingHandoff.RestoredShrinksWhen` | extension/src/background.ts:1084-1089 | After every rollback that restores the export the store shrinks later exactly when some waiting checkpoint of the source is shorter than the export |
| `RecordingHandoff.OvertakenCheckpointShrinks` | extension/src/background.ts:1084-1089 | A run in which that happens |
| `RecordingHandoff.OnlyTheOwnerStores` | extension/src/background.ts:1933-1955 | A checkpoint of any other tab changes nothing; the owner's extends the store |
| `RecordingHandoff.OneOwnerOneRecorder` | extension/src/background.ts:1035-1090 | Over every run, evictions included: exactly the owner records, and during a handoff the target besides, at each step, exactly when no applied import goes unheard, each commit succeeds or leaves the source unstopped and the target discarded, and each eviction finds the saved session to be that of the tab recording |
| `RecordingHandoff.CommitLeavesOneWhen` | extension/src/background.ts:1067-1090 | For every outcome: one owner records alone after a commit exactly when it succeeds, or the source was not stopped and the target was discarded. Without success the owner is the source, whatever became of the writes; the source's recording is untouched while it lasts |
| `RecordingHandoff.EvictionAfterRollback` | extension/src/background.ts:371-386 | When the worker is evicted after a commit without success: the owner stays the source unless the session saved for the target was never put back, and one owner records alone exactly when that tab lasted and the other did not |
| `RecordingHandoff.RollbackLeavesNoneOrBoth` | extension/src/background.ts:1077-1089 | After a commit without success nobody records exactly when the discard of the source was applied, its reply lost, and the target discarded too; both record exactly when neither was |
| `RecordingHandoff.LateEventsAreLostOnSuccess` | extension/src/content.ts:576-605 | What the source records after its export is lost on success; without success it is lost only if the source was stopped |
| `RecordingHandoff.Coordinator.ServeNext` | extension/src/background.ts:1610-1619 | The serialised chain: a checkpoint, or the first half of a handoff |
| `RecordingHandoff.Coordinator.ImportAtTarget` | extension/src/content.ts:607-614 | The import and its three endings |
| `RecordingHandoff.Coordinator.CommitHandoff` | extension/src/background.ts:1067-1090 | The commit in the order of its writes, sessions in memory before storage, and the rollback |
| `RecordingHandoff.Coordinator.SaveActiveRecording` | extension/src/background.ts:379-386 | The session changes in memory before the write, and stays changed when the write fails |
| `RecordingHandoff.Coordinator.LoadActiveRecording` | extension/src/background.ts:371-377 | After an eviction the owner is the session in storage |
| `ElementIndex.IndicesAreNeverReused` | extension/src/content.ts:2322-2338 | Over any run of requests, expiries, persists and restores: live elements have different indices below the next one, and an index in the recording belongs to no other element |
| `ElementIndex.IndexLasts` | extension/src/content.ts:2322-2338 | Two requests for one element give the same index over any run between them without restores in which no cleanup finds it idle for longer than the time to live |
| `ElementIndex.RestoreBringsBack` | extension/src/content.ts:548-556 | A persisted copy, restored after whatever run, brings back table, counter and recorded indices |
| `ElementIndex.ForgottenGetsNewIndex` | extension/src/content.ts:1310-1318 | An element forgotten by the cleanup never again gets an index in use by then, over any later run without restores |
| `ElementIndex.MergeKeepsIndicesWhen` | extension/src/content.ts:850-854 | A merge keeps one element per index exactly when no index brought in is in use for another |
| `ElementIndex.DivergedCopiesCollide` | extension/src/content.ts:850-854 | Two copies that each meet a new element collide when merged |
| `ElementIndex.RunGood` | extension/src/content.ts:548-556 | The invariant over every run, for the persisted copies too |
| `ElementIndex.Allocator.GetElementIndex` | extension/src/content.ts:2322-2338 | The allocator step |
| `ElementIndex.Allocator.CleanupSelectorIndex` | extension/src/content.ts:1310-1318 | The cleanup loop forgets exactly the expired entries |
| `ElementIndex.Allocator.AdoptRemote` | extension/src/content.ts:845-854 | The merge of the tables, local entries first, and no change when no event and no snapshot is missing |
| `CheckpointMerge.MergeIsUnion` | extension/src/content.ts:832-845 | Every local item is kept as often as it was; added are exactly the eligible remote items of unknown key; the keys are the union |
| `CheckpointMerge.MergeAdopts` | extension/src/content.ts:832-845 | An event is adopted exactly when the page has none of its type at its moment, so events of one moment and different types are both kept; a snapshot when it is not final and the page has none of its moment |
| `CheckpointMerge.MergeIsStable` | extension/src/content.ts:846-849 | When anything changes both lists are in order of time, local items before remote ones of the same moment, otherwise in their order |
| `CheckpointMerge.MergeTwice` | extension/src/content.ts:832-849 | A second merge of the same checkpoint changes nothing |
| `CheckpointMerge.SortIsStable` | extension/src/content.ts:846-849 | The sort keeps the order of items of one moment |
| `MergedSnapshots.RestoresExactlyWhen` | src/rule-generator/converter/snapshot-refs.ts:19-71 | Of any list, merged or not, whatever its numbers mean, however often one is used and whatever the times: expansion restores every snapshot exactly when each one that names a number can be expanded from the latest earlier content-bearing snapshot of that number |
| `MergedSnapshots.SupportResolves` | src/rule-generator/converter/snapshot-refs.ts:19-71 | It can when it was derived from what that snapshot was pushed with and its patch paths pass |
| `MergedSnapshots.MergeMerges` | extension/src/content.ts:836-850 | The merge of two checkpoints adopts exactly the snapshots these results speak of, in the order of time when anything changes |
| `MergedSnapshots.MergedExpandsWhen` | extension/src/content.ts:836-849 | Of two sound copies merged in the order of time that mean the same snapshot by a shared number and use no number twice: the list expands exactly when no patch path is refused and every snapshot named is there with an earlier time, and then every snapshot is restored |
| `MergedSnapshots.CoincidingNumbersMislead` | extension/src/content.ts:836-849 | When a number means two snapshots, a reference is expanded, without an error, from whichever came last |
| `CheckpointMerge.LocalRecording.AdoptNewerBackgroundCheckpoint` | extension/src/content.ts:812-849 | The merge in place, and its early exits |
| `BoundedRedactor.BoundedRedactor.Append` | scripts/bounded-redaction.ts:22-27 | After any chunks, the state is that of the scan of everything fed, with at most the longest secret less one code unit pending and at most the limit kept |
| `BoundedRedactor.BoundedRedactor.Render` | scripts/bounded-redaction.ts:29-32 | For every chunking, the last maxOutputChars of the one-shot scan of the whole input |
| `BoundedRedactor.BoundedRedactor.SanitizePrefix` | scripts/bounded-redaction.ts:34-52 | The loop is the greedy scan that stops while enough is retained |
| `BoundedRedactor.Create` | scripts/bounded-redaction.ts:9-20 | Only a positive bound makes a redactor |
| `BoundedRedactor.FirstMatchIsLongest` | scripts/bounded-redaction.ts:17-18 | Sorted longest first, the first match is the longest |
| `BoundedRedactor.ScanResumes` | scripts/bounded-redaction.ts:34-52 | Scanning the remainder with what follows continues the scan of the whole |
| `BoundedRedactor.MatchIsLocal` | scripts/bounded-redaction.ts:17-20 | With the overlap in sight, later input cannot change a match |
| `BoundedRedactor.RemainderIsShortSuffix` | scripts/bounded-redaction.ts:22-27 | What stays pending is a suffix no longer than the overlap |
| `BoundedRedactor.RenderedHidesSecrets` | scripts/bounded-redaction.ts:29-57 | No rendered text contains a secret that disagrees with the replacement at every overlapping offset, whatever the chunking and the truncation |
| `Redaction.OccurrenceStartsHidden` | scripts/bounded-redaction.ts:34-52 | Every occurrence of a secret starts inside a redacted span |
| `Redaction.PiecesAreForced` | scripts/bounded-redaction.ts:34-52 | The scan cuts its input in the one way in which every unit shown begins no secret and every span hidden is the longest secret beginning there |
| `Redaction.ScanHidesSecrets` | scripts/bounded-redaction.ts:34-52 | The scan leaves no secret that disagrees with the replacement at every overlapping offset |
| `Redaction.SecretLeaksWhen` | scripts/bounded-redaction.ts:34-52 | For one secret, exactly: some input leaves it in the output if and only if it agrees with the replacement at an overlap that the scan can produce |
| `Redaction.OutputComesFromPlainInput` | scripts/bounded-redaction.ts:34-52 | Text of the output that disagrees with the replacement at every overlapping offset was shown from the input as it stands |
| `Redaction.PiecesSpellInput` | scripts/bounded-redaction.ts:34-52 | The scan neither drops nor invents input |
| `Redaction.ReplacementCanSpellSecret` | scripts/bounded-redaction.ts:34-52 | A secret inside the replacement survives |
| `Redaction.StraddlingSecretLeaks` | scripts/bounded-redaction.ts:34-52 | So does a secret that begins before the replacement and ends inside it |
| `Redaction.ScanLeavesCleanInput` | scripts/bounded-redaction.ts:34-52 | Input without secrets passes unchanged |
| `NestedRedaction.RedactHidesSecrets` | scripts/external-production-qualification.js:442-451 | At every depth no string of the result contains any secret |
| `NestedRedaction.KeepsWhatLiesBetween` | scripts/external-production-qualification.js:443-445 | With one secret more, the stretches between its occurrences in what the others left are kept as they are, and each occurrence becomes the marker |
| `NestedRedaction.SplitIsBetween` | scripts/external-production-qualification.js:443-445 | Every text has such stretches |
| `NestedRedaction.EveryLeafIsRedacted` | scripts/external-production-qualification.js:442-451 | At every position of the tree a string becomes its redaction, and anything else stays |
| `NestedRedaction.RedactIsIdempotent` | scripts/external-production-qualification.js:442-451 | Redacting twice is redacting once |
| `NestedRedaction.RedactKeepsShape` | scripts/external-production-qualification.js:442-451 | The same tree, keys and other leaves |
| `NestedRedaction.ReplaceAllIsScan` | scripts/external-production-qualification.js:443-445 | Splitting and joining is the leftmost scan for that secret |
| `CssIdentifier.EscapeRoundTrip` | extension/src/content.ts:62-111 | For every non-empty string the output parses as one whole identifier to that string, NUL replaced |
| `CssIdentifier.EscapeSeparates` | extension/src/content.ts:62-111 | Two strings share an escape exactly when they differ in nothing but NUL against U+FFFD |
| `CssIdentifier.NoControlsFrom` | extension/src/content.ts:75-79 | No control character is left in the output |
| `CssIdentifier.CssEscapeFallback` | extension/src/content.ts:62-111 | The loop computes that escape |
| `StabilitySchedule.BuildReplayStabilitySchedule` | scripts/e2e-replay-mv3-stability.ts:151-172 | For every valid count and seed the schedule has exactly that length and reads off shuffled blocks; other arguments are errors |
| `StabilitySchedule.ShuffleInPlace` | scripts/e2e-replay-mv3-stability.ts:163-168 | The swaps in place, nine draws, every index in range |
| `StabilitySchedule.ScheduleBlocks` | scripts/e2e-replay-mv3-stability.ts:151-172 | Each aligned block of ten is a permutation of the mix, a cut-off one part of it |
| `StabilityOrders.EveryOrderIsDrawn` | scripts/e2e-replay-mv3-stability.ts:163-168 | Every order of a block comes out of the shuffle for some draws |
| `StabilityOrders.PickIs` | scripts/e2e-replay-mv3-stability.ts:163-168 | The index picked is the one of the equal parts of the range that the draw falls into |
| `StabilitySchedule.ScheduleCounts` | scripts/e2e-replay-mv3-stability.ts:151-172 | Each scenario keeps its share up to one cut-off block |
| `StabilitySchedule.ScheduleIsDetermined` | scripts/e2e-replay-mv3-stability.ts:140-149 | Of two schedules of one seed the shorter begins the longer |
| `Readiness.CheckedListIsGuarded` | scripts/live-workflow/baidu-search.ts:317-361 | If the checker accepts and the waits it relies on hold, every run, whatever branches, cases, passes and prefixes, reaches each repeated extraction right after a completed visible-wait for its target and unconditional timeouts at most |
| `Readiness.ExtractionIsReady` | scripts/live-workflow/baidu-search.ts:335-348 | The same read at one extraction of a trace: which event is the wait, and what lies between |
| `Readiness.SegmentIsSoundWhenWaitHolds` | src/scriptcat-engine/executor-utils.ts:154-240 | For an accepted segment every run is guarded exactly when the wait is unconditional and stops on failure, which the checker does not look at |
| `ReadinessAcceptance.AcceptedWhen` | scripts/live-workflow/baidu-search.ts:317-361 | A list is accepted exactly when, in it and in every branch and case list to any depth, each extraction of all matches has some earlier wait for the same non-empty target identity to be visible, with nothing but unconditional fixed waits between |
| `ReadinessAcceptance.WaitThenExtractIsAccepted` | scripts/live-workflow/baidu-search.ts:323-345 | A wait for a target, any fixed waits, and the extraction of it are accepted |
| `Readiness.ListIsGuardedWhen` | src/scriptcat-engine/executor-utils.ts:154-240 | Of any list of steps, accepted or not, to any depth: every run is guarded exactly when, followed step by step, no trace that is unready for a target can reach an extraction of it |
| `Readiness.WaitPrecedes` | scripts/live-workflow/baidu-search.ts:326-334 | The step the inner loop finds is the one the trace ends with |
| `Readiness.IdentityIsResolution` | src/scriptcat-engine/utils.ts:51-58 | Equal identities are equal resolved targets but for visibility, timeout and multiplicity |
| `Readiness.ExecutedIsInspected` | scripts/live-workflow/baidu-search.ts:286-293 | Every step any run executes is among the inspected action objects |
| `Readiness.AssertRepeatedExtractionReadiness` | scripts/live-workflow/baidu-search.ts:317-361 | The checker's loops decide acceptance |
| `Readiness.AssertStepReadiness` | scripts/live-workflow/baidu-search.ts:346-359 | The branches and cases of one step |
| `Readiness.FindReadiness` | scripts/live-workflow/baidu-search.ts:326-334 | The loop back over unconditional timeouts |
| `TaskInputs.InputsValidateWhenTheyFit` | scripts/staging-task-inputs.ts:69-88 | For every schema of the supported fragment: the inputs, declared defaults filled in, validate exactly when required names are declared, defaults are valid and the bounds on the way can be met |
| `TaskInputs.ValueValidatesWhenItFits` | scripts/staging-task-inputs.ts:44-67 | The same for each value, at every depth: texts, numbers, arrays, objects, and the first of an enumeration, which must have the declared type, be within the bounds and have valid parts |
| `TaskInputs.TextValidatesWhenItFits` | scripts/staging-task-inputs.ts:47-51 | For every name: the text made is valid exactly when the fixture is long enough as it is, or the lower bound is whole and no character of the fixture counts twice, and the padded text stays within the upper bound |
| `TaskInputs.ThrowsWhenSecretIsReached` | scripts/staging-task-inputs.ts:76-80 | It throws exactly when a path of wanted properties and item schemas leads to a required secret |
| `InputAnswers.FixtureFor` | scripts/staging-task-inputs.ts:25-36 | Which fixture a text gets, by what its name and description mention in any case, in the order of precedence |
| `InputAnswers.TextAnswer` | scripts/staging-task-inputs.ts:47-51 | A text is its fixture followed by as many letters x as it falls short of the lower bound |
| `InputAnswers.KeysAnswer` | scripts/staging-task-inputs.ts:69-83 | A value is made for exactly the declared properties that are required and have no default; a secret among them fails |
| `TaskInputs.AstralNameUnderpads` | scripts/staging-task-inputs.ts:47-51 | A name beyond U+FFFF is padded one character short |
| `TaskInputs.CollectInputs` | scripts/staging-task-inputs.ts:69-88 | The loop over the properties, in any order |

## Left out

- Concurrency inside one background handler: handlers are atomic, except that a success report and the cleanup after it are two events.
- Server calls made by the cleanup when no wizard is connected, result rows, and the replay context: they do not change the state modelled here.
- Storage writes of the replay handlers other than the one START_REPLAY checks are taken to succeed; legacy sessions with a single expected domain are not modelled.
- Evictions of the worker in the middle of a commit: in the handoff model they come between steps.
- Joining tabs to a recording, page-load waits and window ids: a handoff is requested for a tab, and whether its URL is acceptable is a parameter.
- Captures and queued tasks that outlive a same-page discard and import: they are modelled in EventLinking, not in SnapshotStore, where a resume loses the captures in flight.
- Importing a recording while events wait or captures run is excluded from the EventLinking run theorems; what holds after such an import is ImportStaysInOrderWhen.
- MergedSnapshots.MergedExpandsWhen: speaks of merged lists in which no number is used twice and no two snapshots are of the same moment; the general case is RestoresExactlyWhen.
- SnapshotExpansion.ExpandSnapshotReferences: fields other than the three content fields that a foreign patch might add are not copied, because no patch of a diff adds any; a snapshot always has a sequence number.
- SnapshotDelta.DeltaLaw: leaves out candidates with a member named `__proto__`, because assigning to it in the applier sets the prototype; in JsonPatch that name is inherited like the others and is a plain member once it is there.
- SnapshotExpansion.Captured: takes it as given that captured content has no member with an inherited name; the selector map is keyed by numbers, and the serialiser writes attributes as lists of name and value.
- Redaction.ScanHidesSecrets: its condition on secret and replacement is sufficient and not necessary, because a secret that agrees with the replacement at some offset may still never meet it there; for one secret the exact condition is SecretLeaksWhen, and none is given for several secrets.
- Numbers that JSON cannot carry (NaN, infinities, negative zero) and their serialised forms.
- Serialised byte counting, size and duration limits, warnings, marks, the version 1 recording format, frame aggregation and the redaction inside the DOM serialiser.
- Hash collisions of element identities; an identity is a string.
- Resuming a list of steps in its middle, the nested trigger action of downloads, and the single attempts of a retried step, which are one event of the trace.
- Readiness.IdentityIsResolution: leaves out references of blanks only, which the engine does not resolve, and member names that compare equal in the current locale.
- The order of an object's members where only an error text depends on it, and the name in the generator's error.
- Lower-casing beyond ASCII in the generator's word search: no other character lower-cases to text that contains one of its words.
- JSON Schema keywords that the generator does not read (pattern, format, const, exclusive bounds, combinators).
- CssIdentifier.EscapeRoundTrip: lone surrogates are kept as they are; decoding and encoding of style sheets is not modelled.
- The exact 32-bit mixing of the seeded generator: only the range of its outputs matters.
- Live-site scenarios, URL and address checks, admin and popup interfaces, packaging.
- The Go server: what it does with expanded recordings and applied defaults is outside this model.
