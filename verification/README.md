# A model of LHC host packages

LHC keeps an append-only record of an agent conversation and swaps rebuilt sessions under a
running host. This project models the parts of its host packages where state, order and
crashes meet, and proves what they are for. Work that the source does step by step on shared
state is written as methods and classes here; what each method computes is said by a function
on values, and the main results are about those functions, over every input and every run.

One module models one component:

- `Projector`: the pass that builds the messages to install from a served view.
- `MonitorEvents`, `OutputReads`: the event stream of relaunched monitors, bounded reads and
  the bounded copy.
- `MonitorRounds`, `MonitorGaps`: prompts that show what several monitors owe, notices seen back
  later, and items that are written on after they finished.
- `ReplayLedger`: the compacted log of control calls and its replay into a new generation.
- `SessionPipeline`, `SessionHistories`: inputs, sent prompts, the mid-turn stop and the
  generation swap, and the session's state told by its events. A step is what runs between two
  waits for the outside.
- `CaptureOutbox`: the ordered outbox of the mod against a sidecar that may crash, refuse or
  lose a reply at every wait.
- `ContinuityStore`, `Snapshots`, `Cleanup`, `ContinuityRuns`, `ItemLives`, `CleanupRuns`: the
  durable record of background work, handoff generations and carried results, what every run
  keeps, what a row says of its item's life, and what cleanup leaves readable.
- `Observe`: a rollout observed, and observed again; the fold that emits its events.
- `Handoff`, `HandoffRuns`: carrying a snapshot over, with crashes between any two effects.
- `EventKeys`, `PlainText`, `Delivery`, `NoticeTexts`, `DeliveryRounds`, `Notices`: the notice of
  finished work, the keys read back from it, what it tells a reader, notice after notice, and a
  notice from the tables and back.
- `Signatures`, `Receipts`, `LaunchArgv`, `ContextPolicy`: the signature table, the install
  receipt, the launch arguments and the compact policy.

`Basics` holds a few facts about sequences.

Some properties hold only under a condition, and the model says which:

- A generation swap may strand a prompt its CLI has read and not begun, exactly when the CLI
  does not report command lifecycle (`SwapsStrandNothingIffLifecycle`).
- An item launched under a name whose result is already durable loses its own outcome exactly
  when it ends otherwise than that result says, since the first result keeps its place
  (`OutcomeLostExactly`, `SecondEndingIsLost`).
- Cleanup keeps an item's reads exactly when its result does not hold an owned copy yet
  (`ReadsAreKeptIffNotCopied`). A tracked item gets into that position exactly by a launch under
  a copied name (`StepCopies`); its own output is then lost, and reads answer the copy of the
  first life (`OldCopyIsReadAfter`, `SecondOutputIsLost`).
- The output file of a relaunch is named after the sanitised launch, so two launches whose
  names differ only in replaced characters share it, and the second one's monitor is not
  started although it is reported as relaunched (`FencesCollideIff`, `LookalikeIsNotStarted`,
  `LookalikeRun`).
- An output file may stand without its monitor, and the monitor be reported as relaunched, exactly
  after a crash between the two or a failed start (`EveryOutputHasItsMonitorIff`,
  `CrashBehindTheOutput`); otherwise only lookalikes are reported wrongly
  (`WrongReportIffLookalike`).
- A replacement generation is sure to hold the recorded settings exactly when the last writes to
  each key among the calls that worked are those among all calls (`HoldsTheRecordedIff`,
  `MissedCall`).
- A queued input has something to wait for exactly when no generation was replaced with a stop
  pending and no unread prompt; otherwise it waits for good (`QueuedInputWaitsIff`,
  `StoppedForGoodStays`, `InputQueuedForGood`).
- Monitor events are told in order, each once, exactly when no finished item is written on behind a
  line that was shown open (`ToldInOrderIff`, `LineComesAgain`); in every run no byte is skipped
  (`NoByteIsSkipped`).
- A replacement child's arguments leave the session id as a prompt exactly when the launch
  ended in an option that waits for its value (`ReplacementHoldsNoPromptIff`,
  `ModelWithoutValue`).
- Reading a truncated copy gives the live file's bytes exactly for ranges inside the cap
  (`CutCopyReadsAlikeInside`).
- Applying a stream of events again changes nothing exactly when every end that comes before its
  launch comes again after it (`ReobservingChangesNothingIff`). The program's own fold emits
  only such streams (`FoldLaunchesFirst`, `FoldReobservedChangesNothing`).
- Observing a rollout again from a seed read from the record changes nothing exactly when the
  rollout does not close, reschedule or add to seeded work (`ReobservingFromRecordIff`); a live
  wakeup that an earlier one of the same rollout precedes is ended (`LiveWakeupIsEnded`).
- A notice's keys are read back exactly when the names shown are free of white space
  (`ReadBackExactlyTokens`).

Check the whole project with `dafny verify dfyconfig.toml`.

## Model

| member | source | states |
|---|---|---|
| Projector.ProjectView | packages/cc-lhc-mod/sidecar/src/projector.ts:19-96 | the pass over message objects, with the tool-use list shared by `open` and the open message, builds what the pass on values builds |
| Projector.ProjectionKeepsContent | packages/cc-lhc-mod/sidecar/src/projector.ts:12-95 | what the entries of a view hold, said from their own fields (a text and one line for each other kind it came with, the text parts of a response, its calls with id, name and arguments, the results with id, text and error flag), appears once each in the messages, in view order within its kind, for every view; real results too when call ids are distinct and a call has at most one, later, result; nothing held is left at the end |
| Projector.ProjectionPairsCalls | packages/cc-lhc-mod/sidecar/src/projector.ts:26-96 | every call of a built message has exactly one result message; it is the view's own exactly when the view holds one, then before the next user text, and always before the next response |
| Projector.Pass.Tell | packages/cc-lhc-mod/sidecar/src/projector.ts:53-58 | a result is written into the first open use of its call, also as seen through the open message |
| Projector.Pass.Result | packages/cc-lhc-mod/sidecar/src/projector.ts:50-62 | a result entry is built, and held notes are released once nothing awaited is open |
| Projector.Pass.SettleOpen | packages/cc-lhc-mod/sidecar/src/projector.ts:32-46 | every unanswered open call gets its dangling result, then nothing is open or held |
| Projector.Pass.User | packages/cc-lhc-mod/sidecar/src/projector.ts:63-74 | a note that arrives while an answered call runs is held, otherwise the open calls are settled before it |
| Projector.Pass.Response | packages/cc-lhc-mod/sidecar/src/projector.ts:75-92 | a later part of a response that still awaits a result is merged into the open message, otherwise it opens a new one |
| MonitorEvents.PendingMonitorEvents | packages/cc-lhc/src/continuity/carried-results.ts:331-371 | the windowed reader yields exactly the non-blank pieces of the simple cutter for every item, up to the bound asked for |
| MonitorEvents.ReadItem | packages/cc-lhc/src/continuity/carried-results.ts:341-368 | the nested loops over one item continue the cutter's stream from the acknowledged offset |
| MonitorEvents.TakeLines | packages/cc-lhc/src/continuity/carried-results.ts:358-360 | the inner loop takes whole lines out of the window |
| MonitorEvents.TakeTail | packages/cc-lhc/src/continuity/carried-results.ts:361-365 | a window without a newline and the tail of a finished file are taken whole, any other open line is left |
| MonitorEvents.StripTakesTheLineEnd | packages/cc-lhc/src/continuity/carried-results.ts:341-368 | a line loses its end, with or without a carriage return, and nothing else |
| MonitorEvents.OnlyReadableMonitorsOwe | packages/cc-lhc/src/continuity/carried-results.ts:331-345 | only relaunched monitors whose output can be read owe events |
| MonitorEvents.ResumeAfterEvent | packages/cc-lhc/src/continuity/carried-results.ts:341-367 | resuming at the end offset of any yielded event yields exactly the events after it |
| MonitorEvents.GrowthKeepsEvents | packages/cc-lhc/src/continuity/carried-results.ts:361-366 | what a growing file has yielded stays the beginning of what it yields later |
| MonitorEvents.PiecesLeaveOnlyAnOpenLine | packages/cc-lhc/src/continuity/carried-results.ts:361-366 | nothing of a finished file is left over, and of a growing one only an unfinished line within the window |
| MonitorEvents.LateWriteKeepsEventsIff | packages/cc-lhc/src/continuity/carried-results.ts:361-366 | a finished file that is written again keeps all it yielded exactly when its last line was ended, blank or a full window |
| MonitorRounds.EveryEventToldInOrder | packages/cc-lhc/src/continuity/store.ts:982-995 | over any rounds of writing, finishing, prompting with one cap for all monitors, and notices seen back late, again, out of order or never, in which no finished item is written on behind a line shown open: of each monitor's events exactly a first part was in a notice seen back, the monitor owes exactly the rest, and notices hold nothing else |
| MonitorRounds.ToldInOrderIff | packages/cc-lhc/src/continuity/carried-results.ts:394-410 | over any rounds at all, that holds of every monitor exactly when no finished item was written on behind a line shown open |
| MonitorGaps.NoByteIsSkipped | packages/cc-lhc/src/continuity/carried-results.ts:341-368 | over any rounds, late writes included: pieces that were blank or in a notice seen back join end to end from the start of each file up to the acknowledged offset |
| MonitorGaps.LineComesAgain | packages/cc-lhc/src/continuity/carried-results.ts:361-366 | a run in which a finished item is written on and its last line is shown again with what was added |
| MonitorGaps.OnlyUnseenEventsComeAgain | packages/cc-lhc/src/continuity/tasks-cli.ts:87-93 | a prompt shows no event that a notice seen back has shown; when all earlier notices were seen back everything it shows is new |
| MonitorGaps.NothingShownNothingOwed | packages/cc-lhc/src/continuity/tasks-cli.ts:87-93 | when a prompt has nothing to show, no readable monitor owes anything past its acknowledged offset, and but for the late writes named above all its events were in notices seen back |
| MonitorRounds.AcknowledgingTakesOff | packages/cc-lhc/src/continuity/tasks-cli.ts:88-93 | acknowledging the first of all events owed, of whichever monitors they are, leaves exactly the others owed |
| MonitorRounds.EnoughPromptsTellAll | packages/cc-lhc/src/continuity/tasks-cli.ts:88-93 | prompts that are seen back in turn show what all monitors owe in order, each event once, twenty at a time |
| OutputReads.ReadBounded | packages/cc-lhc/src/continuity/manage.ts:166-194 | a read that may return fewer bytes than asked for fills the buffer with the requested range, its offset clamped to the file, and says where to go on |
| OutputReads.ReadingOnGivesTheRest | packages/cc-lhc/src/continuity/manage.ts:166-194 | reading on from where each read says gives the rest of the file, however much one read may return |
| OutputReads.LastBytes | packages/cc-lhc/src/continuity/manage.ts:166-194 | an offset counted from the end gives the last bytes, or the whole of a shorter file |
| OutputReads.CopyBounded | packages/cc-lhc/src/continuity/cleanup.ts:65-110 | the chunked copy holds the first bytes up to the cap, and is marked truncated exactly when the source is longer |
| OutputReads.WholeCopyReadsAlike | packages/cc-lhc/src/continuity/manage.ts:166-194 | a copy that was not cut short reads like the file for every range |
| OutputReads.CutCopyReadsAlikeInside | packages/cc-lhc/src/continuity/manage.ts:166-194 | a copy that was cut short gives the same offset and bytes exactly for the ranges inside the cap |
| ReplayLedger.Ledger.Record | packages/claude-lhc/src/controls.ts:126-135 | recording keeps the ledger faithful to the full history of calls |
| ReplayLedger.Ledger.RecordedAfter | packages/claude-lhc/src/controls.ts:137-139 | gives the calls recorded after a cursor |
| ReplayLedger.Supersede | packages/claude-lhc/src/controls.ts:129-133 | the loop keeps of each entry what the new call does not overwrite |
| ReplayLedger.DroppingSuperseded | packages/claude-lhc/src/controls.ts:28-56 | dropping writes whose key of the same slot is written again later changes no setting, for any reading of keys as sets of cells, even cells shared between slots |
| ReplayLedger.RecordIsFaithful | packages/claude-lhc/src/controls.ts:118-140 | replaying the compacted ledger, whole or from any cursor, leaves every setting as replaying the history does |
| ReplayLedger.InstalmentsCompose | packages/claude-lhc/src/session.ts:430-453 | replaying up to a cursor and then what was recorded since gives what the whole history gives |
| ReplayLedger.RecordKeepsOnePerTarget | packages/claude-lhc/src/controls.ts:126-135 | the ledger never holds two writes to one key of one slot |
| ReplayLedger.RecordHoldsLast | packages/claude-lhc/src/controls.ts:26-56 | said of control, source and key alone: after any history the ledger gives each setting the value given last, once, and gives nothing else: of a server's switch or permission mode the last call whole, of settings the last value of each source and key, of flags that of each key, of any other control its last call |
| ReplayLedger.ReplayControls | packages/claude-lhc/src/session.ts:421-453 | the calls the loop tries mean all that is recorded up to its exit, the new generation holds what those of them that worked leave, and controls still in flight are recorded after it |
| ReplayLedger.SameMeaningIffSameNormal | packages/claude-lhc/src/controls.ts:118-140 | two lists of calls leave the same settings, whatever a key overwrites and whatever was set before, exactly when the last writes to each key of each slot are the same list |
| ReplayLedger.LedgerIsNormal | packages/claude-lhc/src/controls.ts:118-140 | the compacted ledger is, write by write, that list for the whole history |
| ReplayLedger.HoldsTheRecordedIff | packages/claude-lhc/src/session.ts:421-453 | the new generation is sure to hold the recorded settings exactly when the last writes to each key among the calls that worked are those among all calls tried and late |
| ReplayLedger.NoFailureHoldsTheRecorded | packages/claude-lhc/src/session.ts:430-453 | with no failed call and none in flight it always does |
| ReplayLedger.MissedCall | packages/claude-lhc/src/session.ts:421-453 | any call that sets something and fails, or comes late, on a generation that holds nothing is missing |
| SessionPipeline.InputsKeepTheirOrder | packages/claude-lhc/src/session.ts:122-160 | over every run accepted inputs are those handed on, the one waiting for a compact and the queue, in order; across generations prompts are read once each in that order |
| SessionPipeline.QueuedInputsStartAlone | packages/claude-lhc/src/session.ts:350-386 | a queued input starts only when no sent prompt is outstanding |
| SessionPipeline.NoSwapWhileUnstarted | packages/claude-lhc/src/session.ts:1001-1003 | with lifecycle reporting, while a compact runs every outstanding prompt has started and nothing is unread |
| SessionPipeline.SwapsStrandNothingIffLifecycle | packages/claude-lhc/src/session.ts:900-1003 | replacing a generation never strands a prompt its CLI has read and not begun exactly when the CLI reports command lifecycle |
| SessionPipeline.SwapStrandsWithoutLifecycle | packages/claude-lhc/src/session.ts:747-784 | a run without reports in which the swap at a turn's end strands a second prompt, read while the first one's turn ended and not begun |
| SessionPipeline.QueuedInputWaitsIff | packages/claude-lhc/src/session.ts:347-364 | over every run a queued input has something outstanding that lets the queue go on (a prompt the live generation holds, a compact, a turn's end, the result of a generation asked to stop) exactly when no generation was replaced with a stop pending and no unread prompt to move on |
| SessionHistories.StopsAndTurnEnds | packages/claude-lhc/src/session.ts:747-784 | over every run, said of the events: a mid-turn compact runs exactly from the taking of a result that came hook-stopped while a stop was pending until its compact is done, every continuation note answers one such result, and a turn is ending exactly from the taking of any other result until its end |
| SessionPipeline.StoppedForGoodStays | packages/claude-lhc/src/session.ts:677-679 | after such a replacement no further event hands anything on again |
| SessionPipeline.InputQueuedForGood | packages/claude-lhc/src/session.ts:606-633 | a run with lifecycle reporting in which a prompt is queued for good |
| SessionPipeline.InputQueue.Drain | packages/claude-lhc/src/session.ts:137-141 | the unread items, in order; the queue is ended |
| SessionPipeline.Session.CliReads | packages/claude-lhc/src/session.ts:143-158 | the CLI takes the unread prompts one by one, in order |
| SessionPipeline.Session.PushUser | packages/claude-lhc/src/session.ts:322-336 | an input is queued behind others or while the session is busy, otherwise sent |
| SessionPipeline.Session.Advance | packages/claude-lhc/src/session.ts:350-364 | the queue is drained as far as the session allows |
| SessionPipeline.Session.Send | packages/claude-lhc/src/session.ts:366-386 | a prompt is handed over, or waits for the automatic compact that is due |
| SessionPipeline.Session.OnPostToolUse | packages/claude-lhc/src/session.ts:606-633 | the hook stops the turn when a compact is due and nothing sent is unstarted |
| SessionHistories.OutstandingAsEventsSay | packages/claude-lhc/src/session.ts:764-803 | over every run, said of the events: a prompt or note is outstanding since it was passed to a generation, until it is reported completed or cancelled or its turn ends, unless the CLI reports starts and had not started it; and it has started since that was reported |
| SessionHistories.DueAsEventsSay | packages/claude-lhc/src/session.ts:461-473 | over every run, said of the events: an automatic compact is due since a reading of the served context said so or one was put off for an unstarted prompt, until one begins, a stop is asked for, a generation goes live or a reading says otherwise; a turn is open since the CLI took a prompt that opens one or spoke, until a turn's end |
| SessionHistories.CompactsBeginWhenDue | packages/claude-lhc/src/session.ts:366-386 | after every run: a compact begins at a turn's end exactly when one is due or the context is past the trigger, none runs and the CLI holds no unstarted prompt; one begins before a prompt only when due and outside a turn; no prompt is handed on outside a turn while one is due, but the one that waited for it |
| SessionPipeline.Session.OnResult | packages/claude-lhc/src/session.ts:747-763 | a result that came hook-stopped while a stop was pending begins the mid-turn compact, any other result ends its turn |
| SessionPipeline.Session.OnTurnEnd | packages/claude-lhc/src/session.ts:764-784 | a turn's end settles what was sent, begins a due compact or advances the queue |
| SessionPipeline.Session.OnCommandLifecycle | packages/claude-lhc/src/session.ts:797-803 | a report starts or settles a sent prompt |
| SessionPipeline.Session.Adopt | packages/claude-lhc/src/session.ts:1171-1181 | the next generation takes over the unread prompts in order |
| SessionPipeline.Session.FinishCompact | packages/claude-lhc/src/session.ts:900-1003 | a compact ends: the next generation goes live when it succeeded, and what waited for it goes on |
| CaptureOutbox.Sidecar.Bind | packages/cc-lhc-mod/sidecar/src/server.ts:115-135 | a bind sets the binding only when the recording opened, and otherwise keeps or clears it |
| CaptureOutbox.Sidecar.Capture | packages/cc-lhc-mod/sidecar/src/server.ts:136-154 | entries are taken exactly when the sidecar records and every one of them is of the bound session |
| CaptureOutbox.Outbox.Enqueue | packages/cc-lhc-mod/mod/hooks/sidecar.ts:137-146 | binds and entries are queued behind everything else |
| CaptureOutbox.Outbox.StartSidecar | packages/cc-lhc-mod/mod/hooks/sidecar.ts:54-86 | a replacement is started when none runs, and is left bound to the last bind's session unless the failure of that replay is noted; the queue only grows, also when another request starts one meanwhile |
| CaptureOutbox.Outbox.ReplayBind | packages/cc-lhc-mod/mod/hooks/sidecar.ts:89-105 | the last sent bind is given to the replacement again |
| CaptureOutbox.Outbox.SendBind | packages/cc-lhc-mod/mod/hooks/sidecar.ts:148-153 | a bind that was answered is the sidecar's and the mod's last binding |
| CaptureOutbox.Outbox.PostCapture | packages/cc-lhc-mod/mod/hooks/sidecar.ts:107-120 | a batch counts as sent only when a sidecar bound to its session took it |
| CaptureOutbox.Outbox.HeadBatch | packages/cc-lhc-mod/mod/hooks/sidecar.ts:182-183 | the entries up to the next bind, at most two hundred |
| CaptureOutbox.Outbox.Send | packages/cc-lhc-mod/mod/hooks/sidecar.ts:167-188 | nothing acknowledged is taken back, nothing enqueued is lost or reordered, and success means the queue is empty, whatever crashes and fails on the way; when every remaining wait answers, all that was queued is acknowledged, also after a failed replay |
| CaptureOutbox.Outbox.Drain | packages/cc-lhc-mod/mod/hooks/sidecar.ts:190-194 | a drain that answers true has every enqueued entry acknowledged, in order, by sidecars bound to the entries' own sessions; it answers true when every remaining wait answers |
| CaptureOutbox.Outbox.Flush | packages/cc-lhc-mod/mod/hooks/sidecar.ts:196-219 | a background send keeps the same account, sends all when every remaining wait answers, and five failures in a row stop recording, counted anew whenever something was acknowledged |
| CaptureOutbox.ItemsConcat | packages/cc-lhc-mod/mod/hooks/sidecar.ts:124-131 | entries, last bound session and attribution of a queue follow from those of its parts |
| CaptureOutbox.BatchAcknowledged | packages/cc-lhc-mod/mod/hooks/sidecar.ts:184-185 | moving an answered batch from the queue to the acknowledged keeps the account and the order |
| EventKeys.KeyRoundTrip | packages/cc-lhc/src/continuity/store.ts:67-81 | a printed event key parses back exactly when it names a launch and a positive safe offset |
| PlainText.OneLineHoldsTheWords | packages/cc-lhc/src/continuity/delivery.ts:44-48 | the line holds the text's words in order with one space between them, every character outside printable ASCII as a question mark, cut at the bound with a tilde |
| ContinuityStore.Store.RecordLaunch | packages/cc-lhc/src/continuity/store.ts:829-847 | the first launch of a name inserts an active, unqualified, uncarried item; a later one changes nothing |
| ContinuityStore.Store.RecordProgress | packages/cc-lhc/src/continuity/store.ts:848-854 | continuation facts are merged into an unfinished item |
| ContinuityStore.Store.SetTaskProcess | packages/cc-lhc/src/continuity/store.ts:855-861 | the first task process learned stays |
| ContinuityStore.Store.RecordTerminal | packages/cc-lhc/src/continuity/store.ts:862-900 | the first outcome wins, and a carried item's outcome becomes a durable result in the same step |
| ContinuityStore.Store.SetVerified | packages/cc-lhc/src/continuity/store.ts:901-905 | an unfinished item becomes active or unknown |
| ContinuityStore.Store.SetCarryMode | packages/cc-lhc/src/continuity/store.ts:906-923 | an unfinished item is qualified by a well-formed identity, never unqualified again |
| ContinuityStore.Store.SetRelaunched | packages/cc-lhc/src/continuity/store.ts:924-943 | the first relaunch of an unfinished item is recorded |
| ContinuityStore.Store.Acknowledge | packages/cc-lhc/src/continuity/store.ts:985-992 | an event key moves the item's offset forward only, another key marks a pending result |
| ContinuityStore.Store.MarkDelivered | packages/cc-lhc/src/continuity/store.ts:982-995 | each distinct key is acknowledged once, in order, and the answer lists exactly those that changed something |
| ContinuityStore.ResultChangesIff | packages/cc-lhc/src/continuity/store.ts:982-995 | a result's name is on that list exactly when the result was pending |
| ContinuityStore.Store.SetResultArtifact | packages/cc-lhc/src/continuity/store.ts:957-966 | the result points at its owned copy |
| ContinuityStore.Store.DeleteTerminalItem | packages/cc-lhc/src/continuity/store.ts:967-969 | only a finished item is deleted |
| ContinuityStore.Store.RemoveObsoleteGenerations | packages/cc-lhc/src/continuity/store.ts:970-981 | the generations go once no item is left |
| ContinuityStore.Store.AllocateGeneration | packages/cc-lhc/src/continuity/store.ts:999-1025 | the next generation is opened over the given launches, open older ones are superseded and the members stamped |
| ContinuityStore.Store.LatestGeneration | packages/cc-lhc/src/continuity/store.ts:1037-1040 | the highest generation number |
| ContinuityStore.Store.SetGenerationState | packages/cc-lhc/src/continuity/store.ts:1041-1045 | one generation's state is set |
| Snapshots.SnapshotContinuity | packages/cc-lhc/src/continuity/snapshot.ts:93-119 | a generation is taken exactly when every unfinished item is verified and qualified; it carries the active items; otherwise the refusal lists what stands in the way |
| Snapshots.MechanismFits | packages/cc-lhc/src/continuity/store.ts:82-98 | a mechanism names what its identity does: the file to read, the agent, the run with its script, the time, the launch |
| Snapshots.LookAt | packages/cc-lhc/src/continuity/snapshot.ts:145-165 | an item is put on the one list its standing asks for |
| Snapshots.CloseContinuitySnapshot | packages/cc-lhc/src/continuity/snapshot.ts:121-191 | a generation closes exactly when each listed member ended or is active and qualified and no unfinished item that is no member was created since; the lists hold exactly the items they are for, and the refusals have their order |
| Snapshots.ClosesWhenNothingRefuses | packages/cc-lhc/src/continuity/snapshot.ts:167-182 | the three refusing lists are empty exactly when the generation may close |
| Cleanup.ReadItemOutput | packages/cc-lhc/src/continuity/manage.ts:217-262 | reads the verified live file of a tracked item, or the owned copy, or gives the reason why not |
| Cleanup.ReadRefusedIff | packages/cc-lhc/src/continuity/manage.ts:217-262 | which refusal a read gets, from what is tracked, owned, asked for and found, and whose bytes it answers else |
| Cleanup.Disk.Copy | packages/cc-lhc/src/continuity/cleanup.ts:65-110 | the copy appears whole under its own name or not at all |
| Cleanup.KeepOutput | packages/cc-lhc/src/continuity/cleanup.ts:163-225 | the owned output is verified, copied and pointed at, and a relaunch's output file is removed; each failure has its reason |
| Cleanup.CleanItem | packages/cc-lhc/src/continuity/cleanup.ts:147-227 | one item's cleanup: preserved, retained with a reason, or removed |
| Cleanup.VerdictIff | packages/cc-lhc/src/continuity/cleanup.ts:147-227 | when an item is preserved, retained for each reason, or removed, from its record and surroundings |
| Cleanup.FilesAfter | packages/cc-lhc/src/continuity/cleanup.ts:163-225 | which files appear and go with an item's cleanup: only the copy, and a relaunch's output |
| Cleanup.CleanupThread | packages/cc-lhc/src/continuity/cleanup.ts:125-233 | the items are cleaned up one by one, the generations afterwards when none is unfinished |
| Cleanup.RemovedOnlyWhenKept | packages/cc-lhc/src/continuity/cleanup.ts:157-227 | a carried item goes only with its result durable and unchanged, and the output it owns copied |
| Cleanup.CleaningIsLocal | packages/cc-lhc/src/continuity/cleanup.ts:147-227 | other items and results stay as they are, and a retained item changes nothing in the record |
| Cleanup.CleanupPreservesReads | packages/cc-lhc/src/continuity/cleanup.ts:163-225 | what a read answered before an item's first cleanup it answers after: the same within the cap, and for longer outputs the same bytes exactly for ranges inside the cap |
| Cleanup.ReadsAreKeptIffNotCopied | packages/cc-lhc/src/continuity/cleanup.ts:163-225 | cleaning up an item that offers output keeps all its reads exactly when its result holds no owned copy yet |
| Cleanup.OldCopyIsReadAfter | packages/cc-lhc/src/continuity/cleanup.ts:163-166 | an item whose result holds an owned copy goes without touching a file, and reads answer that copy |
| Cleanup.CrashedCleanupFinishes | packages/cc-lhc/src/continuity/cleanup.ts:163-225 | after a crash between any two effects of a cleanup the result keeps its outcome, a read of the tracked item answers as before until the output is removed and is refused then, and the next cleanup finishes with the same reads |
| CleanupRuns.ReadsAreKeptForGood | packages/cc-lhc/src/continuity/cleanup.ts:125-233 | over every run in which nothing is launched under a copied name: a removed carried item's result and its reads are kept at every later point until that name is launched again |
| CleanupRuns.SecondOutputIsLost | packages/cc-lhc/src/continuity/cleanup.ts:163-166 | a run, for any two outputs, in which a name lives twice and after the second cleanup reads answer the first output |
| ContinuityRuns.EveryRunStaysSound | packages/cc-lhc/src/continuity/snapshot.ts:72-191 | in every reachable state each row parses, a finished carried item has a result, a stamped item is a member of its generation, generations are numbered without gaps and only the newest may be open |
| ContinuityRuns.SnapshotStamps | packages/cc-lhc/src/continuity/store.ts:999-1025 | a snapshot stamps exactly the active items, all with the new number |
| ContinuityRuns.StepStands | packages/cc-lhc/src/continuity/store.ts:744-790 | closed and superseded are final while the row exists, members never change, a generation closes only when it may, an item goes only finished and with its result durable |
| ContinuityRuns.NoOutcomeIsLost | packages/cc-lhc/src/continuity/store.ts:862-900 | over every run a result keeps its outcome, evidence and generation, delivery goes one way only, and an owned copy is never replaced |
| ItemLives.RowTellsALaunchedLife | packages/cc-lhc/src/continuity/store.ts:829-948 | over every run from an item's launch for as long as it stays tracked: its state is what the last verification said, its qualification the last one taken, its relaunch the first one recorded, its operations those of whichever came last, all from before it ended, and its ending the first one; its offset and stamp come from acknowledging and snapshots alone |
| ItemLives.RowTellsItsLife | packages/cc-lhc/src/continuity/store.ts:829-948 | the same from any open row, its task process too: the first one learned |
| ItemLives.ChangedRowIsDated | packages/cc-lhc/src/continuity/store.ts:829-948 | a step dates every row it changes, unless only the offset moved |
| ContinuityRuns.StepMovesGenerations | packages/cc-lhc/src/continuity/store.ts:970-1044 | over every step a generation goes exactly when none of the items is left, comes exactly by a snapshot, as the next number, open over the active items, and an open one is closed exactly when nothing refuses or superseded by the next, dated then |
| ContinuityRuns.DeliveredIffAcknowledged | packages/cc-lhc/src/continuity/store.ts:982-995 | over every run a result is delivered exactly when its name was acknowledged once it was durable; until then it is pending |
| ContinuityRuns.OutcomeLostExactly | packages/cc-lhc/src/continuity/store.ts:758-763 | a step loses a finished carried item's own outcome exactly when it ends an item whose name holds a result of another outcome or evidence |
| ContinuityRuns.StepTells | packages/cc-lhc/src/continuity/store.ts:758-763 | a step leaves only ended items with results, each telling its item's ending, exactly when it launches nothing under a name whose result is durable |
| ContinuityRuns.StepCopies | packages/cc-lhc/src/continuity/store.ts:957-966 | a step leaves no tracked item with an owned copy exactly when it launches nothing under a name whose result holds one |
| ContinuityRuns.NoneCopiedInRuns | packages/cc-lhc/src/continuity/store.ts:957-966 | in every run without such a launch no tracked item has an owned copy yet |
| ContinuityRuns.EveryOutcomeIsTold | packages/cc-lhc/src/continuity/store.ts:862-900 | in every run without such a launch, each finished carried item's own outcome and evidence are the durable ones |
| ContinuityRuns.SecondEndingIsLost | packages/cc-lhc/src/continuity/store.ts:758-763 | a reachable state in which a second life under an old name ended and its outcome is not recorded |
| Observe.ApplyAsyncWorkEvent | packages/cc-lhc/src/continuity/observe.ts:47-86 | each event is one store step |
| Observe.FirstWriterWins | packages/cc-lhc/src/continuity/store.ts:569-582 | continuation facts once merged stay, whatever is merged after |
| Observe.ReobservingChangesNothing | packages/cc-lhc/src/continuity/observe.ts:47-86 | applying a stream twice leaves the record as applying it once, apart from update times, when work is launched before it progresses or ends |
| Observe.ReobservingChangesNothingIff | packages/cc-lhc/src/continuity/observe.ts:47-86 | for streams whose progress follows launches, applying a stream twice changes only update times exactly when every end that comes before its launch comes again after it |
| Observe.EndBeforeLaunchIsTakenLater | packages/cc-lhc/src/continuity/observe.ts:47-86 | a stream on which the condition fails: an end before its launch is dropped the first time and taken the second |
| Observe.FoldLaunchesFirst | packages/cc-lhc/src/observation/async-work.ts:91-96 | the program's own fold tells only of work it was seeded with or that it launched before |
| Observe.FoldReobservedChangesNothing | packages/cc-lhc/src/observation/async-work.ts:235-363 | so what the fold emits for any observations from one seed may be applied twice, changing only update times |
| Observe.ReobservingFromRecordIff | packages/cc-lhc/src/continuity/observe.ts:88-108 | a rollout observed again by a fold seeded with unfinished work from the record changes only update times exactly when the rollout neither closes a seeded key, nor opens it as a wakeup, nor tells a new fact of it |
| Observe.ObservedOnce | packages/cc-lhc/src/continuity/observe.ts:47-86 | once a fold's events were applied the record holds all it tells |
| Observe.SnapshotKeepsObserved | packages/cc-lhc/src/continuity/store.ts:999-1025 | and still does after a snapshot |
| Observe.LiveWakeupIsEnded | packages/cc-lhc/src/observation/async-work.ts:235-249 | a rollout that scheduled one wakeup and then another, observed again with the second one seeded from the record: the first ends the second, live as it is |
| Handoff.FencesCollideIff | packages/cc-lhc/src/continuity/handoff.ts:19-22 | two relaunches share an output file exactly when they are of one generation and their names look the same after sanitising |
| Handoff.Machine.Start | packages/cc-lhc/src/continuity/handoff.ts:140-186 | the output is created, the monitor started and the relaunch recorded in that order, as far as the process gets |
| Handoff.Machine.CarryOver | packages/cc-lhc/src/continuity/handoff.ts:91-199 | an item is adopted, listed, re-armed, relaunched, found relaunched or failed, with the effects of its plan as far as the process gets |
| Handoff.Machine.InvokeCarryover | packages/cc-lhc/src/continuity/handoff.ts:78-208 | all items in order and then the closure, or the effects before the crash; the answer says whether the generation was closed |
| Handoff.ReportsFit | packages/cc-lhc/src/continuity/handoff.ts:90-199 | which report each item of an invocation gets, from its identity, what stands where and the generation's state at its turn: adopted exactly when the adopted output is a file, listed for agents and workflows, re-armed for wakeups, and for monitors relaunched, found relaunched or failed |
| Handoff.EndsExactlyTheRefused | packages/cc-lhc/src/continuity/handoff.ts:190-198 | an invocation ends an item exactly when it was not carried and the generation was open, with that reason, and ends nothing else |
| Handoff.PlainAre | packages/cc-lhc/src/continuity/handoff.ts:19-22 | the characters that stay in the name of an output file |
| Handoff.PlanStarts | packages/cc-lhc/src/continuity/handoff.ts:110-188 | however far the process gets with an item, it starts at most that item's monitor, behind an output that was not there |
| Handoff.NotStartedAgain | packages/cc-lhc/src/continuity/handoff.ts:110-151 | a monitor whose relaunch is of another generation or whose output exists is not started |
| Handoff.InvocationKeepsFenced | packages/cc-lhc/src/continuity/handoff.ts:78-208 | an invocation, crashed or not, keeps every started monitor behind an output file of its own |
| HandoffRuns.StartedAtMostOnce | packages/cc-lhc/src/continuity/handoff.ts:84-206 | over any run of snapshots, store steps and invocations with crashes, a monitor is started at most once per launch and generation |
| HandoffRuns.RecordedRelaunchStays | packages/cc-lhc/src/continuity/store.ts:755-757 | while nothing is cleaned up a recorded relaunch stays, later snapshots hold it, and no later generation starts the monitor |
| HandoffRuns.RelaunchedIsNeverRestarted | packages/cc-lhc/src/continuity/handoff.ts:110-122 | from any run at whose end a relaunch is recorded, no further run starts that monitor for a generation taken later |
| HandoffRuns.LookalikeIsNotStarted | packages/cc-lhc/src/continuity/handoff.ts:140-152 | of any two launches whose sanitised names are the same, once one has its output file the other is reported as relaunched and not started |
| HandoffRuns.LookalikeRun | packages/cc-lhc/src/continuity/handoff.ts:78-208 | for any two such names a run in which the first is started, the second is reported as relaunched, and no further run starts it for that generation |
| HandoffRuns.LookalikeIsNeverStarted | packages/cc-lhc/src/continuity/handoff.ts:110-151 | over any run, of two such launches only one is ever started for a generation |
| HandoffRuns.LaunchNamesMayLookAlike | packages/cc-lhc/src/observation/async-work.ts:102-102 | two different launch names of the program's own shape that sanitise alike |
| HandoffRuns.EveryOutputHasItsMonitorIff | packages/cc-lhc/src/continuity/handoff.ts:140-186 | over any run every output file has its started monitor exactly when no process crashed between the two and no monitor failed to start |
| HandoffRuns.WrongReportIffLookalike | packages/cc-lhc/src/continuity/handoff.ts:140-152 | over any run with neither, an item reported as relaunched was not started exactly when a monitor whose name looks the same was |
| HandoffRuns.CrashBehindTheOutput | packages/cc-lhc/src/continuity/handoff.ts:140-186 | a run in which a process crashes behind the output, and the next one reports the monitor as relaunched though none was started |
| Delivery.FormatResultContext | packages/cc-lhc/src/continuity/delivery.ts:50-81 | the notice: ten results with their details, twenty events, and notes of what had to wait |
| NoticeTexts.NoticeTells | packages/cc-lhc/src/continuity/delivery.ts:30-81 | read line by line, a notice tells exactly this: the first ten results by name, family, label and outcome, each with its detail, how many more wait, the first twenty events by key, label and text, and whether more wait |
| NoticeTexts.ResultLineTells | packages/cc-lhc/src/continuity/delivery.ts:44-64 | the fields of a result's line read back as that result |
| Delivery.DeliveredResultKeys | packages/cc-lhc/src/continuity/delivery.ts:87-111 | the keys of all blocks that begin with the header, each once, in order |
| Delivery.TokenNamedIff | packages/cc-lhc/src/continuity/delivery.ts:15-17 | a line names a key exactly when a token stands behind its first word and the dot behind the token |
| Delivery.OnlyTheHooksAttachmentCounts | packages/cc-lhc/src/continuity/delivery.ts:87-111 | only what the prompt hook attached to the session's own rollout is read |
| Delivery.KeysReadBackAreTheKeysShown | packages/cc-lhc/src/continuity/delivery.ts:44-111 | for whitespace-free names and any labels, details and texts, what the parser reads from the notice is exactly the keys of the results and events shown |
| Delivery.ReadBackExactlyTokens | packages/cc-lhc/src/continuity/delivery.ts:14-17 | every shown result is read back exactly when all shown names are non-empty and free of white space |
| DeliveryRounds.RoundDelivers | packages/cc-lhc/src/continuity/delivery.ts:50-111 | a notice shows the first ten pending results, and acknowledging its text leaves exactly the others pending |
| DeliveryRounds.EveryResultShownOnce | packages/cc-lhc/src/continuity/store.ts:782-784 | over any rounds, with results and events arriving between, what was shown and then what still waits is everything, once, in order |
| DeliveryRounds.EnoughRoundsDeliverAll | packages/cc-lhc/src/continuity/delivery.ts:50-64 | each round takes ten off |
| Notices.AcknowledgingByRow | packages/cc-lhc/src/continuity/store.ts:982-995 | acknowledging keys of results and events mixed changes each row on its own: a result by its name, a relaunched item's offset by its events' keys |
| Notices.AdvancedIsFurthest | packages/cc-lhc/src/continuity/store.ts:985-992 | an offset ends at the furthest of where it was and the ends its keys name, in whatever order and however often |
| Notices.NoticeSeenBack | packages/cc-lhc/src/continuity/tasks-cli.ts:87-93 | a notice printed from the pending rows and the events owed, read back and acknowledged: the rows become those of a delivery round, and each relaunched item's offset moves by its own part of the notice |
| Signatures.MergeSignatures | packages/cc-lhc/src/intake/replay-dedupe.ts:69-84 | the list merge keeps first occurrences and the last five hundred |
| Signatures.SignatureTable.AppendThreadSignatures | packages/cc-lhc/src/intake/lineage-db.ts:575-603 | inserts under running numbers, ignoring signatures that are there, and trims |
| Signatures.SignatureTable.LoadThreadSignatures | packages/cc-lhc/src/intake/lineage-db.ts:631-640 | the rows by ascending number |
| Signatures.KeptIsTrimmed | packages/cc-lhc/src/intake/lineage-db.ts:562-573 | keeping the five hundred highest numbers is keeping the end of the list |
| Signatures.ListingIsUnique | packages/cc-lhc/src/intake/lineage-db.ts:635-638 | the rows have one listing only |
| Signatures.TableRefinesList | packages/cc-lhc/src/intake/lineage-db.ts:575-640 | after any run of appends, with duplicates and gaps in the numbers, loading gives what merging the same batches into the earlier load gives, and at most five hundred rows are kept |
| Receipts.SessionReceipts.Begin | packages/cc-lhc-mod/sidecar/src/receipts.ts:85-88 | a new install begins and every installed row stays known |
| Receipts.SessionReceipts.Clear | packages/cc-lhc-mod/sidecar/src/receipts.ts:96-100 | nothing is left to match and every installed row stays known |
| Receipts.SessionReceipts.IsProjection | packages/cc-lhc-mod/sidecar/src/receipts.ts:102-109 | a row is a projection exactly when it is known or claimed now, and the claim is saved |
| Receipts.InstalledNeverShrinks | packages/cc-lhc-mod/sidecar/src/receipts.ts:76-109 | over every run of begin, clear and claim no installed row is forgotten |
| Receipts.MatcherIsExact | packages/cc-lhc-mod/sidecar/src/receipts.ts:47-55 | over a pass of fresh rows the claimed rows match the next expected messages in order, and n more are claimed exactly when the next n are a subsequence of the rows |
| LaunchArgv.NormalizeLaunchArgv | packages/cc-lhc/src/intake/launch-session.ts:61-174 | the loop takes selectors and unsupported flags out, passes through what follows the double dash, and fails on a session id that is no uuid |
| LaunchArgv.TakeArgument | packages/cc-lhc/src/intake/launch-session.ts:82-171 | what one argument, with its value, yields |
| LaunchArgv.SpelledReadsBack | packages/cc-lhc/src/intake/launch-session.ts:61-174 | over a grammar whose words can be told apart: any list of options, selectors and words, spelled out, is normalised to exactly its arguments, its selectors and its refusals, in order |
| LaunchArgv.NoValueBehind | packages/cc-lhc/src/intake/launch-session.ts:82-171 | where no value stands, the resume word is a bare selector and the session word is refused |
| LaunchArgv.OnlyUuidsAreSessionIds | packages/cc-lhc/src/intake/launch-session.ts:150-171 | what is no uuid is refused as a session id, joined or behind its word |
| LaunchArgv.UuidIff | packages/cc-lhc/src/intake/argv.ts:1-5 | a session id is a uuid exactly when it is five groups of hex digits, eight, three times four and twelve, with a hyphen between |
| LaunchArgv.PlainIff | packages/cc-lhc/src/intake/launch-session.ts:61-174 | an argument is a plain one exactly when it is none of the words, no unsupported flag with or without a value, and no selector with one; the short resume name with an empty value is plain |
| LaunchArgv.WellWordedTellsApart | packages/cc-lhc/src/intake/launch-session.ts:61-174 | distinct words without an equals sign can be told apart |
| LaunchArgv.ClaudeIsWellWorded | packages/cc-lhc/src/intake/argv.ts:11-28 | the words of the supported program are distinct and hold no equals sign |
| LaunchArgv.ChildArgvReadsBack | packages/cc-lhc/src/intake/launch-session.ts:404-406 | normalising a child's arguments gives the same rest and passthrough and one uuid resume selector |
| LaunchArgv.SplitLaunchArgv | packages/cc-lhc/src/intake/launch-session.ts:491-542 | the loop puts every token of the rest on the list it is taken for |
| LaunchArgv.PassedWithoutDashes | packages/cc-lhc/src/intake/launch-session.ts:491-501 | of what was passed through, the double dashes go and all else becomes prompt, in order |
| LaunchArgv.PrintFlagIff | packages/cc-lhc/src/intake/launch-session.ts:474-477 | a print flag is the short or long one, alone or with a value |
| LaunchArgv.EveryTokenAccountedFor | packages/cc-lhc/src/intake/launch-session.ts:491-542 | each token occurs on the lists as often as in the rest, and only print flags are on none |
| LaunchArgv.SplitIsIdempotent | packages/cc-lhc/src/intake/launch-session.ts:491-542 | splitting a split's options gives them back, with no prompt and nothing dropped |
| LaunchArgv.ReplacementReadsBack | packages/cc-lhc/src/intake/launch-session.ts:408-414 | a replacement child's arguments read back as the options alone and one uuid selector, and the options hold no prompt |
| LaunchArgv.ReplacementHoldsNoPromptIff | packages/cc-lhc/src/intake/launch-session.ts:408-414 | read as a whole they hold no prompt exactly when the launch does not end in an option that waits for its value |
| LaunchArgv.ClaudeResumesBySelector | packages/cc-lhc/src/intake/argv.ts:11-28 | the words of the supported program are such that its resume word is read as the selector |
| LaunchArgv.ClaudeResumeIsUnknown | packages/cc-lhc/src/intake/launch-session.ts:422-472 | its option table does not know the selector |
| LaunchArgv.ModelWithoutValue | packages/cc-lhc/src/intake/launch-session.ts:408-414 | a launch that ends in the model option without its value leaves the session id as a prompt |
| ContextPolicy.ParseContextPolicyPartial | packages/cc-lhc/src/governor/config.ts:58-125 | each field is taken exactly when it is given and of its kind, and reported under its name exactly when given and not taken |
| ContextPolicy.WrittenReadsBack | packages/cc-lhc/src/governor/config.ts:58-125 | a layer written under the configuration's own keys is read back, whatever it says |
| ContextPolicy.KnownAreNamed | packages/cc-lhc/src/governor/config.ts:58-72 | known are exactly the keys that stand for a field |
| ContextPolicy.TakenIsGiven | packages/cc-lhc/src/governor/config.ts:58-125 | what is taken is of its kind and stands under its own key |
| ContextPolicy.Resolution.ApplyPartial | packages/cc-lhc/src/governor/config.ts:146-163 | the layer's fields replace the policy's and their source and origin are noted, the others stay |
| ContextPolicy.ValidateContextPolicy | packages/cc-lhc/src/governor/config.ts:201-230 | no error exactly when every field is valid, the bounds leave the runway and a prune that is on has a target below its threshold; each error says its field or its rule |
| ContextPolicy.RuleFieldsAreThose | packages/cc-lhc/src/governor/config.ts:165-199 | the fields a broken rule sends back are exactly those on which breaking it can hang |
| ContextPolicy.Resolution.ApplyRule | packages/cc-lhc/src/governor/config.ts:244-260 | a broken rule sends its configured fields back to the built-in values, each with one report under the name of the layer it came from |
| ContextPolicy.SettleCoherence | packages/cc-lhc/src/governor/config.ts:232-264 | the loop ends coherent within its fixed bound, with one report for each field reverted, under its layer's name |
| ContextPolicy.RevertingReduces | packages/cc-lhc/src/governor/config.ts:240-263 | a pass that reverts strictly reduces the configured fields |
| ContextPolicy.QuietPassIffCoherent | packages/cc-lhc/src/governor/config.ts:240-263 | a pass reverts nothing exactly when the policy is coherent |
| ContextPolicy.BoundIsEnough | packages/cc-lhc/src/governor/config.ts:240-263 | one pass more than there are fields always suffices |
| ContextPolicy.LoadContextPolicy | packages/cc-lhc/src/governor/config.ts:275-313 | for any layers the result is valid and fits together; a field marked built-in holds the built-in value, any other the topmost layer's; nothing is reverted when the layers fit together; a layer is reported for a field exactly when its value was not taken or it was topmost and lost the field |

## Left out

- SQLite, files, sockets, HTTP and processes are maps, byte sequences, sets of paths and steps whose outcome is a parameter; a store call that throws because the database failed is not modelled.
- The native addon: whether a process is gone or a file has its identity is a parameter.
- JSON and UTF-8 decoding, hashing and regular expressions: fingerprints and result copy names are taken as unique to what they are made of, line formats are modelled on sequences of characters, and a text's characters are code points.
- Rows of other threads in the shared tables: every statement is about one thread, as every query filters on it.
- The order in which items are listed, where no result depends on it: snapshots and closures treat the items as a set, cleanup takes the listing as a sequence.
- Retained hosts of generations, `stopItem`, `itemStatus`, `carriedOpenWork` and the transitions named for display.
- `qualifyActiveItems`, `reconcileAdoptedShells` and `settleCarriedWork`: they act on the record only through store steps that the runs contain.
- ContinuityRuns.EveryRunStaysSound: a snapshot, a closure and the cleanup of one item are one step each; steps of other processes come between them, not inside them. What a crash inside a cleanup leaves is the subject of `CrashedCleanupFinishes`.
- Cleanup.ReadsAreKeptIffNotCopied: the output an item owns is never itself the file its copy goes to, as paths are made.
- Cleanup.ReadItemOutput: a verified file that cannot be opened, and a file that changes during a read, are not modelled.
- OutputReads.CopyBounded: a source that shrinks while it is copied, where a read returns nothing.
- MonitorEvents.PendingMonitorEvents: whether a decoded piece is blank is a parameter, and the bytes of the event are kept undecoded.
- MonitorRounds.EveryEventToldInOrder: the listed items and which of them are relaunched monitors are fixed for a run, and none is removed.
- Notices.NoticeSeenBack: the text of an event is decoded by a parameter, its end is a safe integer, and names are tokens that do not parse as event keys.
- DeliveryRounds.EveryResultShownOnce: names are taken to be tokens that do not parse as event keys, as launch names are made; results are listed in the order of their arrival.
- Delivery.DeliveredResultKeys: an event offset above the safe integers is read exactly, where the program rounds it.
- NoticeTexts.NoticeTells: names are tokens without a middle dot, as launch names are made.
- ReplayLedger.ReplayControls: which calls fail, settle meanwhile or are still in flight is a parameter; what a failed call may have done before it failed is not modelled.
- SessionPipeline.InputsKeepTheirOrder: uuids are distinct, whether the CLI reports lifecycle is fixed for a run, what runs between two waits is one step, and closing the session is not modelled.
- SessionPipeline.QueuedInputWaitsIff: a CLI is taken to use tools and give results only once it has taken a prompt of its generation.
- CaptureOutbox.Outbox.Drain: the wait for the background queue, the retry timer and the log are not modelled, an entry stands for its session and uuid, and a replacement that another request starts has been given the last bind by the end of the wait.
- Handoff.Machine.InvokeCarryover: resolving a monitor's launch, the shell and the log; the text of a failure is a parameter; all invocations use one output directory.
- HandoffRuns.StartedAtMostOnce: no cleanup comes between, since it removes output files.
- Observe.FoldReobservedChangesNothing: how lines become observations is not modelled; the label of an item is given with its launch.
- Observe.ReobservingFromRecordIff: a key the first fold was seeded with and the second is not is opened under the name it had, as task ids are made; how launch names split into keys is not modelled.
- Receipts.MatcherIsExact: rows not yet known, each with a uuid of its own; the receipt file is a value.
- LaunchArgv.NormalizeLaunchArgv: the words of the grammar and the option table are values, `CLAUDE_GRAMMAR` and `CLAUDE_OPTIONS` hold the program's; resolving the session and its picker are left out.
- ContextPolicy.LoadContextPolicy: paths, the order of unknown fields and the texts of reports.
- The panel, commands, notes and other texts, the inference workers, the file lease, the governor's decisions, mapping of rollout lines to events, and code below the host packages would add other subjects and not harder properties of these.
