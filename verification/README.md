# Verified model of the microscope indexer

The indexer follows a Solana program through RPC polling, alone or beside a Yellowstone
stream, and turns its transactions into log records. A poller keeps one slot cursor per
monitored address and rescans a replay window behind it; a checkpoint and a journal of
processed transactions carry its progress across crashes. This project models that
recovery protocol, the objects that carry it out, and five smaller pieces with promises
of their own: alert rules compiled to log queries, alert tombstones, the processor's
bounded deduplication, backfilling, and closing dashboard gaps.

The main results:

- **Nothing is lost.** Once a checkpoint is on disk, in every run from there, under any
  interleaving of polls, stream deliveries, pipeline steps, failed appends, saves,
  compactions and crashes, a transaction in scope is recorded, durably quarantined, or
  recoverable from the disk alone. Restarting, polling once cleanly and draining the
  pipeline records it.
- **Repetition is bounded, exactly.** Without a stream, and as long as every restart finds
  a checkpoint and the journal as it was written, a transaction is recorded at most once,
  unless it lies two windows below a high-water mark or was kept from the journal after it
  was logged, by a crash in between or by an append that failed. The first poll after a
  restart sends a transaction if and only if neither checkpoint nor journal suppresses it,
  some address still reaches it, its fetch converts, and nothing to be fetched again
  shares an address with it.
- **The code takes these steps.** The paged discovery, the poll, the state objects, the
  journal, the checkpoint store and the recovery loop are imperative, each proved against
  a specification, and a turn of the loop is proved to be a path of the protocol. A
  deployment of such objects, operated through any sequence of turns, deliveries, pipeline
  steps, deaths and starts, keeps both promises of its two files as they stand on disk.
- **Files survive.** A save cut short anywhere leaves the old or the new checkpoint; of a
  torn journal exactly the entries whose lines are whole are read, and at most one more
  with fewer slot digits; the journal's content over any history is what was recorded less
  what was later dropped.
- **Compiled alerts mean what the rules say**, including missing fields, failed numeric
  conversions and the zero fallback.

## Layout

| file | models |
|---|---|
| `Primitives.dfy`, `Text.dfy`, `Filtering.dfy`, `Sorting.dfy` | machine integers, decimals, lines, filtered lists, a stable sort |
| `Signatures.dfy` | paged discovery |
| `Progress.dfy` | the poller's memory and its quarantine |
| `Delivered.dfy` | the stream's hand-over and the relay |
| `PollSpec.dfy`, `Poller.dfy` | one poll, as a relation and as code |
| `PollFacts.dfy` | what polls do, in the endpoint's own terms |
| `Protocol.dfy` | the whole system as a state machine |
| `Interleaving.dfy` | why a poll may be one step of it |
| `NoLoss.dfy`, `AtMostOnce.dfy`, `Resend.dfy` | its theorems |
| `Shipped.dfy`, `ShippedJournal.dfy` | the journal's text, and the journal over time |
| `Checkpoint.dfy` | the checkpoint document, its disk and its store |
| `Refinement.dfy`, `Runtime.dfy` | the poll and the recovery loop as protocol steps |
| `Indexing.dfy` | a deployment: processes over two files, and everything around the loop |
| `Loki.dfy`, `Alerting.dfy`, `Tombstones.dfy` | log queries, rules and their compilation, deletions |
| `Processor.dfy`, `Backfill.dfy`, `Dashboard.dfy` | the remaining pieces |

## Assumptions

- An endpoint that answers for an address has seen every slot up to some context at or
  above the minimum it was asked for, and lists that address's transactions up to there,
  each once, newest first (`Refinement.Serves`). Confirmed transactions keep their slot.
- Signatures have an injective text of at least 64 characters without blanks
  (`Text.Lawful`); JSON encoding is injective.
- When a start clears the journal, removing or truncating it works (`Removal.Gone`);
  `ShippedJournal.AgreementIsKept` says what a removal that fails outright breaks.
- Both pipeline counters exist in the loop's theorems. `Runtime.PipelineDrained` itself
  treats a missing counter as drained, as the code does.
- Numbers in log records are exact; Loki's float64 rounding shows only in the bound on
  integer conditions.

## Where the documentation and the code part ways

- The project's README (lines 246-250) says that the checkpoint retains the signatures
  its replay window covers, and concludes that transactions present in the last durable
  checkpoint are not re-emitted after a restart. The conclusion holds, for those that are
  present: `Resend.PresentIsNotSent`. The retention does not: a loaded checkpoint is saved
  again with its cursors already rewound but without the signatures that uncovers, so
  after one such restart the file lacks a recorded transaction within its reach of two
  windows, and after two restarts one within a single window
  (`Resend.ResavedCheckpointsForget`, for every window). The next poll then records it
  again (`Resend.RestartsCanRecordTwice`). What was recorded within reach is retained where
  the cursors on disk stand at the high-water mark
  (`AtMostOnce.ReachIsRetainedAtTheHighWater`), and a poll resumed from there repeats
  nothing (`AtMostOnce.ResumingAtTheHighWaterSendsNothingTwice`).
- A duration whose product exceeds 64 bits wraps in a release build and is accepted
  (`Backfill.SomeTextWraps`); the total is exact if and only if it fits
  (`Backfill.TotalIsExactIffItFits`).
- Cursors are not monotone: a lagging head with a non-empty batch moves one back, by at
  most a window (`Signatures.NextCursorRewindsAtMostOneWindow`).
- A journal that could be neither removed nor truncated stays in use, and
  `ShippedJournal.AgreementIsKept` is an equivalence for that reason.

## Model

| member | source | states |
|---|---|---|
| Signatures.DiscoverSignatures | crates/microscope-indexer/src/rpc_polling/signatures.rs:36-96 | the page loop terminates and returns what one scan of the whole index would, wherever pages end; the batch commits at least the head and whatever it lists first, at least the old cursor if it lists nothing, and nothing else; it fails only on an outage or an unparsable signature above the floor |
| Signatures.AppendSignaturePage | crates/microscope-indexer/src/rpc_polling/signatures.rs:110-128 | one page extends the result by its scan and reports the floor exactly when some entry lies at or below it |
| Signatures.ScanFindsExactlyWhatIsAboveTheFloor | crates/microscope-indexer/src/rpc_polling/signatures.rs:43-96 | on a newest-first index the scan finds exactly the entries above the floor, the first being the newest slot |
| Signatures.NextCursorRewindsAtMostOneWindow | crates/microscope-indexer/src/rpc_polling/signatures.rs:88-96 | past the plausibility guard a committed cursor is at least the head and at least the old one less a window |
| Signatures.OmittedSlotStaysAboveNextFloor | crates/microscope-indexer/src/rpc_polling/signatures.rs:98-105 | whatever a replica at the minimum context omits stays strictly above the next poll's floor once the cursor moved |
| Signatures.LaggingReplicasMayAnswer | crates/microscope-indexer/src/rpc_polling/signatures.rs:98-105 | a replica may answer iff it trails the head by at most 32 slots and at most one window |
| Signatures.WholeScansCommit | crates/microscope-indexer/src/rpc_polling/signatures.rs:36-96 | a whole scan commits no less than the head and, on a newest-first index, than every slot it lists, all of which lie above the floor |
| Progress.QuarantineOverTraces | crates/microscope-indexer/src/rpc_polling/progress.rs:45-96 | over any trace, the record reflects only the outcomes since the last success: quarantined iff restored or poisoned the maximum number of times, attempts counted up to there; transient failures count for nothing |
| Progress.QuarantineIsReportedOnce | crates/microscope-indexer/src/rpc_polling/progress.rs:57-69 | a new quarantine is reported once per stretch, never after a restore |
| Progress.PollingState.RecordPoisonFailure | crates/microscope-indexer/src/rpc_polling/progress.rs:45-69 | one failure moves the map and the disposition as the trace semantics says |
| Progress.PollingState.RestoreQuarantined | crates/microscope-indexer/src/rpc_polling/progress.rs:86-96 | every restored signature, and no other, becomes quarantined with saturated attempts |
| Progress.PollingState.AdvanceReadyCursors | crates/microscope-indexer/src/rpc_polling/progress.rs:128-148 | cursors of batches without a retry move, the others stay; reports whether one with signatures moved |
| Progress.AdvancedPointwise | crates/microscope-indexer/src/rpc_polling/progress.rs:128-148 | per address: the batch's next cursor if nothing of it retries, the old one otherwise |
| Delivered.Forward | crates/microscope-indexer/src/datasource.rs:176-193 | what is recorded is exactly the transactions the pipeline took, in order, while recording is on |
| Delivered.RelayConserves | crates/microscope-indexer/src/datasource.rs:176-193 | over any interleaving with drain and stop, recorded deliveries were sent before, and none is lost or drained twice while recording is on |
| Delivered.StopAdmitsAtMostOneMore | crates/microscope-indexer/src/delivered.rs:32-55 | after the flag is cleared at most one delivery already past its check is still recorded |
| Delivered.DeliveredSignatures.Drain | crates/microscope-indexer/src/delivered.rs:39-48 | takes every pending delivery in order and leaves none |
| Poller.MergeBatch | crates/microscope-indexer/src/rpc_polling.rs:216-236 | the contexts hold exactly the listings seen; the error is a signature listed at two slots |
| Poller.DiscoverAll | crates/microscope-indexer/src/rpc_polling.rs:178-238 | one whole scan per address and contexts that describe them; it fails only if some index, boundary or slot is not in order |
| Poller.CheckHistoryBoundary | crates/microscope-indexer/src/rpc_polling.rs:153-176 | verified only with a cursor and on the first check or sixty seconds after the last; an unanswered request fails as such, unavailable history is reported exactly when the boundary lies above the lowest cursor's next slot, and anything else is verified |
| Poller.ProcessFetchedTransaction | crates/microscope-indexer/src/rpc_polling.rs:438-466 | a conversion is ready and clears the record, a transient failure changes nothing, and anything else counts once, quarantined at the fifth |
| Poller.RetainReady | crates/microscope-indexer/src/rpc_polling.rs:307-315 | keeps exactly the transactions none of whose addresses is blocked |
| Poller.SendAll | crates/microscope-indexer/src/rpc_polling.rs:324-332 | sends in order up to the closing of the channel and suppresses exactly what it sent |
| Poller.FetchAndSend | crates/microscope-indexer/src/rpc_polling.rs:240-332 | sends every sendable transaction once, oldest slot first, and remembers what it sent or gave up |
| Poller.Poll | crates/microscope-indexer/src/rpc_polling.rs:116-358 | the whole poll does all of PollSucceeds or stops as PollFails says; it refuses exactly when some cursor lies more than a window ahead of the head, fails only for a reason the endpoint gave, and against a healthy endpoint with an open channel it succeeds |
| PollSpec.FailedPollsAreSafe | crates/microscope-indexer/src/rpc_polling.rs:116-358 | whatever stopped a poll, no existing cursor moved, nothing suppressed was forgotten, and what is newly suppressed was delivered, sent or quarantined |
| PollFacts.SentExactly | crates/microscope-indexer/src/rpc_polling.rs:307-332 | a successful poll sends exactly the transactions fetched and converted none of whose addresses listed one to be fetched again, each once, oldest slot first |
| PollFacts.TimeoutsChangeNothing | crates/microscope-indexer/src/rpc_polling.rs:461-464 | a transaction whose fetch failed transiently keeps its record, is neither sent nor suppressed, and holds the cursor of every address that listed it |
| PollFacts.FiveBadAnswersQuarantine | crates/microscope-indexer/src/rpc_polling.rs:438-465 | over any number of polls a transaction is quarantined iff five answers since it last converted were permanent failures or did not convert |
| PollFacts.TimeoutsNeverQuarantine | crates/microscope-indexer/src/rpc_polling.rs:461-464 | transient failures alone, however many, never leave a record |
| PollFacts.CursorsMoveUnlessHeld | crates/microscope-indexer/src/rpc_polling.rs:334-334 | an address keeps its cursor iff it listed a transaction to be fetched again, and otherwise takes its batch's |
| PollFacts.PollsCommit | crates/microscope-indexer/src/rpc_polling/signatures.rs:88-96 | an address with nothing to be fetched again ends at the head, a listed slot or its old cursor, never behind the head, what it listed or, if it listed nothing, its old cursor |
| PollFacts.SuppressedWhileReached | crates/microscope-indexer/src/rpc_polling.rs:337-346 | what is suppressed stays so exactly while some cursor less two windows lies below it |
| PollFacts.SentIsSuppressedWhileReached | crates/microscope-indexer/src/rpc_polling.rs:326-346 | the same of what the poll sends |
| PollFacts.GivenUpIsSuppressedWhileReached | crates/microscope-indexer/src/rpc_polling.rs:282-346 | the same of what it quarantines |
| PollFacts.DeliveredIsNotSentAgain | crates/microscope-indexer/src/rpc_polling.rs:98-126 | a poll fetches exactly what is listed and was neither suppressed nor delivered by the stream before it, and sends nothing delivered |
| NoLoss.PollKeepsWitness | crates/microscope-indexer/src/rpc_polling.rs:307-346 | a transaction held back by a poll keeps an address whose cursor still reaches it, even where other addresses advanced past it |
| NoLoss.StepIsSafe | crates/microscope-indexer/src/rpc_polling/runtime.rs:149-259 | the safety invariant is inductive over every step of the protocol, crashes included |
| NoLoss.NoTransactionIsLost | crates/microscope-indexer/src/rpc_polling/runtime.rs:149-259 | in every state of every run that has a checkpoint on disk, each transaction in scope is recorded, durably quarantined, or recoverable from disk |
| NoLoss.RecoveryRecordsEverything | crates/microscope-indexer/src/rpc_polling/runtime.rs:177-270 | after any crash with a checkpoint, one clean poll and a drained pipeline record everything the replicas had reached |
| NoLoss.ScopeIsKept | crates/microscope-indexer/src/rpc_polling/runtime.rs:163-194 | with a checkpoint, no later step shrinks what the deployment undertook to record |
| NoLoss.DrainedMemoryIsASnapshot | crates/microscope-indexer/src/rpc_polling/runtime.rs:218-231 | memory becomes a safe checkpoint exactly when the channel is empty and everything received is processed |
| NoLoss.FreshStartUndertakesTwoWindows | crates/microscope-indexer/src/rpc_polling/runtime.rs:150-162 | without a checkpoint the scope is exactly what lies above two windows behind the first head |
| AtMostOnce.RecordedAtMostOnce | crates/microscope-indexer/src/rpc_polling.rs:337-398 | in RPC mode, over unlimited restarts that find a checkpoint and an undamaged journal, a transaction is recorded at most once, unless it lies two windows below the high-water mark or a crash or a failed append kept it from the journal after it was logged |
| AtMostOnce.OnlyFadedIsSentAgain | crates/microscope-indexer/src/rpc_polling.rs:393-398 | whatever any poll, completed or interrupted, sends a second time had faded from suppression |
| AtMostOnce.ReachIsRetainedAtTheHighWater | crates/microscope-indexer/src/rpc_polling/runtime.rs:249-252 | where the cursors on disk stand at the high-water mark, whatever was recorded within their reach, and not kept from the journal, is in the journal or about to be |
| AtMostOnce.CompactionKeepsTheReach | crates/microscope-indexer/src/rpc_polling/runtime.rs:249-252 | compacting the journal against a checkpoint drops nothing that a restart from it could list again |
| AtMostOnce.ResumingAtTheHighWaterSendsNothingTwice | crates/microscope-indexer/src/rpc_polling/runtime.rs:249-252 | the first poll after a restart whose checkpoint stands at the high-water mark, completed or interrupted, re-sends nothing recorded but what was kept from the journal |
| AtMostOnce.PollsRewindAtMostOneWindow | crates/microscope-indexer/src/rpc_polling.rs:372-391 | a whole poll moves no cursor back by more than one window |
| Resend.FirstPollSendsExactly | crates/microscope-indexer/src/rpc_polling/runtime.rs:163-194 | after a restart a poll sends a transaction iff checkpoint and journal do not suppress it, some address reaches it two windows back, its fetch converts, and nothing to be tried again shares an address with it |
| Resend.PresentIsNotSent | README.md:246-250 | what the loaded checkpoint or the restored journal holds is not sent by the first poll, completed or interrupted |
| Resend.ResavedCheckpointsForget | README.md:246-250 | for every window, a run whose checkpoint, saved again after a restart, lacks a recorded transaction within its two-window reach, and one after two restarts that lacks one within a single window |
| Resend.RestartsCanRecordTwice | crates/microscope-indexer/src/rpc_polling/checkpoint.rs:157-167 | for every window, a run with two restarts and no poll between them that records a transaction twice |
| Shipped.ReadJournal | crates/microscope-indexer/src/shipped.rs:273-308 | the reading loop yields the header and every entry that parses, in order |
| Shipped.LinesThatAreEntries | crates/microscope-indexer/src/shipped.rs:310-313 | a line is an entry iff it is a signature's text, a blank and a number of 64 bits |
| Shipped.LinesAreReadApart | crates/microscope-indexer/src/shipped.rs:287-300 | each line is read on its own: one that does not parse costs no other |
| Shipped.LinesThatAreHeaders | crates/microscope-indexer/src/shipped.rs:282-286 | a header is what follows the prefix on the first line |
| Shipped.JournalReadsBack | crates/microscope-indexer/src/shipped.rs:191-209 | a header and entries read back exactly as written |
| Shipped.TornLine | crates/microscope-indexer/src/shipped.rs:310-313 | a cut line still parses exactly when the cut falls inside its slot digits, with the same signature and a slot no larger |
| Shipped.TornHeaderYieldsNothing | crates/microscope-indexer/src/shipped.rs:273-308 | a prefix that ends within the header's line yields no entries |
| Shipped.TornJournalYieldsWhatSurvives | crates/microscope-indexer/src/shipped.rs:273-313 | any longer prefix yields the header and exactly the entries whose lines are whole, and one more with the digits before the cut if the cut falls inside a slot |
| Shipped.TornJournalIsSafe | crates/microscope-indexer/src/shipped.rs:273-313 | so every entry whose line is whole is returned as written, in order, and at most one more, really being written, with a slot no larger |
| ShippedJournal.Journal.Open | crates/microscope-indexer/src/shipped.rs:176-200 | an empty file is stamped with the identity before any entry; any failing call, in the sense below, leaves what was there |
| ShippedJournal.Journal.Append | crates/microscope-indexer/src/shipped.rs:170-210 | appends the entry after the stamp, or reports failure with no entry added |
| ShippedJournal.Journal.Record | crates/microscope-indexer/src/shipped.rs:92-103 | an entry already written is skipped; a failed append leaves the signature journalable |
| ShippedJournal.AppendsUnlessItFails | crates/microscope-indexer/src/shipped.rs:170-210 | an append succeeds unless its write fails, or the file must be opened and cannot be, or is new and cannot be stamped |
| ShippedJournal.RecordedIsInTheFile | crates/microscope-indexer/src/shipped.rs:92-103 | recording a new transaction puts it last, behind the identity if the file was empty |
| ShippedJournal.Journal.Purge | crates/microscope-indexer/src/shipped.rs:212-227 | the file is emptied unless removing and truncating both fail; nothing counts as written |
| ShippedJournal.Journal.Restore | crates/microscope-indexer/src/shipped.rs:105-132 | hands back the entries of a journal with this identity and clears any other |
| ShippedJournal.Journal.Discard | crates/microscope-indexer/src/shipped.rs:136-153 | clears the journal and adopts the identity |
| ShippedJournal.Journal.Compact | crates/microscope-indexer/src/shipped.rs:229-268 | keeps exactly the entries above the slot, under the same header, or changes nothing on failure |
| ShippedJournal.ReplacedFilesAreClosed | crates/microscope-indexer/src/shipped.rs:212-268 | no handle outlives the file it was opened on |
| ShippedJournal.JournalIsWhatLasts | crates/microscope-indexer/src/shipped.rs:92-268 | over any history the file reads back, in order, as everything recorded less exactly what a later event dropped |
| ShippedJournal.EntryIsReadBackIffItLasts | crates/microscope-indexer/src/shipped.rs:92-268 | an entry is read back iff some recording added it and nothing since dropped it |
| ShippedJournal.AgreementIsKept | crates/microscope-indexer/src/shipped.rs:92-268 | written signatures equal the file's, each once, under the current identity: kept by every event iff no removal fails outright |
| ShippedJournal.RunsAgree | crates/microscope-indexer/src/shipped.rs:92-268 | the same over whole histories |
| Checkpoint.WrittenDocumentLoads | crates/microscope-indexer/src/rpc_polling/checkpoint.rs:116-235 | a written document loads under its identity with its sets intact and every cursor one window back |
| Checkpoint.OtherDeploymentsAreRefused | crates/microscope-indexer/src/rpc_polling/checkpoint.rs:279-312 | it is refused as a mismatch by exactly the other identities |
| Checkpoint.AnyDocumentLoads | crates/microscope-indexer/src/rpc_polling/checkpoint.rs:127-189 | any readable document is a mismatch iff one of its four identity fields differs, and otherwise corrupt iff its cursors are not exactly the addresses' or some signature does not parse |
| Checkpoint.CyclesRewindByTheirNumber | crates/microscope-indexer/src/rpc_polling/checkpoint.rs:157-167 | k load and save cycles rewind a cursor by k windows, saturating, and keep the rest |
| Checkpoint.CrashedSaveLeavesOldOrNew | crates/microscope-indexer/src/rpc_polling/checkpoint.rs:238-274 | a save cut short anywhere, by a kill or a host crash, leaves the old document or the new one |
| Checkpoint.LoadYieldsTheLatestSave | crates/microscope-indexer/src/rpc_polling/checkpoint.rs:116-277 | after any history of saves, crashes and loads, loading gives the last completed save or a later one, never a corrupt or foreign document |
| Checkpoint.CheckpointStore.SaveIfDue | crates/microscope-indexer/src/rpc_polling/checkpoint.rs:191-277 | complete cursors are written at once by a store that never wrote, and by another iff sixty seconds have passed since, or ten with activity; it stops at the failing operation and counts as saved only after all of them |
| Checkpoint.CheckpointStore.DueExactly | crates/microscope-indexer/src/rpc_polling/checkpoint.rs:204-214 | a write is due iff none completed yet, or sixty seconds ago, or ten with activity |
| Checkpoint.CheckpointStore.Load | crates/microscope-indexer/src/rpc_polling/checkpoint.rs:116-189 | missing, loaded, mismatch or corrupt in the source's order of checks; a corrupt file is moved aside |
| Refinement.WholeScanIsFaithful | crates/microscope-indexer/src/rpc_polling/signatures.rs:36-96 | the scan of an index that serves the ledger is a faithful answer of the protocol |
| Refinement.PollTakesAProtocolStep | crates/microscope-indexer/src/rpc_polling.rs:116-358 | whatever the poll reports is one protocol step, successful or failed |
| Refinement.PollAsStep | crates/microscope-indexer/src/rpc_polling.rs:116-358 | the same for the method on its objects |
| Runtime.TrailingCountsTheLastGaps | crates/microscope-indexer/src/rpc_polling/runtime.rs:341-355 | the tracker's count reaches n iff the last n observations were all gaps |
| Runtime.HistoryGapTracker.RecordGap | crates/microscope-indexer/src/rpc_polling/runtime.rs:346-350 | asks to give up exactly when the gaps in a row reach the threshold |
| Runtime.RecordingRefines | crates/microscope-indexer/src/shipped.rs:92-103 | whichever of its calls fails, recording a processed transaction is the protocol's journal step, or its failing one |
| Runtime.RecordAgreeing | crates/microscope-indexer/src/shipped.rs:92-103 | the same for the method on the journal, which keeps its agreement |
| Runtime.CompactAgreeing | crates/microscope-indexer/src/shipped.rs:157-167 | compaction is the protocol's, seen as a map |
| Runtime.Recovery.LoadCheckpoint | crates/microscope-indexer/src/rpc_polling/runtime.rs:108-148 | three attempts, none after a mismatch: it fails only if all three reads do or a corrupt file cannot be moved aside |
| Runtime.Recovery.StartFrom | crates/microscope-indexer/src/rpc_polling/runtime.rs:149-204 | restores the journal behind a checkpoint, clears it without one or after a mismatch, leaves it alone when the disk cannot be read, and parks when loading failed |
| Runtime.Recovery.Resume | crates/microscope-indexer/src/rpc_polling/runtime.rs:108-204 | a start over the files of a dead process is the protocol's restart or fresh start |
| Runtime.Recovery.TakeSnapshot | crates/microscope-indexer/src/rpc_polling/runtime.rs:218-231 | the snapshot becomes memory, field by field, exactly when the pipeline is drained |
| Runtime.OnlyUnfinishedUpdatesHoldBack | crates/microscope-indexer/src/rpc_polling/runtime.rs:326-339 | an empty channel is held back only by two counters that differ |
| Runtime.Recovery.SaveSnapshot | crates/microscope-indexer/src/rpc_polling/runtime.rs:232-259 | saves the snapshot, not memory; the protocol's save happens at the rename |
| Runtime.Recovery.CompactJournal | crates/microscope-indexer/src/rpc_polling/runtime.rs:249-252 | compacts against the durable slot |
| Runtime.Recovery.Observe | crates/microscope-indexer/src/rpc_polling/runtime.rs:265-311 | over the results of all polls: gives up exactly when the last three that concern history, or the last three that concern cursors, are errors; any other error changes neither count |
| Runtime.Recovery.WatchesUntilItGivesUp | crates/microscope-indexer/src/rpc_polling/runtime.rs:265-311 | neither count has reached three iff the results do not end so |
| Runtime.CountReachesThree | crates/microscope-indexer/src/rpc_polling/runtime.rs:341-355 | a tracker's count reaches three iff the results it is about end in three errors |
| Runtime.Recovery.Iterate | crates/microscope-indexer/src/rpc_polling/runtime.rs:205-318 | a turn of the loop takes exactly these protocol steps, between states the objects represent; with complete cursors it saves at the first turn, sixty seconds after the last save, or ten if urgent, and it parks exactly when the poll results so far call for it |
| Interleaving.PartMovesAhead | crates/microscope-indexer/src/rpc_polling.rs:324-332 | a part of a poll and a step of the pipeline or of the relay's recording lead to the same state in either order |
| Interleaving.StreamSendMovesBehind | crates/microscope-indexer/src/datasource.rs:176-193 | so does a send of the stream, up to the order of the two in the channel |
| Interleaving.PollCanComeFirst | crates/microscope-indexer/src/rpc_polling.rs:240-346 | however a poll's parts interleave with such steps, doing the whole poll first leads to the same state |
| Indexing.SendUpdate | crates/microscope-indexer/src/datasource.rs:176-193 | the relay's send, on the objects, is the protocol's, and reaches the channel unless that has closed |
| Indexing.ShipUpdate | crates/microscope-indexer/src/shipped.rs:92-103 | so is journalling a logged transaction, which leaves it in the journal or exposed, and in the journal if no call fails |
| Indexing.StartAnother | crates/microscope-indexer/src/rpc_polling/runtime.rs:108-204 | a process started over what a dying one leaves works from the protocol's restart or fresh start, or leaves the files as they are because the checkpoint cannot be read |
| Indexing.FilesAccountFor | crates/microscope-indexer/src/rpc_polling/runtime.rs:149-259 | what the checkpoint loads as and the journal reads as account for every transaction in scope: logged, quarantined, or listed by an address and suppressed by neither |
| Indexing.Happens | crates/microscope-indexer/src/rpc_polling/runtime.rs:61-319 | each happening takes place: a logged transaction and nothing else adds a record, a turn of a working process adds a poll's result, and only a death makes another process |
| Indexing.Operate | crates/microscope-indexer/src/rpc_polling/runtime.rs:61-319 | whatever sequence of turns, deliveries, pipeline steps, deaths and starts a deployment goes through, each takes place, its files account for every transaction in scope, and in RPC mode, with a checkpoint found at every later start, it logged at most once what has not faded |
| Loki.UnmarkedMeansAllPass | crates/microscope-indexer/src/alerting.rs:829-835 | with errors accumulating across filters, a line survives the error filter iff every filter passes on its own |
| Loki.InfixIsSurrounded | crates/microscope-indexer/src/alerting.rs:849-895 | a text matches an infix iff it is some text, the infix and some text |
| Alerting.CompilesExactlyWhenValid | crates/microscope-indexer/src/alerting.rs:774-886 | compilation succeeds iff every condition validates and a multisig rule has a multisig; the unreachable arm is never reached |
| Alerting.ConditionsThatValidate | crates/microscope-indexer/src/config.rs:580-644 | value by value, which operators a condition accepts: numbers for the six comparisons, booleans and texts for equality, texts that are not empty for contains, integers up to 2 to the 53; and which field paths |
| Alerting.RefusedConditionIsIdle | crates/microscope-indexer/src/config.rs:545-562 | what validation refuses in a multisig rule that needs all its conditions is redundant or unsatisfiable, as its message says |
| Alerting.ConditionMeansItsFilters | crates/microscope-indexer/src/alerting.rs:849-895 | a condition's filters pass the extracted label iff the field satisfies the condition; inequality of text requires presence |
| Alerting.CountSelects | crates/microscope-indexer/src/alerting.rs:812-832 | one count selects exactly the program's events or instructions, or the vault's successful activities, under the rule's name, that satisfy its conditions, labels never colliding |
| Alerting.CompilationPreservesMeaning | crates/microscope-indexer/src/alerting.rs:774-847 | the query reports exactly the signatures with a record of the rule's kind, name and program or vault that satisfies it, each positive, and the zero iff there is none |
| Alerting.OwnRecordsAreReported | crates/microscope-indexer/src/alerting.rs:774-847 | of the program's records under a rule's name, an event rule reports the events and an instruction rule the instructions |
| Tombstones.AddResourceDeletions | crates/microscope-indexer/src/alerting.rs:77-101 | lists exactly the uids, under `ms-` or `microscope-`, that were declared or being deleted and are not declared now |
| Tombstones.Generate | crates/microscope-indexer/src/alerting.rs:77-135 | a document generated over an existing file lists exactly those, and over none lists nothing |
| Tombstones.NothingIsForgotten | crates/microscope-indexer/src/alerting.rs:77-135 | over any regenerations the deletions are every managed uid ever declared less the current ones |
| Tombstones.DeclaredOrDeleted | crates/microscope-indexer/src/alerting.rs:77-135 | each such uid is declared or deleted, never both |
| Processor.EventProcessor.RememberTransaction | crates/microscope-indexer/src/processor.rs:22-35 | queue and set are the last 4096 admitted signatures; a signature is rejected iff it is among them |
| Processor.RecentAreTheLast | crates/microscope-indexer/src/processor.rs:22-35 | what the memory holds are the last 4096 admitted |
| Processor.RepeatsAreFarApart | crates/microscope-indexer/src/processor.rs:21-36 | two admissions of one signature are more than 4096 admissions apart |
| Processor.EverythingIsAdmitted | crates/microscope-indexer/src/processor.rs:21-36 | what was seen was admitted at least once |
| Backfill.ParseDuration | crates/microscope-indexer/src/backfill.rs:42-74 | accepts exactly the trimmed non-empty sequences of amounts with units that the build can add up, and returns its total |
| Backfill.TermsAreExact | crates/microscope-indexer/src/backfill.rs:52-62 | an amount is decimal digits that fit 64 bits, with one of the five letters |
| Backfill.UnitsAreTheUsual | crates/microscope-indexer/src/backfill.rs:55-62 | a minute is sixty seconds and so on, and no other letter is a unit |
| Backfill.TrimsBlanksOnly | crates/microscope-indexer/src/backfill.rs:47-47 | trimming takes blanks off both ends and nothing else |
| Backfill.TotalIsExactIffItFits | crates/microscope-indexer/src/backfill.rs:63-63 | in either build the total is the exact one iff that fits 64 bits; a debug build has no other |
| Backfill.SomeTextWraps | crates/microscope-indexer/src/backfill.rs:63-63 | a release build reads some number of weeks past 64 bits as less than one |
| Backfill.TotalsWrapWhole | crates/microscope-indexer/src/backfill.rs:63-63 | a total that is not exact is off by a multiple of 2 to the 64 |
| Backfill.Flush | crates/microscope-indexer/src/backfill.rs:175-222 | accepted iff one of the first ten attempts is answered 200 to 299 and every earlier one 429 |
| Backfill.PushRecords | crates/microscope-indexer/src/backfill.rs:136-166 | nothing is pushed if a record lacks a block time; success pushes everything and counts what was received |
| Backfill.PushedOldestFirst | crates/microscope-indexer/src/backfill.rs:159-165 | the batches concatenate to a stable permutation by block time, 500 records each and a last one of no more |
| Dashboard.Grid.RemovePanels | crates/microscope-indexer/src/dashboard.rs:95-118 | exactly the panels without a named id survive, in order and with nothing but their row changed, each raised by the removed heights above it |
| Dashboard.OnlyNamedPanelsGo | crates/microscope-indexer/src/dashboard.rs:96-107 | a panel goes iff its id is among those named |
| Dashboard.RaisedByTheShift | crates/microscope-indexer/src/dashboard.rs:109-117 | a survivor rises by what was removed above it, or to the top if that is more |
| Dashboard.RaisingNeverSaturates | crates/microscope-indexer/src/dashboard.rs:109-117 | for removed panels with rows of their own the subtraction is exact |
| Dashboard.GapsCloseAndLayoutHolds | crates/microscope-indexer/src/dashboard.rs:109-117 | each gap shrinks by exactly what was removed inside it, and order and separation hold |
| Dashboard.RemovalKeepsTheLayout | crates/microscope-indexer/src/dashboard.rs:95-118 | a grid without overlaps stays without overlaps when the removed panels share no row with others, whatever heights any have |

## Left out

- Transport, scheduling, cancellation, sleeps, retry back-off and concurrent fetching: an RPC call is the answer it gives, and fetch order does not matter to the poll's result.
- Carbon's pipeline and its deduplication filter: only the queue, what is in flight and the two counters are kept. Races between stream and poller are Carbon's to filter, so at-most-once is stated for RPC mode.
- A poll's sends are one protocol step (`Interleaving`); the order in the channel between its updates and those the stream sends meanwhile is not kept.
- History that the endpoint drops inside the overlap: a poll reports it as an error, and the no-loss theorems need history back to the floor.
- ShippedJournal.Journal.Open: a stamp whose write fails part-way leaves nothing in the model; in the code it can leave a part of the header's line.
- ShippedJournal.Journal.Append: likewise a write that fails part-way. In the code the next line is then appended to the part that was written, and what the merged line reads as depends on the lengths of encoded signatures; what a part alone reads as is `Shipped.TornLine`.
- Read errors of the journal, records written before the journal is restored, and what a process that could not read its checkpoint still records: nothing happens to it in `Indexing` but another start.
- A death amid a turn is a turn whose later calls fail, then a death.
- Host crashes in the protocol itself: its crash is a killed process. `Checkpoint` covers what a host crash does to the checkpoint file.
- Signature and JSON encodings, hashing, regular-expression escaping: injective functions, or the meaning of the escaped form.
- The crawl of `backfill.rs`: the page loop again, over block times.
- Checkpoint mismatches in the protocol: one deployment keeps one identity. `Checkpoint.OtherDeploymentsAreRefused` and `Runtime.Recovery.StartFrom` cover the branch.
- Event log decoding, Squads action tables, health probes, gauges, alert texts, dashboards beyond their layout, command line and infrastructure.
- RaisingNeverSaturates: is for removed panels with rows of their own; without that the subtraction saturates, which `Dashboard.Grid.RemovePanels` covers.
- RemovalKeepsTheLayout: asks that removed panels share no row with others, as the generated dashboard's do.
