/** The recovery loop (runtime.rs): resuming from disk, taking and saving snapshots only
    when the pipeline has caught up, compacting the journal against the durable slot,
    polling, and giving up. Each iteration is proved to take the protocol's steps. */
module Runtime {
  import opened Primitives
  import opened Filtering
  import opened Text
  import opened Progress
  import opened PollSpec
  import opened Delivered
  import opened Poller
  import opened Protocol
  import opened Refinement
  import opened Shipped
  import opened ShippedJournal
  import opened Checkpoint

  const CHECKPOINT_LOAD_ATTEMPTS: nat := 3
  const RECOVERY_DISABLE_AFTER_CONSECUTIVE: u32 := 3

  // ---------------------------------------------------------------------------
  // Giving up
  // ---------------------------------------------------------------------------

  /** What a loop iteration observed about one kind of gap. */
  datatype Observation = Gap | Recovered

  function Trailing(trace: seq<Observation>): nat {
    if trace == [] || trace[|trace| - 1].Recovered? then 0 else Trailing(trace[..|trace| - 1]) + 1
  }

  type PollResult = Result<PollOutcome, PollError>

  /** The results that say whether the endpoint's history still reaches the cursors: an
      unverified success says nothing. */
  predicate AboutHistory(result: PollResult) {
    if result.Ok? then result.value.historyBoundaryVerified else result.error.HistoryUnavailable?
  }

  /** The results that say whether cursors lie ahead of the head. */
  predicate AboutCursors(result: PollResult) {
    result.Ok? || result.error.CursorAhead?
  }

  ghost predicate EndsInThreeErrors(results: seq<PollResult>) {
    |results| >= 3 && forall i :: |results| - 3 <= i < |results| ==> results[i].Err?
  }

  /** When recovery gives up: the last three results that are about its history, or the
      last three that are about its cursors, are errors. */
  ghost predicate EndsRecovery(results: seq<PollResult>) {
    EndsInThreeErrors(Filter(results, AboutHistory)) || EndsInThreeErrors(Filter(results, AboutCursors))
  }

  /** What a tracker has seen of them. */
  ghost function Tracked(results: seq<PollResult>, about: PollResult -> bool): seq<Observation> {
    var relevant := Filter(results, about);
    seq(|relevant|, i requires 0 <= i < |relevant| => if relevant[i].Err? then Gap else Recovered)
  }

  lemma TrackedOneMore(results: seq<PollResult>, result: PollResult, about: PollResult -> bool)
    ensures Tracked(results + [result], about) ==
            Tracked(results, about) + if about(result) then [if result.Err? then Gap else Recovered] else []
  {
    assert (results + [result])[..|results|] == results;
  }

  class HistoryGapTracker {
    var consecutive: u32
    ghost var trace: seq<Observation>

    ghost predicate Valid()
      reads this
    {
      consecutive as nat == Trailing(trace)
    }

    constructor ()
      ensures Valid() && trace == []
    {
      consecutive, trace := 0, [];
    }

    method RecordGap() returns (disable: bool)
      requires Valid() && consecutive < MAX_U32
      modifies this
      ensures Valid() && trace == old(trace) + [Gap]
      ensures disable <==> Trailing(trace) >= RECOVERY_DISABLE_AFTER_CONSECUTIVE
      ensures consecutive == old(consecutive) + 1
    {
      consecutive := consecutive + 1;
      trace := trace + [Gap];
      assert trace[..|trace| - 1] == old(trace);
      return consecutive >= RECOVERY_DISABLE_AFTER_CONSECUTIVE;
    }

    method RecordRecovered()
      requires Valid()
      modifies this
      ensures Valid() && trace == old(trace) + [Recovered]
      ensures consecutive == 0
    {
      consecutive := 0;
      trace := trace + [Recovered];
    }
  }

  lemma {:induction false} TrailingIsShort(trace: seq<Observation>)
    ensures Trailing(trace) <= |trace|
  {
    if trace != [] {
      TrailingIsShort(trace[..|trace| - 1]);
    }
  }

  /** The count reaches a number exactly when that many observations in a row, and no
      fewer, were gaps. */
  lemma {:induction false} TrailingCountsTheLastGaps(trace: seq<Observation>, n: nat)
    ensures Trailing(trace) >= n <==>
              |trace| >= n && forall i :: |trace| - n <= i < |trace| ==> trace[i].Gap?
  {
    if 0 < n <= |trace| {
      var m := |trace| - 1;
      TrailingCountsTheLastGaps(trace[..m], n - 1);
      assert forall i :: |trace| - n <= i < m ==> trace[i] == trace[..m][i];
      assert (forall i :: |trace| - n <= i < |trace| ==> trace[i].Gap?)
        <==> trace[m].Gap? && forall i :: |trace| - n <= i < m ==> trace[..m][i].Gap?;
    } else if n > 0 {
      TrailingIsShort(trace);
    }
  }

  /** A tracker's count reaches three exactly if the results it has seen end in three
      errors. */
  lemma CountReachesThree(results: seq<PollResult>, about: PollResult -> bool)
    ensures Trailing(Tracked(results, about)) >= RECOVERY_DISABLE_AFTER_CONSECUTIVE <==> EndsInThreeErrors(Filter(results, about))
  {
    var trace, relevant := Tracked(results, about), Filter(results, about);
    TrailingCountsTheLastGaps(trace, 3);
    assert forall i :: 0 <= i < |relevant| ==> (trace[i].Gap? <==> relevant[i].Err?);
  }

  // ---------------------------------------------------------------------------
  // The pipeline's progress
  // ---------------------------------------------------------------------------

  /** An empty channel proves nothing by itself: an update is dequeued before it is
      processed. Counters that do not exist yet have counted nothing. */
  function PipelineDrained(channelEmpty: bool, received: Option<nat>, processed: Option<nat>): bool {
    channelEmpty && (received.Some? && processed.Some? ==> received == processed)
  }

  /** Only two counters that differ hold an empty channel back. */
  lemma OnlyUnfinishedUpdatesHoldBack(channelEmpty: bool, received: Option<nat>, processed: Option<nat>)
    ensures PipelineDrained(channelEmpty, received, processed) <==>
              channelEmpty && !exists r, p :: received == Some(r) && processed == Some(p) && r != p
  {
  }

  // ---------------------------------------------------------------------------
  // The journal as a map
  // ---------------------------------------------------------------------------

  function AsMap(entries: seq<Entry>): map<Signature, u64> {
    if entries == [] then map[]
    else
      var n := |entries| - 1;
      AsMap(entries[..n])[entries[n].signature := entries[n].slot]
  }

  lemma {:induction false} AsMapLooksUp(entries: seq<Entry>)
    requires Once(entries)
    ensures AsMap(entries).Keys == ShippedJournal.SignaturesIn(entries)
    ensures forall e :: e in entries ==> e.signature in AsMap(entries) && AsMap(entries)[e.signature] == e.slot
    ensures forall s :: s in AsMap(entries) ==> Entry(s, AsMap(entries)[s]) in entries
  {
    if entries != [] {
      var n := |entries| - 1;
      AsMapLooksUp(entries[..n]);
      assert entries == entries[..n] + [entries[n]];
    }
  }

  lemma CompactedAsMap(entries: seq<Entry>, floor: u64)
    requires Once(entries)
    ensures AsMap(Above(entries, floor)) == Retained(AsMap(entries), floor)
  {
    var keep := (e: Entry) => e.slot > floor;
    FilterStaysOnce(entries, keep);
    AsMapLooksUp(entries);
    AsMapLooksUp(Above(entries, floor));
    forall e ensures e in Above(entries, floor) <==> e in entries && e.slot > floor {
      FilterKeepsExactly(entries, keep, e);
    }
    forall s ensures s in AsMap(Above(entries, floor)) <==> s in Retained(AsMap(entries), floor) {
      if s in AsMap(entries) {
        assert Entry(s, AsMap(entries)[s]) in entries;
      }
    }
  }

  lemma AsMapAppends(entries: seq<Entry>, entry: Entry)
    ensures AsMap(entries + [entry]) == AsMap(entries)[entry.signature := entry.slot]
  {
    assert (entries + [entry])[..|entries|] == entries;
  }

  lemma RecordedEntries(v: View, entry: Entry, fault: Option<AppendFault>)
    ensures ShippedJournal.Recorded(v, entry, fault).contents.entries ==
            if Admits(v, entry, fault) then v.contents.entries + [entry] else v.contents.entries
  {
  }

  /** The protocol's step for recording a processed transaction: the journal holds it
      afterwards, or the append failed on one that it did not hold. */
  function RecordingStep(v: View, update: Update, fault: Option<AppendFault>): Step {
    if update.signature in v.written || Appends(v, fault) then Step.Journal(update) else Step.JournalFails(update)
  }

  function EntryOf(update: Update): Entry {
    Entry(update.signature, update.slot)
  }

  /** What either step does to the journal. */
  ghost predicate Journals(before: map<Signature, u64>, step: Step, after: map<Signature, u64>) {
    match step
    case Journal(update) => after == if update.signature in before then before else before[update.signature := update.slot]
    case JournalFails(update) => update.signature !in before && after == before
    case _ => false
  }

  /** Recording, whichever of its calls fails, changes the map as that step does. */
  lemma RecordingRefines(v: View, update: Update, fault: Option<AppendFault>)
    requires Agrees(v)
    ensures Journals(AsMap(v.contents.entries), RecordingStep(v, update, fault),
                     AsMap(ShippedJournal.Recorded(v, EntryOf(update), fault).contents.entries))
  {
    AsMapLooksUp(v.contents.entries);
    RecordedEntries(v, EntryOf(update), fault);
    AsMapAppends(v.contents.entries, EntryOf(update));
  }

  lemma CompactionRefines(v: View, floor: u64)
    requires Agrees(v)
    ensures Agrees(Compacted(v, floor)) && Compacted(v, floor).identity == v.identity
    ensures AsMap(Compacted(v, floor).contents.entries) == Retained(AsMap(v.contents.entries), floor)
  {
    CompactedAsMap(v.contents.entries, floor);
    AgreementIsKept(v, Compacting(floor));
    FilterIsNoLonger(v.contents.entries, (e: Entry) => e.slot > floor);
  }

  /** The loop that merges the journal into the suppressed signatures. */
  method RecordShipped(state: PollingState, entries: seq<Entry>)
    modifies state`recentSignatures
    ensures state.recentSignatures == old(state.recentSignatures) + AsMap(entries)
  {
    assert old(state.recentSignatures) + map[] == old(state.recentSignatures);
    for i := 0 to |entries|
      invariant state.recentSignatures == old(state.recentSignatures) + AsMap(entries[..i])
    {
      assert entries[..i + 1][..i] == entries[..i];
      state.RecordRecentSignature(entries[i].signature, entries[i].slot);
    }
    assert entries[..|entries|] == entries;
  }

  /** Compaction, seen through the map the journal stands for. */
  method CompactAgreeing(journal: Journal, floor: u64, fails: bool)
    requires journal.Valid() && Agrees(journal.Abstract())
    modifies journal
    ensures journal.Valid() && Agrees(journal.Abstract()) && journal.identity == old(journal.identity)
    ensures var before := AsMap(old(journal.Abstract()).contents.entries);
            AsMap(journal.Abstract().contents.entries) == if fails then before else Retained(before, floor)
  {
    CompactionRefines(journal.Abstract(), floor);
    journal.Compact(floor, fails);
  }

  lemma RecordingKeepsIdentity(v: View, entry: Entry, fault: Option<AppendFault>)
    ensures ShippedJournal.Recorded(v, entry, fault).identity == v.identity
  {
  }

  /** Recording, seen the same way. */
  method RecordAgreeing(journal: Journal, update: Update, fault: Option<AppendFault>) returns (ghost step: Step)
    requires journal.Valid() && Agrees(journal.Abstract())
    modifies journal
    ensures journal.Valid() && Agrees(journal.Abstract()) && journal.identity == old(journal.identity)
    ensures step == RecordingStep(old(journal.Abstract()), update, fault)
    ensures Journals(AsMap(old(journal.Abstract()).contents.entries), step, AsMap(journal.Abstract().contents.entries))
  {
    ghost var v := journal.Abstract();
    step := RecordingStep(v, update, fault);
    RecordingRefines(v, update, fault);
    RecordingAgrees(v, EntryOf(update), fault);
    RecordingKeepsIdentity(v, EntryOf(update), fault);
    journal.Record(EntryOf(update), fault);
  }

  /** The checkpoint's name changes hands at the fifth operation of a save. */
  lemma SavedPath(disk: Disk, document: Document, completed: nat)
    ensures var k := Min(completed, 6);
            Checkpoint.Contents(AppliedAll(disk, Saving(document)[..k]).path) ==
            if completed >= 5 then Some(Encoded(document)) else Checkpoint.Contents(disk.path)
    ensures Saving(document)[..6] == Saving(document)
  {
    SavedSoFar(disk, document, Min(completed, 6));
  }

  lemma StaysPut(world: World, s: System) returns (path: Path)
    ensures path == Stay(s) && Leads(world, s, path, s)
  {
    path := Stay(s);
  }

  lemma SnapshotStep(world: World, s: System) returns (s': System, path: Path)
    requires !s.parked && Drained(s)
    ensures s' == s.(processed := Seen(s.progress))
    ensures path == Went(s, Step.TakeSnapshot, s') && Leads(world, s, path, s')
  {
    s' := s.(processed := Seen(s.progress));
    path := Went(s, Step.TakeSnapshot, s');
    StepLeads(world, s, Step.TakeSnapshot, s');
  }

  lemma SaveStep(world: World, s: System) returns (s': System, path: Path)
    requires !s.parked && s.processed.cursors.Keys == AddressSet(world.addresses)
    ensures s' == s.(document := Some(s.processed))
    ensures path == Went(s, Step.Save, s') && Leads(world, s, path, s')
  {
    s' := s.(document := Some(s.processed));
    path := Went(s, Step.Save, s');
    StepLeads(world, s, Step.Save, s');
  }

  lemma CompactStep(world: World, s: System, slot: u64) returns (s': System, path: Path)
    requires s.document.Some? && slot == MinimumCursor(s.document.value.cursors, 0)
    ensures s' == s.(journal := Retained(s.journal, UnreachableBelow(slot, world.window)), highWater := Max(s.highWater, slot))
    ensures path == Went(s, Step.Compact, s') && Leads(world, s, path, s')
  {
    s' := s.(journal := Retained(s.journal, UnreachableBelow(slot, world.window)), highWater := Max(s.highWater, slot));
    path := Went(s, Step.Compact, s');
    StepLeads(world, s, Step.Compact, s');
  }

  /** The restart of a process whose crash left `s` behind. */
  lemma RestartedFrom(world: World, s: System, restored: map<Signature, u64>) returns (s': System, path: Path)
    requires s.document.Some? && (restored == s.journal || restored == map[])
    ensures var progress := Resumed(world.window, s.document.value, restored);
            s' == System(progress, Seen(progress), [], [], [], multiset{}, multiset{}, 0, 0, false, s.document, restored,
                         s.emissions, s.scope, s.highWater, s.exposed + Protocol.SignaturesIn(s.logged))
    ensures Leads(world, s, path, s') && path.steps == [Step.Restart(restored)]
  {
    var progress := Resumed(world.window, s.document.value, restored);
    s' := System(progress, Seen(progress), [], [], [], multiset{}, multiset{}, 0, 0, false, s.document, restored,
                 s.emissions, s.scope, s.highWater, s.exposed + Protocol.SignaturesIn(s.logged));
    path := Went(s, Step.Restart(restored), s');
    StepLeads(world, s, Step.Restart(restored), s');
  }

  lemma StartedAfresh(world: World, s: System) returns (s': System, path: Path)
    requires s.document.None?
    ensures s' == Protocol.START.(emissions := s.emissions, exposed := s.exposed + Protocol.SignaturesIn(s.logged))
    ensures Leads(world, s, path, s') && path.steps == [Step.FreshStart]
  {
    s' := Protocol.START.(emissions := s.emissions, exposed := s.exposed + Protocol.SignaturesIn(s.logged));
    path := Went(s, Step.FreshStart, s');
    StepLeads(world, s, Step.FreshStart, s');
  }

  /** Either way, what the new process starts from. */
  lemma Starts(world: World, s: System, restored: map<Signature, u64>) returns (s': System, path: Path)
    requires restored == s.journal || restored == map[]
    ensures s'.progress == if s.document.Some? then Resumed(world.window, s.document.value, restored) else NOTHING
    ensures s'.processed == Seen(s'.progress) && s'.queue == [] && s'.pending == [] && !s'.parked
    ensures s'.document == s.document && s'.journal == if s.document.Some? then restored else map[]
    ensures Leads(world, s, path, s')
    ensures path.steps == [if s.document.Some? then Step.Restart(restored) else Step.FreshStart]
  {
    if s.document.Some? {
      s', path := RestartedFrom(world, s, restored);
    } else {
      s', path := StartedAfresh(world, s);
    }
  }

  lemma ParkStep(world: World, s: System) returns (s': System, path: Path)
    ensures s' == s.(parked := true, pending := [])
    ensures path == Went(s, Step.Park, s') && Leads(world, s, path, s')
  {
    s' := s.(parked := true, pending := []);
    path := Went(s, Step.Park, s');
    StepLeads(world, s, Step.Park, s');
  }

  // ---------------------------------------------------------------------------
  // The loop
  // ---------------------------------------------------------------------------

  /** A checkpoint is due: none was written yet, or the last a minute ago, or ten seconds
      ago when something has happened since. */
  predicate Awaited(written: Option<nat>, urgent: bool, now: nat) {
    written.None? || now - written.value >= 60 || (urgent && now - written.value >= 10)
  }

  lemma SavedTurnSaves(first: seq<Step>, rest: seq<Step>, drained: bool, saved: bool, compacted: bool, reached: bool)
    requires first == Taken(drained, Step.TakeSnapshot) + (Taken(reached, Step.Save) + Taken(compacted, Step.Compact))
    requires saved ==> reached
    ensures saved ==> Step.Save in first + rest
  {
    if saved {
      assert first[|Taken(drained, Step.TakeSnapshot)|] == Step.Save;
    }
  }

  /** Which file operations of one iteration fail. */
  datatype Faults = Faults(saveCompletes: nat, compactFails: bool)

  class Recovery {
    const addresses: seq<Address>
    const window: Window
    const identity: string
    const state: PollingState
    const checkpoint: CheckpointStore
    const journal: Journal
    const sender: UpdateChannel
    const delivered: DeliveredSignatures?
    const historyGaps: HistoryGapTracker
    const cursorsAhead: HistoryGapTracker
    var processed: Snapshot
    var checkpointUrgent: bool
    var parked: bool
    ghost var results: seq<PollResult>   // of every poll since the start

    constructor (
        addresses: seq<Address>, window: Window, identity: string, checkpoint: CheckpointStore, journal: Journal,
        sender: UpdateChannel, delivered: DeliveredSignatures?)
      ensures this.addresses == addresses && this.window == window && this.identity == identity
      ensures this.checkpoint == checkpoint && this.journal == journal
      ensures this.sender == sender && this.delivered == delivered
      ensures fresh(state) && fresh(historyGaps) && fresh(cursorsAhead)
      ensures Tracks() && Watching() && results == []
      ensures state.View() == NOTHING && processed == Seen(NOTHING) && !parked && !checkpointUrgent
    {
      this.addresses, this.window, this.identity := addresses, window, identity;
      this.checkpoint, this.journal, this.sender, this.delivered := checkpoint, journal, sender, delivered;
      state := new PollingState();
      historyGaps := new HistoryGapTracker();
      cursorsAhead := new HistoryGapTracker();
      processed, checkpointUrgent, parked, results := Snapshot(map[], map[], {}), false, false, [];
    }

    ghost function Repr(): set<object>
    {
      {this, state, checkpoint, journal, sender, historyGaps, cursorsAhead} + if delivered == null then {} else {delivered}
    }

    ghost predicate Valid()
      reads this`parked, this`results, journal, historyGaps, cursorsAhead
    {
      && Sound()
      && (!parked ==> Watching())
    }

    /** The trackers have seen the results. */
    ghost predicate Tracks()
      reads this`results, historyGaps, cursorsAhead
    {
      && historyGaps != cursorsAhead && historyGaps.Valid() && cursorsAhead.Valid()
      && forall seen :: Same(results, seen) ==>
           historyGaps.trace == Tracked(seen, AboutHistory) && cursorsAhead.trace == Tracked(seen, AboutCursors)
    }

    lemma WatchesUntilItGivesUp()
      requires Tracks()
      ensures Watching() <==> !EndsRecovery(results)
    {
      assert Same(results, results);
      CountReachesThree(results, AboutHistory);
      CountReachesThree(results, AboutCursors);
    }

    /** Neither kind of gap has been seen too often in a row. */
    ghost predicate Watching()
      reads historyGaps, cursorsAhead
    {
      && historyGaps.consecutive < RECOVERY_DISABLE_AFTER_CONSECUTIVE
      && cursorsAhead.consecutive < RECOVERY_DISABLE_AFTER_CONSECUTIVE
    }

    /** The constants agree with each other and with the world's. */
    ghost predicate Configured(world: World) {
      && Consistent()
      && world.addresses == addresses && world.window == window
    }

    ghost predicate Consistent() {
      && Lawful(checkpoint.codec) && checkpoint.codec == journal.codec
      && checkpoint.window == window
      && AddressSet(checkpoint.identity.addresses) == AddressSet(addresses)
    }

    ghost predicate Sound()
      reads this`results, journal, historyGaps, cursorsAhead
    {
      && Tracks()
      && JournalAgrees()
      && Consistent()
    }

    /** Said like `Stores`. */
    ghost predicate JournalAgrees()
      reads journal
    {
      forall v :: Same(journal.Abstract(), v) ==> journal.Valid() && Agrees(v) && v.identity == Some(identity)
    }

    lemma JournalDoesAgree()
      requires JournalAgrees()
      ensures journal.Valid() && Agrees(journal.Abstract()) && journal.identity == Some(identity)
    {
      assert Same(journal.Abstract(), journal.Abstract());
    }

    /** The checkpoint file holds the snapshot. */
    ghost predicate Holds(document: Option<Snapshot>)
      reads checkpoint
      requires Lawful(checkpoint.codec)
    {
      && (document.Some? ==> Complete(checkpoint.identity, document.value.cursors))
      && Checkpoint.Contents(checkpoint.disk.path) ==
         match document
         case None => None
         case Some(snapshot) => Some(Encoded(DocumentOf(checkpoint.codec, checkpoint.identity, snapshot)))
    }

    /** The same, said so that the document only comes into a proof that asks for it. */
    ghost predicate Stores(document: Option<Snapshot>)
      reads checkpoint
      requires Lawful(checkpoint.codec)
    {
      forall held :: Same(document, held) ==> Holds(held)
    }

    lemma StoredIsHeld(document: Option<Snapshot>)
      requires Lawful(checkpoint.codec) && Stores(document)
      ensures Holds(document)
    {
      assert Same(document, document);
    }

    function Pending(): seq<Update>
      reads if delivered == null then {} else {delivered}
    {
      if delivered == null then [] else delivered.pending
    }

    /** The objects are in the protocol's state `s`. */
    ghost predicate Represents(world: World, s: System)
      reads this`parked, this`processed, state, checkpoint, journal, sender, (if delivered == null then {} else {delivered})
      requires Consistent()
    {
      && world.addresses == addresses && world.window == window
      && s.parked == parked
      && (!parked ==> s.progress == state.View() && s.processed == processed)
      && s.pending == Pending()
      && (delivered != null ==> (delivered.recording <==> !parked))
      && s.queue == Transactions(sender.queue)
      && Stores(s.document)
      && s.journal == AsMap(journal.Abstract().contents.entries)
    }

    /** A working recovery in the protocol's state `s`; said like `Stores`. */
    ghost predicate IsIn(world: World, s: System)
      reads this`parked, this`processed, this`results, state, checkpoint, journal, sender, historyGaps, cursorsAhead,
            (if delivered == null then {} else {delivered})
    {
      forall now :: Same(s, now) ==> Valid() && Represents(world, now)
    }

    lemma Opens(world: World, s: System)
      requires IsIn(world, s)
      ensures Valid() && Represents(world, s)
    {
      assert Same(s, s);
    }

    /** What three attempts at loading come to. */
    ghost function Attempted(file: Option<Content>, readFailures: nat, moveFails: bool): Result<LoadOutcome, LoadError>
      reads checkpoint
      requires Lawful(checkpoint.codec)
    {
      var loaded := LoadedFrom(checkpoint.codec, checkpoint.identity, checkpoint.window, file);
      if file.Some? && readFailures >= 3 then Err(IoFailed)
      else if loaded == Ok(Corrupt) && moveFails then Err(IoFailed)
      else loaded
    }

    /** The first `readFailures` reads fail; a mismatch is not retried. */
    method LoadCheckpoint(readFailures: nat, moveFails: bool) returns (outcome: Result<LoadOutcome, LoadError>)
      requires Lawful(checkpoint.codec)
      modifies checkpoint
      ensures outcome == Attempted(Checkpoint.Contents(old(checkpoint.disk).path), readFailures, moveFails)
      ensures outcome != Ok(Corrupt) ==> checkpoint.disk == old(checkpoint.disk)
      ensures checkpoint.lastWriteCompletedAt == old(checkpoint.lastWriteCompletedAt)
    {
      var attempts := 0;
      while true
        invariant attempts < CHECKPOINT_LOAD_ATTEMPTS
        invariant checkpoint.disk == old(checkpoint.disk)
        invariant checkpoint.lastWriteCompletedAt == old(checkpoint.lastWriteCompletedAt)
        invariant attempts > 0 ==>
          || (attempts <= readFailures && checkpoint.disk.path.Some?)
          || (moveFails && LoadedFrom(checkpoint.codec, checkpoint.identity, checkpoint.window, Checkpoint.Contents(checkpoint.disk.path)) == Ok(Corrupt))
        decreases CHECKPOINT_LOAD_ATTEMPTS - attempts
      {
        outcome := checkpoint.Load(attempts < readFailures, moveFails);
        if outcome != Err(IoFailed) {
          return;
        }
        attempts := attempts + 1;
        if attempts >= CHECKPOINT_LOAD_ATTEMPTS {
          return;
        }
      }
    }

    method CopyState()
      modifies this`processed
      ensures processed == Seen(state.View())
    {
      processed := Snapshot(
        state.cursors, state.recentSignatures,
        set s | s in state.poisonFailures && state.poisonFailures[s].quarantined);
    }

    method Install(snapshot: Snapshot)
      requires state.View() == NOTHING
      modifies state
      ensures state.View() == Progress(snapshot.cursors, snapshot.recent, map s | s in snapshot.quarantined :: RESTORED)
    {
      var nothing: map<Signature, PoisonFailure> := map[];
      state.cursors := snapshot.cursors;
      state.recentSignatures := snapshot.recent;
      state.RestoreQuarantined(snapshot.quarantined);
      assert nothing + (map s | s in snapshot.quarantined :: RESTORED) == map s | s in snapshot.quarantined :: RESTORED;
    }

    /** The stream keeps running, but nobody drains what it delivers any more. */
    method StopRecovery()
      modifies this`parked, (if delivered == null then {} else {delivered})
      ensures parked && Pending() == []
      ensures delivered != null ==> !delivered.recording
    {
      if delivered != null {
        delivered.Stop();
      }
      parked := true;
    }

    /** Start-up, once loading has come to `outcome`: the checkpoint decides whether the
        journal is restored or cleared. */
    method StartFrom(outcome: Result<LoadOutcome, LoadError>, removal: Removal) returns (entries: seq<Entry>)
      requires OneLine(identity) && journal.Valid() && state.View() == NOTHING
      modifies this`processed, this`parked, state, journal, (if delivered == null then {} else {delivered})
      ensures journal.Valid()
      ensures parked <==> outcome.Err? || old(parked)
      ensures Pending() == if outcome.Err? then [] else old(Pending())
      ensures delivered != null ==> (delivered.recording <==> old(delivered.recording) && outcome.Ok?)
      ensures processed == if outcome.Ok? then Seen(state.View()) else old(processed)
      ensures journal.Abstract() == Kept(outcome, old(journal.Abstract()), removal)
      ensures outcome == Err(IoFailed) ==> journal.Abstract() == old(journal.Abstract())
      ensures outcome == Err(Mismatch) || (outcome.Ok? && !outcome.value.Loaded?) ==>
                journal.identity == Some(identity) && (removal == Gone ==> journal.Abstract().contents == EMPTY)
      ensures entries == if outcome.Ok? && outcome.value.Loaded? && old(journal.Abstract()).contents.header == Some(identity)
                         then old(journal.Abstract()).contents.entries else []
      ensures state.View() ==
              if outcome.Ok? && outcome.value.Loaded? then
                Progress(outcome.value.snapshot.cursors, outcome.value.snapshot.recent + AsMap(entries),
                         map s | s in outcome.value.snapshot.quarantined :: RESTORED)
              else NOTHING
    {
      entries := [];
      if outcome.Err? {
        if outcome.error.Mismatch? {
          journal.Discard(identity, removal);
        }
        StopRecovery();
        return;
      }
      if outcome.value.Loaded? {
        Install(outcome.value.snapshot);
        entries := journal.Restore(identity, removal);
        RecordShipped(state, entries);
      } else {
        journal.Discard(identity, removal);
      }
      CopyState();
    }

    /** What becomes of the journal: restored behind a checkpoint, cleared without one,
        left alone when the disk cannot be read. */
    function Kept(outcome: Result<LoadOutcome, LoadError>, v: View, removal: Removal): View {
      match outcome
      case Ok(Loaded(_)) => ShippedJournal.Restored(v, identity, removal)
      case Err(IoFailed) => v
      case _ => Discarded(v, identity, removal)
    }

    /** A process about to start. */
    ghost predicate Fresh()
      reads this`parked, this`results, state, sender, historyGaps, cursorsAhead, (if delivered == null then {} else {delivered})
    {
      && !parked && state.View() == NOTHING && sender.queue == [] && Pending() == []
      && (delivered != null ==> delivered.recording)
      && Tracks() && Watching()
    }

    /** The journal that a start leaves, and what it read back from it. */
    ghost predicate Read(document: Option<Snapshot>, v: View, entries: seq<Entry>)
      reads journal
    {
      && JournalAgrees()
      && journal.Abstract().contents.entries == entries
      && (entries == v.contents.entries || entries == [])
      && (document.None? ==> entries == [])
      && (document.Some? && v.identity == Some(identity) ==> entries == v.contents.entries)
    }

    /** The start leaves the journal in agreement with what was read back from it. */
    lemma JournalStarts(v: View, document: Option<Snapshot>, outcome: Result<LoadOutcome, LoadError>, removal: Removal)
      requires Agrees(v) && outcome.Ok?
      requires if document.Some? then outcome.value.Loaded? else outcome == Ok(Missing)
      requires !LeavesStaleFile(v, StartEvent(document, removal))
      ensures var kept := Kept(outcome, Crashed(v), removal);
              && Agrees(kept) && kept.identity == Some(identity)
              && kept.contents.entries == if document.Some? && v.contents.header == Some(identity) then v.contents.entries else []
    {
      AgreementIsKept(v, StartEvent(document, removal));
    }

    method StartHeld(outcome: Result<LoadOutcome, LoadError>, removal: Removal, ghost v: View, ghost document: Option<Snapshot>)
      returns (entries: seq<Entry>)
      requires OneLine(identity) && Fresh()
      requires journal.Valid() && Agrees(v) && journal.Abstract() == Crashed(v)
      requires outcome.Ok? ==> if document.Some? then outcome.value.Loaded? else outcome == Ok(Missing)
      requires outcome.Err? ==> !outcome.error.Mismatch?
      requires !LeavesStaleFile(v, StartEvent(document, removal))
      modifies this`processed, this`parked, state, journal, (if delivered == null then {} else {delivered})
      ensures parked <==> outcome.Err?
      ensures !parked ==> Begun() && Read(document, v, entries)
      ensures parked ==> journal.Valid() && journal.Abstract() == Crashed(v)
      ensures !parked ==>
                && processed == Seen(state.View())
                && state.View() == if document.None? then NOTHING
                                   else
                                     Progress(outcome.value.snapshot.cursors, outcome.value.snapshot.recent + AsMap(entries),
                                              map s | s in outcome.value.snapshot.quarantined :: RESTORED)
    {
      if outcome.Ok? {
        JournalStarts(v, document, outcome, removal);
      }
      entries := StartFrom(outcome, removal);
    }

    /** Started, with nothing delivered or queued yet. */
    ghost predicate Begun()
      reads this`parked, this`results, sender, historyGaps, cursorsAhead, (if delivered == null then {} else {delivered})
    {
      && !parked && sender.queue == [] && Pending() == []
      && (delivered != null ==> delivered.recording)
      && Tracks() && Watching()
    }

    /** A process started over the files of one that died in state `s` takes the
        protocol's restart, or its fresh start when no checkpoint was ever saved. If the
        checkpoint cannot be read three times over it is parked instead, and leaves the
        files as they were. */
    method Resume(
        readFailures: nat, moveFails: bool, removal: Removal, ghost v: View, ghost world: World, ghost s: System)
      returns (outcome: Result<LoadOutcome, LoadError>, ghost s': System, ghost path: Path)
      requires Configured(world) && OneLine(identity)
      requires journal.Valid() && Agrees(v) && journal.Abstract() == Crashed(v)
      requires Fresh()
      requires Stores(s.document) && s.journal == AsMap(v.contents.entries)
      requires !LeavesStaleFile(v, StartEvent(s.document, removal))
      modifies this`processed, this`parked, state, checkpoint, journal, (if delivered == null then {} else {delivered})
      ensures parked <==> s.document.Some? && readFailures >= 3
      ensures parked ==> s' == s && Stores(s.document) && journal.Valid() && journal.Abstract() == Crashed(v)
      ensures !parked ==>
                && IsIn(world, s')
                && Leads(world, s, path, s')
                && path.steps == [if s.document.Some? then Step.Restart(s'.journal) else Step.FreshStart]
                && (s.document.Some? && v.identity == Some(identity) ==> s'.journal == s.journal)
    {
      s', path := s, Stay(s);
      outcome := LoadHeld(readFailures, moveFails, s.document);
      var entries := StartHeld(outcome, removal, v, s.document);
      if !parked {
        s', path := Starts(world, s, AsMap(entries));
      }
    }

    ghost function StartEvent(document: Option<Snapshot>, removal: Removal): ShippedJournal.Event {
      if document.Some? then Restarting(identity, removal) else Resetting(identity, removal)
    }

    /** Loading, when the file holds the last saved snapshot or nothing. */
    method LoadHeld(readFailures: nat, moveFails: bool, ghost document: Option<Snapshot>)
      returns (outcome: Result<LoadOutcome, LoadError>)
      requires Lawful(checkpoint.codec) && Stores(document)
      modifies checkpoint
      ensures outcome == match document
                         case None => Ok(Missing)
                         case Some(snapshot) =>
                           if readFailures >= 3 then Err(IoFailed)
                           else Ok(Loaded(snapshot.(cursors := Rewound(snapshot.cursors, checkpoint.window))))
      ensures Stores(document)
    {
      StoredIsHeld(document);
      if document.Some? {
        WrittenDocumentLoads(checkpoint.codec, checkpoint.identity, checkpoint.window, document.value);
      }
      outcome := LoadCheckpoint(readFailures, moveFails);
    }

    /** Only a drained pipeline lets the snapshot follow memory. */
    method TakeSnapshot(received: Option<nat>, finished: Option<nat>, ghost world: World, ghost s: System)
      returns (drained: bool, ghost s': System, ghost path: Path)
      requires IsIn(world, s) && !parked
      requires received == Some(s.received) && finished == Some(s.finished)
      modifies this`processed
      ensures IsIn(world, s')
      ensures drained <==> sender.queue == [] && received == finished
      ensures Leads(world, s, path, s')
      ensures path.steps == Taken(drained, Step.TakeSnapshot)
      ensures drained ==>
                && processed.cursors == state.cursors && processed.recent == state.recentSignatures
                && forall t :: t in processed.quarantined <==> t in state.poisonFailures && state.poisonFailures[t].quarantined
      ensures !drained ==> processed == old(processed)
    {
      Opens(world, s);
      drained := PipelineDrained(sender.queue == [], received, finished);
      s' := s;
      path := StaysPut(world, s);
      if drained {
        CopyState();
        s', path := SnapshotStep(world, s);
      }
    }

    /** The save itself: the document on disk changes at the rename. */
    method SaveStored(now: nat, completed: nat, ghost document: Option<Snapshot>) returns (saved: Result<bool, LoadError>)
      requires Consistent() && Stores(document)
      modifies checkpoint
      ensures Stores(if saved != Ok(false) && completed >= 5 then Some(processed) else document)
      ensures saved == Ok(true) ==> completed >= 5
      ensures var attempted := processed.cursors.Keys == AddressSet(addresses)
                               && Awaited(old(checkpoint.lastWriteCompletedAt), old(checkpointUrgent), now);
              saved == if !attempted then Ok(false) else if completed < 6 then Err(IoFailed) else Ok(true)
      ensures saved != Ok(false) ==> Complete(checkpoint.identity, processed.cursors)
    {
      StoredIsHeld(document);
      checkpoint.DueExactly(checkpointUrgent, now);
      SavedPath(checkpoint.disk, DocumentOf(checkpoint.codec, checkpoint.identity, processed), completed);
      saved := checkpoint.SaveIfDue(processed, checkpointUrgent, now, completed);
    }

    method SaveSnapshot(now: nat, completed: nat, ghost world: World, ghost s: System)
      returns (saved: Result<bool, LoadError>, ghost s': System, ghost path: Path)
      requires IsIn(world, s) && !parked
      modifies checkpoint
      ensures IsIn(world, s')
      ensures saved == Ok(true) ==> s'.document == Some(processed)
      ensures var attempted := processed.cursors.Keys == AddressSet(addresses)
                               && Awaited(old(checkpoint.lastWriteCompletedAt), old(checkpointUrgent), now);
              saved == if !attempted then Ok(false) else if completed < 6 then Err(IoFailed) else Ok(true)
      ensures Leads(world, s, path, s')
      ensures path.steps == Taken(saved != Ok(false) && completed >= 5, Step.Save)
    {
      Opens(world, s);
      saved := SaveStored(now, completed, s.document);
      s' := s;
      path := StaysPut(world, s);
      if saved != Ok(false) && completed >= 5 {
        s', path := SaveStep(world, s);
      }
    }

    /** Against the durable slot, never against memory. */
    method CompactJournal(fails: bool, ghost world: World, ghost s: System) returns (ghost s': System, ghost path: Path)
      requires IsIn(world, s) && !parked
      requires s.document == Some(processed)
      modifies journal
      ensures IsIn(world, s')
      ensures Leads(world, s, path, s')
      ensures path.steps == Taken(!fails, Step.Compact)
    {
      Opens(world, s);
      s' := s;
      path := StaysPut(world, s);
      var checkpointSlot := FindMinimumCursor(processed.cursors, 0);
      if !fails {
        s', path := CompactStep(world, s, checkpointSlot);
      }
      JournalDoesAgree();
      CompactAgreeing(journal, UnreachableBelow(checkpointSlot, window), fails);
    }

    method PollOnce(endpoint: Endpoint, now: nat, ghost world: World, ghost s: System, ghost contexts: map<Address, u64>)
      returns (result: Result<PollOutcome, PollError>, ghost s': System, ghost step: Step)
      requires IsIn(world, s) && !parked
      requires ServesDistinct(endpoint) && Serves(endpoint, world, contexts)
      modifies state, sender, (if delivered == null then {} else {delivered})`pending
      ensures IsIn(world, s')
      ensures Leads(world, s, Went(s, step, s'), s')
      ensures if result.Ok? then step.PollOk? else step.PollErr?
      ensures Healthy(endpoint, window, addresses, Absorbed(old(state.View()), old(Pending()))) && old(sender.room).None? ==> result.Ok?
    {
      Opens(world, s);
      result, s', step := PollAsStep(endpoint, window, addresses, delivered, sender, state, now, world, s, contexts);
    }

    /** As `IsIn`, but some gap may just have been seen too often. */
    ghost predicate Falters(world: World, s: System)
      reads this`parked, this`processed, this`results, state, checkpoint, journal, sender, historyGaps, cursorsAhead,
            (if delivered == null then {} else {delivered})
    {
      forall now :: Same(s, now) ==> Sound() && Represents(world, now)
    }

    lemma FalteringOpens(world: World, s: System)
      requires Falters(world, s)
      ensures Sound() && Represents(world, s)
    {
      assert Same(s, s);
    }

    method Park(ghost world: World, ghost s: System) returns (ghost s': System, ghost path: Path)
      requires Falters(world, s)
      modifies this`parked, (if delivered == null then {} else {delivered})
      ensures IsIn(world, s') && parked
      ensures Leads(world, s, path, s') && path.steps == [Step.Park]
    {
      FalteringOpens(world, s);
      StopRecovery();
      s', path := ParkStep(world, s);
    }

    /** What the outcome of a poll changes: the next save's urgency, and whether one kind
        of failure has now been seen three times in a row. */
    method Observe(result: PollResult) returns (giveUp: bool)
      requires Tracks() && Watching()
      modifies this`checkpointUrgent, this`results, historyGaps, cursorsAhead
      ensures Tracks() && results == old(results) + [result]
      ensures giveUp <==> EndsRecovery(results)
      ensures giveUp <==> !Watching()
      ensures checkpointUrgent == if result.Ok? then result.value.checkpointUrgent else old(checkpointUrgent)
      ensures result.Err? && !result.error.CursorAhead? && !result.error.HistoryUnavailable? ==>
                && !giveUp
                && historyGaps.consecutive == old(historyGaps.consecutive)
                && cursorsAhead.consecutive == old(cursorsAhead.consecutive)
      ensures result.Ok? ==>
                && !giveUp && cursorsAhead.consecutive == 0
                && historyGaps.consecutive == if result.value.historyBoundaryVerified then 0 else old(historyGaps.consecutive)
      ensures result == Err(CursorAhead) ==>
                && cursorsAhead.consecutive == old(cursorsAhead.consecutive) + 1
                && historyGaps.consecutive == old(historyGaps.consecutive)
                && (giveUp <==> old(cursorsAhead.consecutive) >= 2)
      ensures result.Err? && result.error.HistoryUnavailable? ==>
                && historyGaps.consecutive == old(historyGaps.consecutive) + 1
                && cursorsAhead.consecutive == old(cursorsAhead.consecutive)
                && (giveUp <==> old(historyGaps.consecutive) >= 2)
    {
      assert Same(results, results);
      TrackedOneMore(results, result, AboutHistory);
      TrackedOneMore(results, result, AboutCursors);
      giveUp := false;
      match result {
        case Ok(outcome) =>
          checkpointUrgent := outcome.checkpointUrgent;
          cursorsAhead.RecordRecovered();
          if outcome.historyBoundaryVerified {
            historyGaps.RecordRecovered();
          }
        case Err(error) =>
          if error.CursorAhead? {
            giveUp := cursorsAhead.RecordGap();
          } else if error.HistoryUnavailable? {
            giveUp := historyGaps.RecordGap();
          }
      }
      results := results + [result];
      WatchesUntilItGivesUp();
    }

    /** A save that succeeded is followed by compaction. */
    method SaveAndCompact(now: nat, faults: Faults, ghost world: World, ghost s: System)
      returns (saved: Result<bool, LoadError>, ghost s': System, ghost path: Path)
      requires IsIn(world, s) && !parked
      modifies checkpoint, journal
      ensures IsIn(world, s')
      ensures Leads(world, s, path, s')
      ensures var attempted := processed.cursors.Keys == AddressSet(addresses)
                               && Awaited(old(checkpoint.lastWriteCompletedAt), old(checkpointUrgent), now);
              saved == if !attempted then Ok(false) else if faults.saveCompletes < 6 then Err(IoFailed) else Ok(true)
      ensures path.steps == Taken(saved != Ok(false) && faults.saveCompletes >= 5, Step.Save)
                            + Taken(saved == Ok(true) && !faults.compactFails, Step.Compact)
    {
      ghost var middle, part;
      saved, s', path := SaveSnapshot(now, faults.saveCompletes, world, s);
      if saved == Ok(true) {
        middle := s';
        s', part := CompactJournal(faults.compactFails, world, middle);
        path := PathsJoin(world, s, path, middle, part, s');
      } else {
        assert path.steps == path.steps + [];
      }
    }

    /** The first half of a turn: snapshot, save, compact. */
    method Checkpointing(
        received: Option<nat>, finished: Option<nat>, now: nat, faults: Faults, ghost world: World, ghost s: System)
      returns (drained: bool, saved: Result<bool, LoadError>, ghost s': System, ghost path: Path)
      requires IsIn(world, s) && !parked
      requires received == Some(s.received) && finished == Some(s.finished)
      modifies this`processed, checkpoint, journal
      ensures IsIn(world, s')
      ensures Leads(world, s, path, s')
      ensures drained <==> sender.queue == [] && received == finished
      ensures var attempted := processed.cursors.Keys == AddressSet(addresses)
                               && Awaited(old(checkpoint.lastWriteCompletedAt), old(checkpointUrgent), now);
              saved == if !attempted then Ok(false) else if faults.saveCompletes < 6 then Err(IoFailed) else Ok(true)
      ensures path.steps == Taken(drained, Step.TakeSnapshot)
                            + (Taken(saved != Ok(false) && faults.saveCompletes >= 5, Step.Save)
                               + Taken(saved == Ok(true) && !faults.compactFails, Step.Compact))
    {
      ghost var middle, part;
      drained, middle, path := TakeSnapshot(received, finished, world, s);
      saved, s', part := SaveAndCompact(now, faults, world, middle);
      path := PathsJoin(world, s, path, middle, part, s');
    }

    method ObserveIn(result: Result<PollOutcome, PollError>, ghost world: World, ghost s: System) returns (giveUp: bool)
      requires IsIn(world, s) && !parked
      modifies this`checkpointUrgent, this`results, historyGaps, cursorsAhead
      ensures Falters(world, s) && (!giveUp ==> IsIn(world, s))
      ensures checkpointUrgent == if result.Ok? then result.value.checkpointUrgent else old(checkpointUrgent)
      ensures results == old(results) + [result]
      ensures giveUp <==> EndsRecovery(results)
      ensures result.Err? && !result.error.CursorAhead? && !result.error.HistoryUnavailable? ==> !giveUp
    {
      Opens(world, s);
      giveUp := Observe(result);
    }

    /** What follows a poll: on the third gap in a row, recovery gives up. */
    method React(result: Result<PollOutcome, PollError>, ghost world: World, ghost s: System)
      returns (ghost s': System, ghost path: Path)
      requires IsIn(world, s) && !parked
      modifies this`checkpointUrgent, this`parked, this`results, historyGaps, cursorsAhead, (if delivered == null then {} else {delivered})
      ensures IsIn(world, s')
      ensures Leads(world, s, path, s')
      ensures parked <==> EndsRecovery(results)
      ensures checkpointUrgent == if result.Ok? then result.value.checkpointUrgent else old(checkpointUrgent)
      ensures results == old(results) + [result]
      ensures result.Err? && !result.error.CursorAhead? && !result.error.HistoryUnavailable? ==> !parked
      ensures path.steps == Taken(parked, Step.Park)
    {
      var giveUp := ObserveIn(result, world, s);
      if giveUp {
        s', path := Park(world, s);
      } else {
        s' := s;
        path := StaysPut(world, s);
      }
    }

    method PollAndReact(endpoint: Endpoint, now: nat, ghost world: World, ghost s: System, ghost contexts: map<Address, u64>)
      returns (result: Result<PollOutcome, PollError>, ghost s': System, ghost step: Step, ghost path: Path)
      requires IsIn(world, s) && !parked
      requires ServesDistinct(endpoint) && Serves(endpoint, world, contexts)
      modifies this`checkpointUrgent, this`parked, this`results, state, sender, historyGaps, cursorsAhead,
               (if delivered == null then {} else {delivered})
      ensures IsIn(world, s')
      ensures Leads(world, s, path, s')
      ensures if result.Ok? then step.PollOk? else step.PollErr?
      ensures checkpointUrgent == if result.Ok? then result.value.checkpointUrgent else old(checkpointUrgent)
      ensures results == old(results) + [result]
      ensures path.steps == [step] + Taken(parked, Step.Park)
      ensures parked <==> EndsRecovery(results)
      ensures result.Err? && !result.error.CursorAhead? && !result.error.HistoryUnavailable? ==> !parked
      ensures Healthy(endpoint, window, addresses, Absorbed(old(state.View()), old(Pending()))) && old(sender.room).None? ==> result.Ok?
    {
      ghost var polled, part;
      result, polled, step := PollOnce(endpoint, now, world, s, contexts);
      s', part := React(result, world, polled);
      path := PathsJoin(world, s, Went(s, step, polled), polled, part, s');
    }

    /** One turn of the loop: a path of the protocol's steps, between states the objects
        represent. */
    method Iterate(
        endpoint: Endpoint, received: Option<nat>, finished: Option<nat>, now: nat, faults: Faults,
        ghost world: World, ghost s: System, ghost contexts: map<Address, u64>)
      returns (drained: bool, saved: Result<bool, LoadError>, result: Result<PollOutcome, PollError>,
               ghost s': System, ghost step: Step, ghost path: Path)
      requires IsIn(world, s) && !parked
      requires received == Some(s.received) && finished == Some(s.finished)
      requires ServesDistinct(endpoint) && Serves(endpoint, world, contexts)
      modifies Repr()
      ensures IsIn(world, s')
      ensures Leads(world, s, path, s')
      ensures checkpointUrgent == if result.Ok? then result.value.checkpointUrgent else old(checkpointUrgent)
      ensures results == old(results) + [result] && (parked <==> EndsRecovery(results))
      ensures result.Err? && !result.error.CursorAhead? && !result.error.HistoryUnavailable? ==> !parked
      ensures drained <==> old(sender.queue) == [] && received == finished
      ensures var attempted := processed.cursors.Keys == AddressSet(addresses)
                               && Awaited(old(checkpoint.lastWriteCompletedAt), old(checkpointUrgent), now);
              saved == if !attempted then Ok(false) else if faults.saveCompletes < 6 then Err(IoFailed) else Ok(true)
      ensures saved == Ok(true) ==> Step.Save in path.steps
      ensures if result.Ok? then step.PollOk? else step.PollErr?
      ensures path.steps == Taken(drained, Step.TakeSnapshot)
                            + (Taken(saved != Ok(false) && faults.saveCompletes >= 5, Step.Save)
                               + Taken(saved == Ok(true) && !faults.compactFails, Step.Compact))
                            + ([step] + Taken(parked, Step.Park))
      ensures Healthy(endpoint, window, addresses, Absorbed(old(state.View()), old(Pending()))) && old(sender.room).None? ==> result.Ok?
    {
      ghost var saving, part;
      drained, saved, saving, path := Checkpointing(received, finished, now, faults, world, s);
      result, s', step, part := PollAndReact(endpoint, now, world, saving, contexts);
      SavedTurnSaves(path.steps, part.steps, drained, saved == Ok(true), saved == Ok(true) && !faults.compactFails, saved != Ok(false) && faults.saveCompletes >= 5);
      path := PathsJoin(world, s, path, saving, part, s');
    }
  }
}
