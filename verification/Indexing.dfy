/** The indexer over its whole life: the recovery loop and, around it, the stream's
    relay, the pipeline that logs and journals what is queued, and the death and restart
    of the process over its checkpoint file and its journal. Whatever happens in whatever
    order, what the files hold accounts for every transaction in scope. */
module Indexing {
  import opened Primitives
  import opened Text
  import opened Progress
  import opened PollSpec
  import opened Delivered
  import opened Poller
  import opened Protocol
  import opened NoLoss
  import AtMostOnce
  import opened Refinement
  import opened Shipped
  import opened ShippedJournal
  import opened Checkpoint
  import opened Runtime

  // ---------------------------------------------------------------------------
  // Runs and their parts
  // ---------------------------------------------------------------------------

  /** The steps of a deployment in RPC mode that finds a checkpoint whenever it starts
      again; said like `Leads`. */
  ghost predicate IsOrderly(path: Path) {
    forall same :: Same(path, same) ==> StaysOrderly(same)
  }

  ghost predicate StaysOrderly(path: Path) {
    && |path.states| == |path.steps| + 1
    && forall i {:trigger path.steps[i]} :: 0 <= i < |path.steps| ==> AtMostOnce.Orderly(path.states[i], path.steps[i])
  }

  lemma OrderlyIsOrderly(path: Path)
    requires IsOrderly(path)
    ensures StaysOrderly(path)
  {
    assert Same(path, path);
  }

  lemma OrderlyStep(s: System, step: Step, s': System)
    requires AtMostOnce.Orderly(s, step)
    ensures IsOrderly(Went(s, step, s'))
  {
    assert StaysOrderly(Went(s, step, s'));
  }

  lemma StayingIsOrderly(s: System)
    ensures IsOrderly(Stay(s))
  {
    assert StaysOrderly(Stay(s));
  }

  lemma OrderlyPathsJoin(run: Path, path: Path)
    requires StaysOrderly(run) && StaysOrderly(path) && run.states[|run.steps|] == path.states[0]
    ensures StaysOrderly(Joined(run, path))
  {
    var n, longer := |run.steps|, Joined(run, path);
    forall i | 0 <= i < |longer.steps| ensures AtMostOnce.Orderly(longer.states[i], longer.steps[i]) {
      if i < n {
        assert longer.states[i] == run.states[i] && longer.steps[i] == run.steps[i];
      } else {
        assert longer.steps[i] == path.steps[i - n] && longer.states[i] == path.states[i - n];
      }
    }
  }

  /** Some run of the deployment ends in `s`. */
  ghost predicate Reached(world: World, s: System, orderly: bool) {
    exists run :: RunsTo(world, run, s, orderly)
  }

  ghost predicate RunsTo(world: World, run: Path, s: System, orderly: bool) {
    && IsRun(world, run.states, run.steps) && run.states[|run.steps|] == s
    && (orderly ==> StaysOrderly(run))
  }

  lemma StartIsReached(world: World, orderly: bool)
    ensures Reached(world, Protocol.START, orderly)
  {
    assert RunsTo(world, Stay(Protocol.START), Protocol.START, orderly);
  }

  lemma ReachedForgetsOrder(world: World, s: System, orderly: bool)
    requires Reached(world, s, orderly)
    ensures Reached(world, s, false)
  {
    var run :| RunsTo(world, run, s, orderly);
    assert RunsTo(world, run, s, false);
  }

  lemma PathReachesOn(world: World, s: System, path: Path, s': System, orderly: bool)
    requires Reached(world, s, orderly)
    requires Leads(world, s, path, s') && (orderly ==> IsOrderly(path))
    ensures Reached(world, s', orderly)
  {
    var run :| RunsTo(world, run, s, orderly);
    LeadingConnects(world, s, path, s');
    if orderly {
      OrderlyIsOrderly(path);
      OrderlyPathsJoin(run, path);
    }
    JoinedRuns(world, run, path, s, s');
    assert RunsTo(world, Joined(run, path), s', orderly);
  }

  lemma JoinedRuns(world: World, run: Path, path: Path, s: System, s': System)
    requires IsRun(world, run.states, run.steps) && run.states[|run.steps|] == s
    requires Connects(world, s, path, s')
    ensures var longer := Joined(run, path);
            IsRun(world, longer.states, longer.steps) && longer.states[|longer.steps|] == s'
  {
    var n, longer := |run.steps|, Joined(run, path);
    forall i | 0 <= i < |longer.steps| ensures Protocol.Next(world, longer.states[i], longer.states[i + 1], longer.steps[i]) {
      if i < n {
        assert longer.states[i] == run.states[i] && longer.steps[i] == run.steps[i];
      } else {
        assert longer.steps[i] == path.steps[i - n];
      }
    }
  }

  /** The part of the system that is neither the poller's nor on disk. */
  datatype Surroundings = Surroundings(
    relayed: seq<Update>, inflight: multiset<Update>, logged: multiset<Update>, received: nat, finished: nat)

  const ALONE: Surroundings := Surroundings([], multiset{}, multiset{}, 0, 0)

  function Around(s: System): Surroundings {
    Surroundings(s.relayed, s.inflight, s.logged, s.received, s.finished)
  }

  predicate IsLoopStep(step: Step) {
    step.TakeSnapshot? || step.Save? || step.Compact? || step.PollOk? || step.PollErr? || step.Park?
  }

  /** The loop's own steps leave the surroundings alone. */
  lemma {:induction false} LoopKeepsSurroundings(world: World, s: System, path: Path, s': System)
    requires Leads(world, s, path, s')
    requires forall step :: step in path.steps ==> IsLoopStep(step)
    ensures Around(s') == Around(s) && s'.emissions == s.emissions
    decreases |path.steps|
  {
    LeadingConnects(world, s, path, s');
    if path.steps != [] {
      var shorter, middle := WithoutLast(world, s, path, s');
      LoopKeepsSurroundings(world, s, shorter, middle);
      LoopStepKeepsSurroundings(world, middle, s', path.steps[|path.steps| - 1]);
    }
  }

  lemma LeadingHasStates(world: World, s: System, path: Path, s': System)
    requires Leads(world, s, path, s')
    ensures |path.states| == |path.steps| + 1
  {
    LeadingConnects(world, s, path, s');
  }

  lemma LoopIsOrderly(path: Path)
    requires |path.states| == |path.steps| + 1
    requires forall step :: step in path.steps ==> IsLoopStep(step)
    ensures IsOrderly(path)
  {
    forall i {:trigger path.steps[i]} | 0 <= i < |path.steps| ensures AtMostOnce.Orderly(path.states[i], path.steps[i]) {
      assert path.steps[i] in path.steps;
    }
    assert StaysOrderly(path);
  }

  lemma TurnTakesLoopSteps(steps: seq<Step>, drained: bool, saved: bool, compacted: bool, step: Step, parked: bool)
    requires step.PollOk? || step.PollErr?
    requires steps == Taken(drained, Step.TakeSnapshot) + (Taken(saved, Step.Save) + Taken(compacted, Step.Compact))
                      + ([step] + Taken(parked, Step.Park))
    ensures forall taken :: taken in steps ==> IsLoopStep(taken)
  {
  }

  /** So does a turn, and it is orderly. */
  lemma TurnKeepsSurroundings(
      world: World, s: System, path: Path, s': System, drained: bool, saved: bool, compacted: bool, step: Step, parked: bool)
    requires Leads(world, s, path, s')
    requires step.PollOk? || step.PollErr?
    requires path.steps == Taken(drained, Step.TakeSnapshot) + (Taken(saved, Step.Save) + Taken(compacted, Step.Compact))
                           + ([step] + Taken(parked, Step.Park))
    ensures Around(s') == Around(s) && s'.emissions == s.emissions
    ensures IsOrderly(path)
  {
    TurnTakesLoopSteps(path.steps, drained, saved, compacted, step, parked);
    LoopKeepsSurroundings(world, s, path, s');
    LeadingHasStates(world, s, path, s');
    LoopIsOrderly(path);
  }

  lemma WithoutLast(world: World, s: System, path: Path, s': System) returns (shorter: Path, middle: System)
    requires Leads(world, s, path, s') && path.steps != []
    ensures var n := |path.steps| - 1;
            && shorter.steps == path.steps[..n] && Leads(world, s, shorter, middle)
            && Protocol.Next(world, middle, s', path.steps[n])
  {
    LeadingConnects(world, s, path, s');
    var n := |path.steps| - 1;
    shorter, middle := Path(path.states[..n + 1], path.steps[..n]), path.states[n];
    forall i {:trigger shorter.steps[i]} | 0 <= i < n
      ensures Protocol.Next(world, shorter.states[i], shorter.states[i + 1], shorter.steps[i])
    {
      assert shorter.steps[i] == path.steps[i];
    }
    assert Connects(world, s, shorter, middle);
    assert Protocol.Next(world, path.states[n], path.states[n + 1], path.steps[n]);
  }

  lemma LoopStepKeepsSurroundings(world: World, s: System, s': System, step: Step)
    requires Protocol.Next(world, s, s', step) && IsLoopStep(step)
    ensures Around(s') == Around(s) && s'.emissions == s.emissions
  {
  }

  lemma StartsFirst(world: World, path: Path, s': System)
    requires Leads(world, Protocol.START, path, s') && path.steps == [Step.FreshStart]
    ensures s' == Protocol.START
  {
    OnlyStep(world, Protocol.START, path, s');
    assert Protocol.SignaturesIn(multiset{}) == {};
  }

  lemma StartClearsSurroundings(world: World, s: System, path: Path, s': System)
    requires Leads(world, s, path, s') && |path.steps| == 1
    requires path.steps[0].Restart? || path.steps[0].FreshStart?
    ensures Around(s') == ALONE && s'.emissions == s.emissions
  {
    OnlyStep(world, s, path, s');
  }

  // ---------------------------------------------------------------------------
  // What the files account for
  // ---------------------------------------------------------------------------

  /** A process started over these two files can still find `t`: some address of the
      loaded checkpoint lists it, and neither file suppresses it. */
  ghost predicate StillAhead(world: World, loaded: Snapshot, journal: Contents, t: Signature) {
    && Witnessed(world, loaded.cursors, t)
    && t !in loaded.recent
    && (forall e :: e in journal.entries ==> e.signature != t)
  }

  ghost predicate AccountedFor(world: World, records: seq<Signature>, loaded: Snapshot, journal: Contents, t: Signature) {
    t in records || t in loaded.quarantined || StillAhead(world, loaded, journal, t)
  }

  /** The theorem about runs, seen through the files. */
  lemma FilesAccountFor(
      world: World, s: System, orderly: bool, records: seq<Signature>, loaded: Snapshot, journal: Contents, t: Signature)
    requires DistinctMonitored(world)
    requires Reached(world, s, orderly) && s.document.Some?
    requires s.emissions == multiset(records)
    requires ShippedJournal.Once(journal.entries) && s.journal == AsMap(journal.entries)
    requires loaded == s.document.value.(cursors := Rewound(s.document.value.cursors, world.window))
    requires InScope(world, s.scope, t)
    ensures AccountedFor(world, records, loaded, journal, t)
  {
    var run :| RunsTo(world, run, s, orderly);
    NoTransactionIsLost(world, run.states, run.steps, t);
    AsMapLooksUp(journal.entries);
    if Witnessed(world, s.document.value.cursors, t) {
      var a :| WitnessedBy(world, s.document.value.cursors, t, a);
      assert WitnessedBy(world, loaded.cursors, t, a);
    }
  }

  lemma RecordsAreFew(world: World, s: System, records: seq<Signature>, t: Signature)
    requires Reached(world, s, true) && s.emissions == multiset(records)
    requires !AtMostOnce.Faded(world, s, t)
    ensures multiset(records)[t] <= 1
  {
    var run :| RunsTo(world, run, s, true);
    AtMostOnce.RecordedAtMostOnce(world, run.states, run.steps, t);
  }

  // ---------------------------------------------------------------------------
  // The indexer
  // ---------------------------------------------------------------------------

  /** What can happen to a deployment. A process that dies is started again over the
      same files; a death inside a turn is a turn whose later calls failed, then one. */
  datatype Happening =
    | StreamSends(sent: PipelineUpdate)
    | RelayRecords
    | PipelineTakes
    | PipelineLogs(update: Update)
    | PipelineShips(update: Update, fault: Option<AppendFault>)
    | LoopTurns(endpoint: Endpoint, contexts: map<Address, u64>, now: nat, faults: Faults)
    | ProcessDies(readFailures: nat, room: Option<nat>)

  /** The stream delivers confirmed transactions, and the endpoint serves the ledger. */
  ghost predicate Admissible(world: World, happening: Happening) {
    match happening
    case StreamSends(Transaction(update)) =>
      update.signature in world.ledger && update.slot == world.ledger[update.signature].slot
    case LoopTurns(endpoint, contexts, _, _) => ServesDistinct(endpoint) && Serves(endpoint, world, contexts)
    case _ => true
  }

  /** What is configured once, for every process. */
  datatype Setting = Setting(
    addresses: seq<Address>, window: Window, codec: Codec, checkpointIdentity: Identity, journalIdentity: string, streaming: bool)

  ghost predicate Configured(setting: Setting, world: World) {
    && Lawful(setting.codec) && OneLine(setting.journalIdentity)
    && world.addresses == setting.addresses && world.window == setting.window && DistinctMonitored(world)
    && AddressSet(setting.checkpointIdentity.addresses) == AddressSet(setting.addresses)
  }

  /** The same, said like `Leads`. */
  ghost predicate Suits(setting: Setting, world: World) {
    forall same :: Same(world, same) ==> Configured(setting, same)
  }

  lemma SuitingIsConfigured(setting: Setting, world: World)
    requires Suits(setting, world)
    ensures Configured(setting, world)
  {
    assert Same(world, world);
  }

  ghost predicate Follows(recovery: Recovery, setting: Setting) {
    && recovery.addresses == setting.addresses && recovery.window == setting.window
    && recovery.identity == setting.journalIdentity
    && recovery.checkpoint.codec == setting.codec && recovery.checkpoint.identity == setting.checkpointIdentity
    && recovery.checkpoint.window == setting.window && recovery.journal.codec == setting.codec
    && (recovery.delivered != null <==> setting.streaming)
  }

  /** A process over these two files. */
  method NewProcess(setting: Setting, room: Option<nat>, disk: Disk, file: Option<string>, ghost contents: Contents)
    returns (recovery: Recovery)
    requires Lawful(setting.codec)
    requires ShippedJournal.Holds(setting.codec, if file.Some? then file.value else "", contents)
    ensures fresh(recovery.Repr()) && Follows(recovery, setting) && recovery.Fresh()
    ensures recovery.checkpoint.disk == disk && recovery.journal.file == file
    ensures recovery.journal.Valid() && recovery.journal.Abstract() == View(contents, false, {}, None)
  {
    var checkpoint := new CheckpointStore(setting.codec, setting.checkpointIdentity, setting.window, disk);
    var journal := new Journal(setting.codec, file, contents);
    var sender := new UpdateChannel(room);
    var delivered: DeliveredSignatures? := null;
    if setting.streaming {
      delivered := new DeliveredSignatures();
    }
    recovery := new Recovery(setting.addresses, setting.window, setting.journalIdentity, checkpoint, journal, sender, delivered);
  }

  /** The file's own part of the journal's agreement, which outlives the process. */
  function Outliving(v: View, identity: string): View {
    View(v.contents, false, ShippedJournal.SignaturesIn(v.contents.entries), Some(identity))
  }

  ghost predicate JournalOutlives(journal: Journal, identity: string, entries: map<Signature, u64>)
    reads journal
  {
    forall v :: Same(Outliving(journal.Abstract(), identity), v) ==>
      journal.Valid() && Agrees(v) && entries == AsMap(v.contents.entries)
  }

  lemma JournalDoesOutlive(journal: Journal, identity: string, entries: map<Signature, u64>)
    requires JournalOutlives(journal, identity, entries)
    ensures var v := Outliving(journal.Abstract(), identity);
            journal.Valid() && Agrees(v) && entries == AsMap(v.contents.entries)
  {
    var v := Outliving(journal.Abstract(), identity);
    assert Same(v, v);
  }

  /** What a process in state `s` leaves behind when it dies. */
  ghost predicate Leaves(recovery: Recovery, s: System)
    reads recovery.journal, recovery.checkpoint
  {
    && Lawful(recovery.checkpoint.codec)
    && recovery.Stores(s.document)
    && JournalOutlives(recovery.journal, recovery.identity, s.journal)
  }

  lemma WorkingLeavesFiles(recovery: Recovery, world: World, s: System)
    requires recovery.IsIn(world, s)
    ensures Leaves(recovery, s)
  {
    recovery.Opens(world, s);
    recovery.JournalDoesAgree();
  }

  lemma RestartIsOrderly(world: World, s: System, path: Path, s': System)
    requires Leads(world, s, path, s') && path.steps == [Step.Restart(s.journal)]
    ensures IsOrderly(path)
  {
    LeadingConnects(world, s, path, s');
    assert StaysOrderly(path);
  }

  lemma NoFileNoDocument(recovery: Recovery, s: System)
    requires Leaves(recovery, s)
    ensures recovery.checkpoint.disk.path.None? <==> s.document.None?
  {
    recovery.StoredIsHeld(s.document);
  }

  /** A process over the files that another left: it works from the state the protocol
      restarts in, or it could not read the checkpoint and leaves them as they are. */
  method StartAnother(
      setting: Setting, previous: Recovery, readFailures: nat, room: Option<nat>, ghost world: World, ghost s: System, ghost orderly: bool)
    returns (recovery: Recovery, ghost s': System)
    requires Suits(setting, world) && Follows(previous, setting)
    requires Leaves(previous, s) && Reached(world, s, orderly)
    ensures fresh(recovery.Repr()) && Follows(recovery, setting)
    ensures recovery.parked <==> s.document.Some? && readFailures >= 3
    ensures if recovery.parked then s' == s && Leaves(recovery, s) else recovery.IsIn(world, s') && Around(s') == ALONE
    ensures s'.emissions == s.emissions
    ensures Reached(world, s', orderly && previous.checkpoint.disk.path.Some?)
  {
    SuitingIsConfigured(setting, world);
    JournalDoesOutlive(previous.journal, previous.identity, s.journal);
    ghost var v := Outliving(previous.journal.Abstract(), previous.identity);
    recovery := NewProcess(setting, room, previous.checkpoint.disk, previous.journal.file, previous.journal.contents);
    SameDiskStores(previous, recovery, s.document);
    var outcome;
    ghost var path;
    outcome, s', path := recovery.Resume(readFailures, false, Gone, v, world, s);
    if recovery.parked {
      path := StaysPut(world, s);
    }
    StartReachesOn(world, s, path, s', previous, orderly);
  }

  lemma StartReachesOn(world: World, s: System, path: Path, s': System, previous: Recovery, orderly: bool)
    requires Leaves(previous, s) && Reached(world, s, orderly)
    requires Leads(world, s, path, s')
    requires path.steps == [if s.document.Some? then Step.Restart(s.journal) else Step.FreshStart] || (s.document.Some? && path == Stay(s))
    ensures Reached(world, s', orderly && previous.checkpoint.disk.path.Some?)
    ensures path.steps != [] ==> Around(s') == ALONE && s'.emissions == s.emissions
  {
    NoFileNoDocument(previous, s);
    ReachedForgetsOrder(world, s, orderly);
    if path.steps == [] {
      StayingIsOrderly(s);
    } else {
      StartClearsSurroundings(world, s, path, s');
      if s.document.Some? {
        RestartIsOrderly(world, s, path, s');
      }
    }
    PathReachesOn(world, s, path, s', orderly && s.document.Some?);
  }

  lemma SameDiskStores(previous: Recovery, recovery: Recovery, document: Option<Snapshot>)
    requires Lawful(previous.checkpoint.codec) && recovery.checkpoint.codec == previous.checkpoint.codec
    requires recovery.checkpoint.identity == previous.checkpoint.identity
    requires recovery.checkpoint.disk == previous.checkpoint.disk
    requires previous.Stores(document)
    ensures recovery.Stores(document)
  {
    previous.StoredIsHeld(document);
  }

  // ---------------------------------------------------------------------------
  // What happens around the loop
  // ---------------------------------------------------------------------------

  /** The loop's objects know nothing of the surroundings. */
  lemma SurroundingsDoNotMatter(recovery: Recovery, world: World, s: System, s': System)
    requires recovery.IsIn(world, s)
    requires s'.parked == s.parked && s'.progress == s.progress && s'.processed == s.processed
    requires s'.pending == s.pending && s'.queue == s.queue && s'.document == s.document && s'.journal == s.journal
    ensures recovery.IsIn(world, s')
  {
    recovery.Opens(world, s);
  }

  lemma LastTransaction(queue: seq<PipelineUpdate>, update: PipelineUpdate)
    ensures Transactions(queue + [update]) == Transactions(queue) + if update.Transaction? then [update.update] else []
  {
    assert (queue + [update])[..|queue|] == queue;
  }

  lemma SendStep(world: World, s: System, update: Update) returns (s': System, path: Path)
    requires update.signature in world.ledger && update.slot == world.ledger[update.signature].slot
    ensures s' == s.(relayed := s.relayed + [update], queue := s.queue + [update])
    ensures Leads(world, s, path, s')
  {
    s' := s.(relayed := s.relayed + [update], queue := s.queue + [update]);
    path := Went(s, StreamSend(update), s');
    StepLeads(world, s, StreamSend(update), s');
  }

  lemma RecordStep(world: World, s: System) returns (s': System, path: Path)
    requires s.relayed != []
    ensures s' == s.(relayed := s.relayed[1..], pending := if s.parked then s.pending else s.pending + [s.relayed[0]])
    ensures Leads(world, s, path, s') && IsOrderly(path)
  {
    s' := s.(relayed := s.relayed[1..], pending := if s.parked then s.pending else s.pending + [s.relayed[0]]);
    path := Went(s, StreamRecord, s');
    StepLeads(world, s, StreamRecord, s');
    OrderlyStep(s, StreamRecord, s');
  }

  lemma DequeueStep(world: World, s: System, update: Update, rest: seq<Update>) returns (s': System, path: Path)
    requires s.queue == [update] + rest
    ensures s' == s.(queue := rest, inflight := s.inflight + multiset{update}, received := s.received + 1)
    ensures Leads(world, s, path, s') && IsOrderly(path)
  {
    s' := s.(queue := rest, inflight := s.inflight + multiset{update}, received := s.received + 1);
    path := Went(s, Step.Dequeue, s');
    StepLeads(world, s, Step.Dequeue, s');
    OrderlyStep(s, Step.Dequeue, s');
  }

  lemma EmitStep(world: World, s: System, update: Update) returns (s': System, path: Path)
    requires update in s.inflight
    ensures s' == s.(inflight := s.inflight - multiset{update}, logged := s.logged + multiset{update},
                     emissions := s.emissions + multiset{update.signature})
    ensures Leads(world, s, path, s') && IsOrderly(path)
  {
    s' := s.(inflight := s.inflight - multiset{update}, logged := s.logged + multiset{update},
             emissions := s.emissions + multiset{update.signature});
    path := Went(s, Emit(update), s');
    StepLeads(world, s, Emit(update), s');
    OrderlyStep(s, Emit(update), s');
  }

  lemma ShipStep(world: World, s: System, step: Step, journal: map<Signature, u64>) returns (s': System, path: Path)
    requires Journals(s.journal, step, journal) && step.update in s.logged
    ensures s' == s.(logged := s.logged - multiset{step.update}, finished := s.finished + 1, journal := journal, exposed := s'.exposed)
    ensures step.update.signature in journal || step.update.signature in s'.exposed
    ensures Leads(world, s, path, s') && IsOrderly(path)
  {
    s' := s.(logged := s.logged - multiset{step.update}, finished := s.finished + 1, journal := journal,
             exposed := if step.JournalFails? then s.exposed + {step.update.signature} else s.exposed);
    path := Went(s, step, s');
    StepLeads(world, s, step, s');
    OrderlyStep(s, step, s');
  }

  method SendUpdate(recovery: Recovery, update: PipelineUpdate, ghost world: World, ghost s: System)
    returns (accepted: bool, ghost s': System, ghost path: Path)
    requires recovery.IsIn(world, s)
    requires update.Transaction? ==>
               update.update.signature in world.ledger && update.update.slot == world.ledger[update.update.signature].slot
    modifies recovery.sender
    ensures recovery.IsIn(world, s') && Leads(world, s, path, s')
    ensures s'.emissions == s.emissions
    ensures Around(s') == if accepted && update.Transaction?
                          then Around(s).(relayed := s.relayed + [update.update]) else Around(s)
    ensures accepted <==> old(recovery.sender.room) != Some(0)
    ensures recovery.sender.queue == if accepted then old(recovery.sender.queue) + [update] else old(recovery.sender.queue)
  {
    recovery.Opens(world, s);
    LastTransaction(recovery.sender.queue, update);
    accepted := recovery.sender.Send(update);
    if accepted && update.Transaction? {
      s', path := SendStep(world, s, update.update);
    } else {
      s' := s;
      path := StaysPut(world, s);
    }
  }

  method RecordDelivery(recovery: Recovery, ghost world: World, ghost s: System, delivery: Update)
    returns (ghost s': System, ghost path: Path)
    requires recovery.IsIn(world, s)
    requires recovery.delivered != null && s.relayed != [] && s.relayed[0] == delivery
    modifies recovery.delivered
    ensures recovery.IsIn(world, s') && Leads(world, s, path, s') && IsOrderly(path)
    ensures s'.emissions == s.emissions
    ensures Around(s') == Around(s).(relayed := s.relayed[1..])
    ensures recovery.delivered.pending ==
            old(recovery.delivered.pending) + if recovery.delivered.recording then [delivery] else []
    ensures recovery.delivered.recording == old(recovery.delivered.recording)
  {
    recovery.Opens(world, s);
    recovery.delivered.Record(delivery.signature, delivery.slot);
    s', path := RecordStep(world, s);
  }

  method TakeUpdate(recovery: Recovery, ghost world: World, ghost s: System)
    returns (update: PipelineUpdate, ghost s': System, ghost path: Path)
    requires recovery.IsIn(world, s) && recovery.sender.queue != []
    modifies recovery.sender
    ensures recovery.IsIn(world, s') && Leads(world, s, path, s') && IsOrderly(path)
    ensures s'.emissions == s.emissions
    ensures Around(s') == if update.Transaction?
                          then Around(s).(inflight := s.inflight + multiset{update.update}, received := s.received + 1)
                          else Around(s)
    ensures [update] + recovery.sender.queue == old(recovery.sender.queue)
  {
    recovery.Opens(world, s);
    update := recovery.sender.Take();
    if update.Transaction? {
      s', path := DequeueStep(world, s, update.update, Transactions(recovery.sender.queue));
    } else {
      s' := s;
      path := StaysPut(world, s);
      StayingIsOrderly(s);
    }
  }

  /** The journal's part of a processed transaction. */
  method ShipUpdate(recovery: Recovery, update: Update, fault: Option<AppendFault>, ghost world: World, ghost s: System)
    returns (ghost s': System, ghost path: Path)
    requires recovery.IsIn(world, s) && update in s.logged
    modifies recovery.journal
    ensures recovery.IsIn(world, s') && Leads(world, s, path, s') && IsOrderly(path)
    ensures s'.emissions == s.emissions
    ensures Around(s') == Around(s).(logged := s.logged - multiset{update}, finished := s.finished + 1)
    ensures fault.None? ==> update.signature in s'.journal
    ensures update.signature in s'.journal || update.signature in s'.exposed
  {
    recovery.Opens(world, s);
    recovery.JournalDoesAgree();
    ghost var step := RecordAgreeing(recovery.journal, update, fault);
    s', path := ShipStep(world, s, step, AsMap(recovery.journal.Abstract().contents.entries));
  }

  method TurnLoop(
      recovery: Recovery, endpoint: Endpoint, ghost contexts: map<Address, u64>, received: nat, finished: nat, now: nat, faults: Faults,
      ghost world: World, ghost s: System)
    returns (ghost s': System, ghost path: Path)
    requires recovery.IsIn(world, s) && !recovery.parked
    requires received == s.received && finished == s.finished
    requires ServesDistinct(endpoint) && Serves(endpoint, world, contexts)
    modifies recovery.Repr()
    ensures recovery.IsIn(world, s') && Leads(world, s, path, s') && IsOrderly(path)
    ensures Around(s') == Around(s) && s'.emissions == s.emissions
    ensures |recovery.results| == |old(recovery.results)| + 1
  {
    ghost var step;
    var drained, saved, result;
    drained, saved, result, s', step, path :=
      recovery.Iterate(endpoint, Some(received), Some(finished), now, faults, world, s, contexts);
    TurnKeepsSurroundings(
      world, s, path, s', drained, saved != Ok(false) && faults.saveCompletes >= 5,
      saved == Ok(true) && !faults.compactFails, step, recovery.parked);
  }

  const NO_DISK: Disk := Disk(None, None, None)

  /** One process of a deployment, from its start to its death. */
  class Indexer {
    ghost const world: World
    const setting: Setting
    const recovery: Recovery
    const stuck: bool               // the checkpoint could not be read: waiting for another start
    const startedAfresh: bool       // some start after the first found no checkpoint
    var around: Surroundings
    var records: seq<Signature>     // what the deployment ever logged
    ghost var past: seq<Happening>  // everything that happened to it
    ghost const Repr: set<object>

    constructor (
        ghost world: World, setting: Setting, recovery: Recovery, stuck: bool, startedAfresh: bool, records: seq<Signature>)
      ensures this.world == world && this.setting == setting && this.recovery == recovery
      ensures this.stuck == stuck && this.startedAfresh == startedAfresh
      ensures this.around == ALONE && this.records == records && past == []
      ensures Repr == {this} + recovery.Repr()
    {
      this.world, this.setting, this.recovery := world, setting, recovery;
      this.stuck, this.startedAfresh, this.around, this.records := stuck, startedAfresh, ALONE, records;
      this.past := [];
      this.Repr := {this} + recovery.Repr();
    }

    /** Only the files are left. */
    ghost predicate Rests(s: System)
      reads this`records, recovery.journal, recovery.checkpoint
    {
      Leaves(recovery, s) && multiset(records) == s.emissions
    }

    ghost predicate Works(s: System)
      reads this`around, this`records, recovery.Repr()
    {
      recovery.IsIn(world, s) && around == Around(s) && multiset(records) == s.emissions
    }

    /** The deployment is in the protocol's state `s`, which some run reached. */
    ghost predicate Valid(s: System)
      reads Repr
    {
      && Repr == {this} + recovery.Repr()
      && Suits(setting, world) && Follows(recovery, setting)
      && Reached(world, s, Orderly())
      && if stuck then Rests(s) else Works(s)
    }

    /** Nothing but the poller sends, and every start but the first found a checkpoint. */
    predicate Orderly() {
      !setting.streaming && !startedAfresh
    }

    /** The checkpoint as another start would load it. */
    function Loads(): Result<LoadOutcome, LoadError>
      reads recovery.checkpoint
      requires Lawful(setting.codec)
    {
      LoadedFrom(setting.codec, setting.checkpointIdentity, setting.window, Checkpoint.Contents(recovery.checkpoint.disk.path))
    }

    /** What the two files alone, as another start would read them, say of `t`. */
    ghost predicate Accounts(t: Signature)
      reads this`records, recovery.checkpoint, recovery.journal
      requires Lawful(setting.codec)
    {
      && Loads().Ok? && Loads().value.Loaded?
      && AccountedFor(world, records, Loads().value.snapshot, Read(setting.codec, recovery.journal.Text()), t)
    }

    lemma FilesAccount(s: System, t: Signature)
      requires Valid(s) && Lawful(setting.codec)
      requires recovery.checkpoint.disk.path.Some? && InScope(world, s.scope, t)
      ensures Accounts(t)
    {
      SuitingIsConfigured(setting, world);
      LeavesItsFiles(s);
      NoFileNoDocument(recovery, s);
      recovery.StoredIsHeld(s.document);
      WrittenDocumentLoads(setting.codec, setting.checkpointIdentity, setting.window, s.document.value);
      JournalDoesOutlive(recovery.journal, recovery.identity, s.journal);
      recovery.journal.ReadsBack();
      FilesAccountFor(world, s, Orderly(), records, Loads().value.snapshot, recovery.journal.contents, t);
    }

    /** What a deployment promises in every state it reaches. */
    lemma Promises(s: System)
      requires Valid(s) && Lawful(setting.codec)
      ensures recovery.checkpoint.disk.path.Some? ==> forall t :: InScope(world, s.scope, t) ==> Accounts(t)
      ensures Orderly() ==> forall t :: !AtMostOnce.Faded(world, s, t) ==> multiset(records)[t] <= 1
    {
      forall t | recovery.checkpoint.disk.path.Some? && InScope(world, s.scope, t) ensures Accounts(t) {
        FilesAccount(s, t);
      }
      forall t | Orderly() && !AtMostOnce.Faded(world, s, t) ensures multiset(records)[t] <= 1 {
        RecordsAreFew(world, s, records, t);
      }
    }

    lemma LeavesItsFiles(s: System)
      requires Valid(s)
      ensures Leaves(recovery, s)
    {
      if !stuck {
        WorkingLeavesFiles(recovery, world, s);
      }
    }

    ghost method Remember(past: seq<Happening>, s: System)
      requires Valid(s)
      modifies `past
      ensures Valid(s) && this.past == past
    {
      this.past := past;
    }

    method StreamSends(update: PipelineUpdate, ghost s: System) returns (ghost s': System)
      requires Valid(s) && !stuck && Admissible(world, Happening.StreamSends(update))
      modifies `around, recovery.sender
      ensures Valid(s')
      ensures var accepted := setting.streaming && old(recovery.sender.room) != Some(0);
              && recovery.sender.queue == (if accepted then old(recovery.sender.queue) + [update] else old(recovery.sender.queue))
              && around == if accepted && update.Transaction? then old(around).(relayed := old(around.relayed) + [update.update])
                           else old(around)
    {
      s' := s;
      if !setting.streaming {
        return;
      }
      ghost var path;
      var accepted;
      accepted, s', path := SendUpdate(recovery, update, world, s);
      PathReachesOn(world, s, path, s', false);
      if accepted && update.Transaction? {
        around := around.(relayed := around.relayed + [update.update]);
      }
    }

    method RelayRecords(ghost s: System) returns (ghost s': System)
      requires Valid(s) && !stuck
      modifies `around, (if recovery.delivered == null then {} else {recovery.delivered})
      ensures Valid(s')
      ensures around == if setting.streaming && old(around).relayed != [] then old(around).(relayed := old(around).relayed[1..])
                        else old(around)
      ensures setting.streaming && old(around).relayed != [] ==>
                recovery.delivered.pending ==
                old(recovery.delivered.pending) + if old(recovery.delivered.recording) then [old(around).relayed[0]] else []
    {
      s' := s;
      if recovery.delivered == null || around.relayed == [] {
        return;
      }
      ghost var path;
      s', path := RecordDelivery(recovery, world, s, around.relayed[0]);
      PathReachesOn(world, s, path, s', Orderly());
      around := around.(relayed := around.relayed[1..]);
    }

    method PipelineTakes(ghost s: System) returns (ghost s': System)
      requires Valid(s) && !stuck
      modifies `around, recovery.sender
      ensures Valid(s')
      ensures old(recovery.sender.queue) != [] ==>
                && recovery.sender.queue == old(recovery.sender.queue)[1..]
                && around == match old(recovery.sender.queue)[0]
                             case OtherUpdate => old(around)
                             case Transaction(update) =>
                               old(around).(inflight := old(around).inflight + multiset{update}, received := old(around).received + 1)
    {
      s' := s;
      if recovery.sender.queue == [] {
        return;
      }
      ghost var path;
      var update;
      update, s', path := TakeUpdate(recovery, world, s);
      PathReachesOn(world, s, path, s', Orderly());
      if update.Transaction? {
        around := around.(inflight := around.inflight + multiset{update.update}, received := around.received + 1);
      }
    }

    /** The transaction's records are logged; nothing else has noticed yet. */
    method PipelineLogs(update: Update, ghost s: System) returns (ghost s': System)
      requires Valid(s) && !stuck
      modifies `around, `records
      ensures Valid(s')
      ensures records == if update in old(around).inflight then old(records) + [update.signature] else old(records)
      ensures update in old(around).inflight ==>
                around == old(around).(inflight := old(around).inflight - multiset{update},
                                       logged := old(around).logged + multiset{update})
    {
      s' := s;
      if update !in around.inflight {
        return;
      }
      ghost var path;
      s', path := EmitStep(world, s, update);
      SurroundingsDoNotMatter(recovery, world, s, s');
      PathReachesOn(world, s, path, s', Orderly());
      around := around.(inflight := around.inflight - multiset{update}, logged := around.logged + multiset{update});
      records := records + [update.signature];
    }

    method PipelineShips(update: Update, fault: Option<AppendFault>, ghost s: System) returns (ghost s': System)
      requires Valid(s) && !stuck
      modifies `around, recovery.journal
      ensures Valid(s')
      ensures update in old(around).logged ==>
                && around == old(around).(logged := old(around).logged - multiset{update}, finished := old(around).finished + 1)
                && (fault.None? ==> update.signature in s'.journal)
                && (update.signature in s'.journal || update.signature in s'.exposed)
    {
      s' := s;
      if update !in around.logged {
        return;
      }
      ghost var path;
      s', path := ShipUpdate(recovery, update, fault, world, s);
      PathReachesOn(world, s, path, s', Orderly());
      around := around.(logged := around.logged - multiset{update}, finished := around.finished + 1);
    }

    method LoopTurns(endpoint: Endpoint, ghost contexts: map<Address, u64>, now: nat, faults: Faults, ghost s: System)
      returns (ghost s': System)
      requires Valid(s) && !stuck && Admissible(world, Happening.LoopTurns(endpoint, contexts, now, faults))
      modifies recovery.Repr()
      ensures Valid(s') && around == old(around) && records == old(records)
      ensures |recovery.results| == |old(recovery.results)| + if old(recovery.parked) then 0 else 1
    {
      s' := s;
      if recovery.parked {
        return;
      }
      ghost var path;
      s', path := TurnLoop(recovery, endpoint, contexts, around.received, around.finished, now, faults, world, s);
      PathReachesOn(world, s, path, s', Orderly());
    }
  }

  // ---------------------------------------------------------------------------
  // Any history
  // ---------------------------------------------------------------------------

  /** The first process, with nothing on disk. */
  method Begin(ghost world: World, setting: Setting, room: Option<nat>) returns (indexer: Indexer)
    requires Suits(setting, world)
    ensures fresh(indexer.Repr) && indexer.Valid(Protocol.START)
    ensures indexer.world == world && indexer.setting == setting
    ensures !indexer.stuck && indexer.records == [] && indexer.past == []
  {
    SuitingIsConfigured(setting, world);
    EmptyHolds(setting.codec);
    var recovery := NewProcess(setting, room, NO_DISK, None, EMPTY);
    StartIsReached(world, !setting.streaming);
    ghost var s', path;
    var outcome;
    outcome, s', path := recovery.Resume(0, false, Gone, View(EMPTY, false, {}, Some(setting.journalIdentity)), world, Protocol.START);
    StartsFirst(world, path, s');
    indexer := new Indexer(world, setting, recovery, false, false, []);
  }

  /** The process dies, and another starts over its files. */
  method ProcessDies(previous: Indexer, readFailures: nat, room: Option<nat>, ghost s: System)
    returns (next: Indexer, ghost s': System)
    requires previous.Valid(s)
    ensures fresh(next.Repr) && next.Valid(s')
    ensures next.world == previous.world && next.setting == previous.setting && next.records == previous.records
  {
    previous.LeavesItsFiles(s);
    var afresh := previous.startedAfresh || previous.recovery.checkpoint.disk.path.None?;
    var recovery;
    recovery, s' := StartAnother(previous.setting, previous.recovery, readFailures, room, previous.world, s, previous.Orderly());
    next := new Indexer(previous.world, previous.setting, recovery, recovery.parked, afresh, previous.records);
  }

  method Act(indexer: Indexer, happening: Happening, ghost s: System) returns (next: Indexer, ghost s': System)
    requires indexer.Valid(s) && Admissible(indexer.world, happening)
    modifies indexer.Repr
    ensures next.Valid(s') && fresh(next.Repr - indexer.Repr)
    ensures next.world == indexer.world && next.setting == indexer.setting
    ensures next.records ==
            if happening.PipelineLogs? && !indexer.stuck && happening.update in old(indexer.around).inflight
            then old(indexer.records) + [happening.update.signature] else old(indexer.records)
    ensures next != indexer <==> happening.ProcessDies?
    ensures happening.LoopTurns? && !indexer.stuck && !old(indexer.recovery.parked) ==>
              |next.recovery.results| == |old(indexer.recovery.results)| + 1
  {
    next, s' := indexer, s;
    if indexer.stuck && !happening.ProcessDies? {
      return;
    }
    match happening
    case StreamSends(update) => s' := indexer.StreamSends(update, s);
    case RelayRecords => s' := indexer.RelayRecords(s);
    case PipelineTakes => s' := indexer.PipelineTakes(s);
    case PipelineLogs(update) => s' := indexer.PipelineLogs(update, s);
    case PipelineShips(update, fault) => s' := indexer.PipelineShips(update, fault, s);
    case LoopTurns(endpoint, contexts, now, faults) => s' := indexer.LoopTurns(endpoint, contexts, now, faults, s);
    case ProcessDies(readFailures, room) => next, s' := ProcessDies(indexer, readFailures, room, s);
  }

  method Happens(indexer: Indexer, happening: Happening, ghost s: System) returns (next: Indexer, ghost s': System)
    requires indexer.Valid(s) && Admissible(indexer.world, happening)
    modifies indexer.Repr
    ensures next.Valid(s') && fresh(next.Repr - indexer.Repr)
    ensures next.world == indexer.world && next.setting == indexer.setting
    ensures next.records ==
            if happening.PipelineLogs? && !indexer.stuck && happening.update in old(indexer.around).inflight
            then old(indexer.records) + [happening.update.signature] else old(indexer.records)
    ensures next.past == old(indexer.past) + [happening]
    ensures next != indexer <==> happening.ProcessDies?
    ensures happening.LoopTurns? && !indexer.stuck && !old(indexer.recovery.parked) ==>
              |next.recovery.results| == |old(indexer.recovery.results)| + 1
  {
    ghost var past := indexer.past + [happening];
    next, s' := Act(indexer, happening, s);
    next.Remember(past, s');
  }

  lemma OneMore<T>(all: seq<T>, i: nat)
    requires i < |all|
    ensures all[..i + 1] == all[..i] + [all[i]]
  {
  }

  lemma WholeSoFar<T>(all: seq<T>)
    ensures all[..0] == [] && all[..|all|] == all
  {
  }

  method Live(ghost world: World, setting: Setting, first: Indexer, happenings: seq<Happening>)
    returns (indexer: Indexer, ghost s: System)
    requires first.Valid(Protocol.START) && first.world == world && first.setting == setting && first.past == []
    requires forall h :: h in happenings ==> Admissible(world, h)
    modifies first.Repr
    ensures indexer.Valid(s) && indexer.world == world && indexer.setting == setting
    ensures indexer.past == happenings
    ensures fresh(indexer.Repr - first.Repr)
  {
    WholeSoFar(happenings);
    indexer, s := first, Protocol.START;
    for i := 0 to |happenings|
      invariant indexer.Valid(s) && indexer.world == world && indexer.setting == setting
      invariant indexer.past == happenings[..i]
      invariant fresh(indexer.Repr - first.Repr)
    {
      OneMore(happenings, i);
      indexer, s := Happens(indexer, happenings[i], s);
    }
  }

  /** Whatever happens to a deployment, and however often its process dies: once there is
      a checkpoint, the files account for every transaction in scope, and a deployment in
      RPC mode that never lost its checkpoint has logged what has not faded only once. */
  method Operate(ghost world: World, setting: Setting, room: Option<nat>, happenings: seq<Happening>)
    returns (indexer: Indexer, ghost s: System)
    requires Configured(setting, world)
    requires forall h :: h in happenings ==> Admissible(world, h)
    ensures indexer.Valid(s) && indexer.world == world && indexer.setting == setting
    ensures indexer.past == happenings
    ensures indexer.recovery.checkpoint.disk.path.Some? ==>
              forall t :: InScope(world, s.scope, t) ==> indexer.Accounts(t)
    ensures indexer.Orderly() ==>
              forall t :: !AtMostOnce.Faded(world, s, t) ==> multiset(indexer.records)[t] <= 1
  {
    var first := Begin(world, setting, room);
    indexer, s := Live(world, setting, first, happenings);
    indexer.Promises(s);
  }
}
