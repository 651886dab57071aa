/** The recovery protocol as a state machine: the poller's memory, the pipeline, the
    checkpoint document and the shipped journal, under every interleaving of polls,
    processing, saves, compactions and crashes (rpc_polling.rs, runtime.rs,
    checkpoint.rs, shipped.rs and the relay of datasource.rs). */
module Protocol {
  import opened Primitives
  import opened Signatures
  import opened Progress
  import opened PollSpec

  // ---------------------------------------------------------------------------
  // The world outside the process
  // ---------------------------------------------------------------------------

  datatype LedgerEntry = LedgerEntry(slot: u64, addresses: set<Address>)

  /** The confirmed transactions, fixed for the whole run; later slots are those no
      answer has reached yet. */
  datatype World = World(ledger: map<Signature, LedgerEntry>, addresses: seq<Address>, window: Window)

  ghost predicate Touches(world: World, t: Signature, a: Address) {
    t in world.ledger && a in world.ledger[t].addresses
  }

  /** One address's answer comes from a replica that has seen everything up to
      `context`: the batch lists exactly the transactions of that address above the
      replay floor that the replica knows. */
  ghost predicate FaithfulBatch(world: World, cursors: map<Address, u64>, head: u64, batch: AddressBatch, context: u64) {
    && batch.address in cursors
    && context >= MinContextSlot(head, world.window)
    && (forall t :: Lists(batch, t) <==>
          && Touches(world, t, batch.address)
          && Floor(cursors[batch.address], world.window) < world.ledger[t].slot <= context)
    && (forall d :: d in batch.signatures ==> d.signature in world.ledger && d.slot == world.ledger[d.signature].slot)
    && batch.nextCursor == NextCursor(head, Newest(batch.signatures), cursors[batch.address])
  }

  ghost predicate Faithful(world: World, pre: Progress, a: Answers, contexts: map<Address, u64>) {
    var cursors := Initialized(pre.cursors, AddressSet(world.addresses), a.head, world.window);
    && (forall b :: b in a.batches ==>
          b.address in contexts && FaithfulBatch(world, cursors, a.head, b, contexts[b.address]))
    && (forall t :: t in a.outcomes && a.outcomes[t].Fetched? ==>
          t in world.ledger && a.outcomes[t].slot == world.ledger[t].slot)
  }

  // ---------------------------------------------------------------------------
  // The system
  // ---------------------------------------------------------------------------

  /** What a checkpoint records; also the last state the pipeline had caught up with. */
  datatype Snapshot = Snapshot(cursors: map<Address, u64>, recent: map<Signature, u64>, quarantined: set<Signature>)

  datatype System = System(
    // the process: lost in a crash
    progress: Progress,
    processed: Snapshot,
    relayed: seq<Update>,        // sent by the stream's relay, not yet recorded
    pending: seq<Update>,        // recorded deliveries the poller has not absorbed
    queue: seq<Update>,
    inflight: multiset<Update>,  // dequeued, nothing logged yet
    logged: multiset<Update>,    // records logged, transaction not yet journalled
    received: nat,
    finished: nat,
    parked: bool,
    // on disk
    document: Option<Snapshot>,
    journal: map<Signature, u64>,
    // history, for stating the theorems
    emissions: multiset<Signature>,
    scope: map<Address, u64>,    // where following each address began
    highWater: u64,              // highest minimum cursor that ever dropped suppression
    exposed: set<Signature>)     // logged, but a crash or a failed append kept it from the journal

  function Seen(progress: Progress): Snapshot {
    Snapshot(progress.cursors, progress.recent, Quarantined(progress.poison))
  }

  const NOTHING: Progress := Progress(map[], map[], map[])

  const START: System :=
    System(NOTHING, Seen(NOTHING), [], [], [], multiset{}, multiset{}, 0, 0, false, None, map[],
           multiset{}, map[], 0, {})

  /** A loaded checkpoint: every cursor one window back, the journal merged into the
      suppressed signatures, the quarantine restored. */
  function Resumed(window: Window, document: Snapshot, restored: map<Signature, u64>): Progress {
    Progress(
      map a | a in document.cursors :: SaturatingSub(document.cursors[a], window),
      document.recent + restored,
      map s | s in document.quarantined :: RESTORED)
  }

  datatype Step =
    | StreamSend(update: Update)
    | StreamRecord
    | PollOk(answers: Answers, contexts: map<Address, u64>, sent: seq<Update>)
    | PollErr(answers: Answers, contexts: map<Address, u64>, planned: seq<Update>, sent: seq<Update>)
    | Dequeue
    | Emit(update: Update)
    | Journal(update: Update)
    | JournalFails(update: Update)
    | TakeSnapshot
    | Save
    | Compact
    | Park
    | Restart(restored: map<Signature, u64>)
    | FreshStart

  ghost function SignaturesIn(updates: multiset<Update>): set<Signature> {
    set u | u in updates :: u.signature
  }

  /** `pipeline_drained`: the channel is empty and everything received is finished. */
  predicate Drained(s: System) {
    s.queue == [] && s.received == s.finished
  }

  ghost function ScopeAfter(world: World, s: System, head: u64): map<Address, u64> {
    var cursors := Initialized(s.progress.cursors, AddressSet(world.addresses), head, world.window);
    s.scope + map a | a in cursors.Keys - s.scope.Keys :: Floor(cursors[a], world.window)
  }

  /** A successful poll. Its sends are shown as one step: module Interleaving shows that
      the steps beside them could as well come after. */
  ghost predicate PollOkStep(
    world: World, s: System, s': System, answers: Answers, contexts: map<Address, u64>, sent: seq<Update>)
  {
    var pre := Absorbed(s.progress, s.pending);
    && !s.parked
    && PollSucceeds(world.window, world.addresses, pre, s'.progress, answers, sent)
    && Faithful(world, pre, answers, contexts)
    && s' == s.(progress := s'.progress, pending := [], queue := s.queue + sent,
                scope := ScopeAfter(world, s, answers.head),
                highWater := Max(s.highWater, MinimumCursor(s'.progress.cursors, answers.head)))
  }

  /** A poll that failed, or that a crash is about to cut short. */
  ghost predicate PollErrStep(
    world: World, s: System, s': System, answers: Answers, contexts: map<Address, u64>, planned: seq<Update>, sent: seq<Update>)
  {
    var pre := Absorbed(s.progress, s.pending);
    && !s.parked
    && PollFails(world.window, world.addresses, pre, s'.progress, answers, planned, sent)
    && Faithful(world, pre, answers, contexts)
    && s' == s.(progress := s'.progress, pending := [], queue := s.queue + sent,
                scope := if s'.progress.cursors == pre.cursors then s.scope else ScopeAfter(world, s, answers.head))
  }

  /** A crash and the restart after it, with a checkpoint on disk. `restored` is what
      the journal still yields: any part of it, and a line torn while it was being
      written may come back with fewer slot digits. */
  ghost predicate RestartStep(world: World, s: System, s': System, restored: map<Signature, u64>) {
    && s.document.Some?
    && (forall t :: t in restored ==>
          || (t in s.journal && restored[t] == s.journal[t])
          || (exists u :: u in s.logged && u.signature == t && restored[t] <= u.slot))
    && var progress := Resumed(world.window, s.document.value, restored);
    && s' == System(progress, Seen(progress), [], [], [], multiset{}, multiset{}, 0, 0, false,
                    s.document, restored,
                    s.emissions, s.scope, s.highWater, s.exposed + SignaturesIn(s.logged))
  }

  ghost predicate Next(world: World, s: System, s': System, step: Step) {
    match step
    case StreamSend(update) =>
      && update.signature in world.ledger && update.slot == world.ledger[update.signature].slot
      && s' == s.(relayed := s.relayed + [update], queue := s.queue + [update])
    case StreamRecord =>
      && s.relayed != []
      && s' == s.(relayed := s.relayed[1..], pending := if s.parked then s.pending else s.pending + [s.relayed[0]])
    case PollOk(answers, contexts, sent) => PollOkStep(world, s, s', answers, contexts, sent)
    case PollErr(answers, contexts, planned, sent) => PollErrStep(world, s, s', answers, contexts, planned, sent)
    case Dequeue =>
      && s.queue != []
      && s' == s.(queue := s.queue[1..], inflight := s.inflight + multiset{s.queue[0]}, received := s.received + 1)
    case Emit(update) =>
      && update in s.inflight
      && s' == s.(inflight := s.inflight - multiset{update}, logged := s.logged + multiset{update},
                  emissions := s.emissions + multiset{update.signature})
    case Journal(update) =>
      && update in s.logged
      && s' == s.(logged := s.logged - multiset{update}, finished := s.finished + 1,
                  journal := if update.signature in s.journal then s.journal
                             else s.journal[update.signature := update.slot])
    case JournalFails(update) =>
      && update in s.logged && update.signature !in s.journal
      && s' == s.(logged := s.logged - multiset{update}, finished := s.finished + 1,
                  exposed := s.exposed + {update.signature})
    case TakeSnapshot =>
      && !s.parked && Drained(s)
      && s' == s.(processed := Seen(s.progress))
    case Save =>
      && !s.parked && s.processed.cursors.Keys == AddressSet(world.addresses)
      && s' == s.(document := Some(s.processed))
    case Compact =>
      && s.document.Some?
      && var slot := MinimumCursor(s.document.value.cursors, 0);
      && s' == s.(journal := Retained(s.journal, UnreachableBelow(slot, world.window)),
                  highWater := Max(s.highWater, slot))
    case Park =>
      s' == s.(parked := true, pending := [])
    case Restart(restored) => RestartStep(world, s, s', restored)
    case FreshStart =>
      && s.document.None?
      && s' == START.(emissions := s.emissions, exposed := s.exposed + SignaturesIn(s.logged))
  }

  /** A run from the first start of the deployment. */
  ghost predicate IsRun(world: World, states: seq<System>, steps: seq<Step>) {
    && |states| == |steps| + 1
    && states[0] == START
    && (forall i :: 0 <= i < |steps| ==> Next(world, states[i], states[i + 1], steps[i]))
  }

  /** Transactions the deployment undertook to record. */
  ghost predicate InScope(world: World, scope: map<Address, u64>, t: Signature) {
    exists a :: Touches(world, t, a) && a in scope && world.ledger[t].slot > scope[a]
  }

  ghost predicate Emitted(s: System, t: Signature) {
    t in s.emissions
  }

  ghost predicate Queued(s: System, t: Signature) {
    || (exists u :: u in s.queue && u.signature == t)
    || (exists u :: u in s.inflight && u.signature == t)
  }

  ghost predicate Sent(s: System, t: Signature) {
    Emitted(s, t) || Queued(s, t)
  }

  /** `monitored_addresses` sorts and deduplicates. */
  ghost predicate DistinctMonitored(world: World) {
    forall i, j :: 0 <= i < j < |world.addresses| ==> world.addresses[i] != world.addresses[j]
  }

  lemma BatchesAreDistinct(world: World, a: Answers)
    requires DistinctMonitored(world)
    requires |a.batches| == |world.addresses|
    requires forall i :: 0 <= i < |world.addresses| ==> a.batches[i].address == world.addresses[i]
    ensures DistinctAddresses(a.batches)
    ensures forall b :: b in a.batches ==> b.address in AddressSet(world.addresses)
  {
  }
}
