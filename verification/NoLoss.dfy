/** No transaction in scope is lost, over any run with any number of failures and
    crashes. The argument is a witness: a transaction that is neither sent nor
    quarantined has at least one address whose cursor has not left it behind. */
module NoLoss {
  import opened Primitives
  import opened Signatures
  import opened Progress
  import opened PollSpec
  import opened Protocol

  // ---------------------------------------------------------------------------
  // The invariant
  // ---------------------------------------------------------------------------

  /** Some address of `t` still lists it: its cursor, rewound by a window, is below. */
  ghost predicate Witnessed(world: World, cursors: map<Address, u64>, t: Signature) {
    exists a :: WitnessedBy(world, cursors, t, a)
  }

  ghost predicate WitnessedBy(world: World, cursors: map<Address, u64>, t: Signature, a: Address) {
    Touches(world, t, a) && a in cursors && world.ledger[t].slot > Floor(cursors[a], world.window)
  }

  /** The poller's memory accounts for every transaction in scope: sent, quarantined, or
      still ahead of some cursor; and it suppresses only what was sent or quarantined. */
  ghost predicate MemoryCovers(world: World, s: System) {
    && (forall t :: InScope(world, s.scope, t) && !Sent(s, t) && t !in Quarantined(s.progress.poison) ==>
          Witnessed(world, s.progress.cursors, t))
    && (forall t :: t in s.progress.recent ==> Sent(s, t) || t in Quarantined(s.progress.poison))
  }

  /** The same for a snapshot, where sent is not enough: it must have been emitted. */
  ghost predicate SnapshotCovers(world: World, s: System, snapshot: Snapshot) {
    && (forall t :: InScope(world, s.scope, t) && !Emitted(s, t) && t !in snapshot.quarantined ==>
          Witnessed(world, snapshot.cursors, t))
    && (forall t :: t in snapshot.recent ==> Emitted(s, t) || t in snapshot.quarantined)
  }

  ghost predicate Followed(world: World, s: System) {
    && s.scope.Keys == s.progress.cursors.Keys
    && s.scope.Keys <= AddressSet(world.addresses)
    && s.processed.cursors.Keys <= s.scope.Keys
    && (s.document.Some? ==> s.document.value.cursors.Keys == s.scope.Keys == AddressSet(world.addresses))
  }

  ghost predicate PipelineAccounts(s: System) {
    && s.received == s.finished + |s.inflight| + |s.logged|
    && (forall u :: u in s.logged ==> Emitted(s, u.signature))
    && (forall t :: t in s.journal ==> Emitted(s, t))
    && (forall u :: u in s.relayed || u in s.pending ==> Sent(s, u.signature))
  }

  ghost predicate Safe(world: World, s: System) {
    && Followed(world, s)
    && PipelineAccounts(s)
    && MemoryCovers(world, s)
    && (s.processed.cursors.Keys == AddressSet(world.addresses) ==> SnapshotCovers(world, s, s.processed))
    && (s.document.Some? ==> SnapshotCovers(world, s, s.document.value))
  }

  // ---------------------------------------------------------------------------
  // What a poll preserves
  // ---------------------------------------------------------------------------

  /** What a batch commits to its cursor never strands a transaction the batch left
      out: it stays above the floor of the next poll. */
  lemma CommittedCursorKeepsUnlisted(
      world: World, cursors: map<Address, u64>, head: u64, batch: AddressBatch, context: u64, t: Signature)
    requires FaithfulBatch(world, cursors, head, batch, context)
    requires WitnessedBy(world, cursors, t, batch.address)
    requires !Lists(batch, t)
    ensures world.ledger[t].slot > Floor(batch.nextCursor, world.window)
  {
    var slot := world.ledger[t].slot;
    if batch.signatures != [] {
      assert Lists(batch, batch.signatures[0].signature);
    }
    OmittedSlotStaysAboveNextFloor(
      head, Newest(batch.signatures), cursors[batch.address], world.window, context, slot);
  }

  /** The part of a poll that decides what memory covers, shared by polls that succeed
      and polls that stop in the middle of their sends. */
  ghost predicate PollStarted(world: World, pre: Progress, a: Answers, contexts: map<Address, u64>, cursors: map<Address, u64>) {
    && cursors == Initialized(pre.cursors, AddressSet(world.addresses), a.head, world.window)
    && Faithful(world, pre, a, contexts)
    && Asked(world.addresses, pre.recent, a)
  }

  lemma BatchOfAddress(world: World, a: Answers, address: Address) returns (batch: AddressBatch)
    requires |a.batches| == |world.addresses|
    requires forall i :: 0 <= i < |world.addresses| ==> a.batches[i].address == world.addresses[i]
    requires address in world.addresses
    ensures batch in a.batches && batch.address == address
  {
    var i :| 0 <= i < |world.addresses| && world.addresses[i] == address;
    batch := a.batches[i];
  }

  lemma ListedIsWitnessed(
      world: World, pre: Progress, a: Answers, contexts: map<Address, u64>, cursors: map<Address, u64>, t: Signature, batch: AddressBatch)
    requires PollStarted(world, pre, a, contexts, cursors)
    requires batch in a.batches && Lists(batch, t)
    ensures WitnessedBy(world, cursors, t, batch.address)
    ensures t in Listed(a.batches)
  {
  }

  /** A transaction that a poll judged and that is neither sent nor quarantined holds
      back every address that listed it, or is held back by one of them. */
  lemma HeldBackStaysWitnessed(
      world: World, pre: Progress, a: Answers, contexts: map<Address, u64>, cursors: map<Address, u64>, t: Signature, listing: AddressBatch)
    returns (holder: AddressBatch)
    requires PollStarted(world, pre, a, contexts, cursors)
    requires listing in a.batches && Lists(listing, t)
    requires t in a.outcomes
    requires !Sendable(pre.poison, a, t)
    requires t !in Quarantined(Judged(pre.poison, a.outcomes))
    ensures holder in a.batches
    ensures HoldsRetry(holder, Retrying(pre.poison, a.outcomes))
    ensures WitnessedBy(world, cursors, t, holder.address)
  {
    var retrying := Retrying(pre.poison, a.outcomes);
    if OutcomeOf(a.outcomes[t]).Succeeded? {
      var x :| x in ListedBy(a.batches, t) && x in Blocked(a.batches, retrying);
      var here :| here in a.batches && Lists(here, t) && here.address == x;
      holder :| holder in a.batches && HoldsRetry(holder, retrying) && holder.address == x;
      ListedIsWitnessed(world, pre, a, contexts, cursors, t, here);
    } else {
      if OutcomeOf(a.outcomes[t]).Poisoned? {
        assert FailureAfter(pre.poison, a.outcomes, t).Some?;
      }
      assert t in retrying;
      var d :| d in listing.signatures && d.signature == t;
      holder := listing;
      ListedIsWitnessed(world, pre, a, contexts, cursors, t, listing);
    }
  }

  /** After a successful poll, a transaction witnessed before it is sent, quarantined,
      or still witnessed, even where other addresses advanced past it. */
  lemma PollKeepsWitness(
      world: World, pre: Progress, post: Progress, a: Answers, contexts: map<Address, u64>, cursors: map<Address, u64>,
      sent: seq<Update>, t: Signature, x: Address)
    requires DistinctMonitored(world)
    requires PollStarted(world, pre, a, contexts, cursors)
    requires cursors.Keys == AddressSet(world.addresses)
    requires PollSucceeds(world.window, world.addresses, pre, post, a, sent)
    requires WitnessedBy(world, cursors, t, x)
    requires t !in pre.recent
    requires t !in Quarantined(post.poison)
    ensures Sendable(pre.poison, a, t) || Witnessed(world, post.cursors, t)
  {
    var retrying := Retrying(pre.poison, a.outcomes);
    var batch := BatchOfAddress(world, a, x);
    BatchesAreDistinct(world, a);
    if !Lists(batch, t) {
      CommittedCursorKeepsUnlisted(world, cursors, a.head, batch, contexts[x], t);
      AdvancedPointwise(cursors, a.batches, retrying, x);
      assert WitnessedBy(world, post.cursors, t, x);
    } else if !Sendable(pre.poison, a, t) {
      ListedIsWitnessed(world, pre, a, contexts, cursors, t, batch);
      assert t in a.outcomes;
      var holder := HeldBackStaysWitnessed(world, pre, a, contexts, cursors, t, batch);
      AdvancedPointwise(cursors, a.batches, retrying, holder.address);
      assert WitnessedBy(world, post.cursors, t, holder.address);
    }
  }

  /** Anything in scope and not sent is witnessed once the poll has installed its
      cursors, unless it was, and stays, quarantined. */
  lemma WitnessedBeforeSending(
      world: World, s: System, pre: Progress, a: Answers, contexts: map<Address, u64>, cursors: map<Address, u64>,
      scope: map<Address, u64>, t: Signature)
    requires Safe(world, s)
    requires pre == Absorbed(s.progress, s.pending)
    requires PollStarted(world, pre, a, contexts, cursors)
    requires scope == ScopeAfter(world, s, a.head)
    requires InScope(world, scope, t) && !Sent(s, t)
    requires t !in Quarantined(Judged(pre.poison, a.outcomes))
    ensures Witnessed(world, cursors, t)
  {
    if InScope(world, s.scope, t) {
      if t in Quarantined(s.progress.poison) {
        assert t in a.outcomes;
        var b, d :| b in a.batches && d in b.signatures && d.signature == t;
        ListedIsWitnessed(world, pre, a, contexts, cursors, t, b);
      } else {
        var x :| WitnessedBy(world, s.progress.cursors, t, x);
        assert WitnessedBy(world, cursors, t, x);
      }
    } else {
      var x :| Touches(world, t, x) && x in scope && world.ledger[t].slot > scope[x];
      assert x !in s.scope;
      assert WitnessedBy(world, cursors, t, x);
    }
  }

  /** The same when the poll stopped before judging anything. */
  lemma WitnessedBeforeJudging(
      world: World, s: System, head: u64, cursors: map<Address, u64>, scope: map<Address, u64>, t: Signature)
    requires Safe(world, s)
    requires cursors == Initialized(s.progress.cursors, AddressSet(world.addresses), head, world.window)
    requires scope == ScopeAfter(world, s, head)
    requires InScope(world, scope, t) && !Sent(s, t) && t !in Quarantined(s.progress.poison)
    ensures Witnessed(world, cursors, t)
  {
    if InScope(world, s.scope, t) {
      var x :| WitnessedBy(world, s.progress.cursors, t, x);
      assert WitnessedBy(world, cursors, t, x);
    } else {
      var x :| Touches(world, t, x) && x in scope && world.ledger[t].slot > scope[x];
      assert x !in s.scope;
      assert WitnessedBy(world, cursors, t, x);
    }
  }

  /** Absorbing deliveries suppresses only what the stream already sent. */
  lemma AbsorbedIsSent(world: World, s: System, t: Signature)
    requires Safe(world, s)
    requires t in Absorbed(s.progress, s.pending).recent
    ensures Sent(s, t) || t in Quarantined(s.progress.poison)
  {
    RecordedKeys(s.progress.recent, s.pending);
    if t !in s.progress.recent {
      var u :| u in s.pending && u.signature == t;
    }
  }

  lemma SuppressedStaysQuarantined(pre: Progress, a: Answers, t: Signature)
    requires a.outcomes.Keys !! pre.recent.Keys
    requires t in pre.recent && t in Quarantined(pre.poison)
    ensures t in Quarantined(Judged(pre.poison, a.outcomes))
  {
    assert FailureAfter(pre.poison, a.outcomes, t).Some?;
  }

  lemma SentIsKept(s: System, s': System, sent: seq<Update>, t: Signature)
    requires s'.queue == s.queue + sent && s'.inflight == s.inflight && s'.emissions == s.emissions
    ensures Sent(s, t) ==> Sent(s', t)
    ensures (exists u :: u in sent && u.signature == t) ==> Sent(s', t)
  {
    assert forall u :: u in s'.queue <==> u in s.queue || u in sent;
  }

  lemma UnsentIsNotSuppressed(world: World, s: System, pre: Progress, a: Answers, t: Signature)
    requires Safe(world, s)
    requires pre == Absorbed(s.progress, s.pending)
    requires a.outcomes.Keys !! pre.recent.Keys
    requires !Sent(s, t) && t !in Quarantined(Judged(pre.poison, a.outcomes))
    ensures t !in pre.recent
  {
    if t in pre.recent {
      AbsorbedIsSent(world, s, t);
      SuppressedStaysQuarantined(pre, a, t);
    }
  }

  lemma SuccessfulPollCovers(world: World, s: System, s': System, a: Answers, contexts: map<Address, u64>, sent: seq<Update>, t: Signature)
    requires DistinctMonitored(world)
    requires Safe(world, s)
    requires PollOkStep(world, s, s', a, contexts, sent)
    requires InScope(world, s'.scope, t) && !Sent(s', t) && t !in Quarantined(s'.progress.poison)
    ensures Witnessed(world, s'.progress.cursors, t)
  {
    var pre := Absorbed(s.progress, s.pending);
    var cursors := Initialized(pre.cursors, AddressSet(world.addresses), a.head, world.window);
    SentIsKept(s, s', sent, t);
    UnsentIsNotSuppressed(world, s, pre, a, t);
    WitnessedBeforeSending(world, s, pre, a, contexts, cursors, s'.scope, t);
    EveryAddressHasACursor(world, s, a.head);
    PollCoversUnsent(world, pre, s'.progress, a, contexts, cursors, sent, t);
  }

  lemma EveryAddressHasACursor(world: World, s: System, head: u64)
    requires Followed(world, s)
    ensures Initialized(s.progress.cursors, AddressSet(world.addresses), head, world.window).Keys == AddressSet(world.addresses)
  {
  }

  lemma PollCoversUnsent(
      world: World, pre: Progress, post: Progress, a: Answers, contexts: map<Address, u64>, cursors: map<Address, u64>,
      sent: seq<Update>, t: Signature)
    requires DistinctMonitored(world)
    requires PollStarted(world, pre, a, contexts, cursors)
    requires cursors.Keys == AddressSet(world.addresses)
    requires PollSucceeds(world.window, world.addresses, pre, post, a, sent)
    requires Witnessed(world, cursors, t)
    requires t !in pre.recent && t !in Quarantined(post.poison)
    requires !exists u :: u in sent && u.signature == t
    ensures Witnessed(world, post.cursors, t)
  {
    var x :| WitnessedBy(world, cursors, t, x);
    PollKeepsWitness(world, pre, post, a, contexts, cursors, sent, t, x);
  }

  lemma FailedPollCovers(
      world: World, s: System, s': System, a: Answers, contexts: map<Address, u64>, planned: seq<Update>, sent: seq<Update>, t: Signature)
    requires Safe(world, s)
    requires PollErrStep(world, s, s', a, contexts, planned, sent)
    requires InScope(world, s'.scope, t) && !Sent(s', t) && t !in Quarantined(s'.progress.poison)
    ensures Witnessed(world, s'.progress.cursors, t)
  {
    var pre := Absorbed(s.progress, s.pending);
    var cursors := Initialized(pre.cursors, AddressSet(world.addresses), a.head, world.window);
    SentIsKept(s, s', sent, t);
    if cursors == pre.cursors {
      NothingNewInScope(world, s, a.head);
    }
    if s'.progress.poison == s.progress.poison {
      if s'.progress.cursors == cursors {
        WitnessedBeforeJudging(world, s, a.head, cursors, ScopeAfter(world, s, a.head), t);
      }
    } else {
      WitnessedBeforeSending(world, s, pre, a, contexts, cursors, ScopeAfter(world, s, a.head), t);
    }
  }

  lemma NothingNewInScope(world: World, s: System, head: u64)
    requires Followed(world, s)
    requires Initialized(s.progress.cursors, AddressSet(world.addresses), head, world.window) == s.progress.cursors
    ensures ScopeAfter(world, s, head) == s.scope
  {
  }

  lemma PollSuppressesOnlyAccounted(world: World, s: System, pre: Progress, a: Answers, sent: seq<Update>, t: Signature)
    requires Safe(world, s)
    requires pre == Absorbed(s.progress, s.pending)
    requires a.outcomes.Keys == Listed(a.batches) - pre.recent.Keys
    requires t in Remembered(pre, a, sent)
    ensures Sent(s, t) || (exists u :: u in sent && u.signature == t) || t in Quarantined(Judged(pre.poison, a.outcomes))
  {
    RememberedIsAccountedFor(pre, a, sent);
    if t in pre.recent {
      AbsorbedIsSent(world, s, t);
      if !Sent(s, t) {
        SuppressedStaysQuarantined(pre, a, t);
      }
    }
  }

  lemma SnapshotsSurvive(world: World, s: System, s': System, snapshot: Snapshot)
    requires SnapshotCovers(world, s, snapshot)
    requires s'.scope == s.scope
    requires forall t :: Emitted(s, t) ==> Emitted(s', t)
    ensures SnapshotCovers(world, s', snapshot)
  {
    forall t | InScope(world, s'.scope, t) ensures InScope(world, s.scope, t) {
    }
  }

  lemma PollKeepsTheRest(world: World, s: System, s': System, sent: seq<Update>)
    requires Safe(world, s)
    requires s'.queue == s.queue + sent
    requires s'.pending == []
    requires s' == s.(progress := s'.progress, pending := [], queue := s'.queue, scope := s'.scope, highWater := s'.highWater)
    requires s'.scope.Keys == s'.progress.cursors.Keys
    requires s.scope.Keys <= s'.scope.Keys <= AddressSet(world.addresses)
    requires s.scope.Keys == AddressSet(world.addresses) ==> s'.scope == s.scope
    ensures Followed(world, s') && PipelineAccounts(s')
    ensures s'.processed.cursors.Keys == AddressSet(world.addresses) ==> SnapshotCovers(world, s', s'.processed)
    ensures s'.document.Some? ==> SnapshotCovers(world, s', s'.document.value)
  {
    forall t ensures Sent(s, t) ==> Sent(s', t) {
      SentIsKept(s, s', sent, t);
    }
    if s'.processed.cursors.Keys == AddressSet(world.addresses) {
      SnapshotsSurvive(world, s, s', s.processed);
    }
    if s'.document.Some? {
      SnapshotsSurvive(world, s, s', s.document.value);
    }
  }

  lemma ScopeGrowsOnce(world: World, s: System, head: u64)
    requires Followed(world, s)
    ensures var scope := ScopeAfter(world, s, head);
            && scope.Keys == AddressSet(world.addresses)
            && (s.scope.Keys == AddressSet(world.addresses) ==> scope == s.scope)
  {
  }

  lemma SuccessfulPollIsSafe(world: World, s: System, s': System, a: Answers, contexts: map<Address, u64>, sent: seq<Update>)
    requires DistinctMonitored(world)
    requires Safe(world, s)
    requires PollOkStep(world, s, s', a, contexts, sent)
    ensures Safe(world, s')
  {
    var pre := Absorbed(s.progress, s.pending);
    ScopeGrowsOnce(world, s, a.head);
    AdvanceKeepsAddresses(world, pre, s'.progress, a, sent);
    EveryAddressHasACursor(world, s, a.head);
    PollKeepsTheRest(world, s, s', sent);
    forall t | InScope(world, s'.scope, t) && !Sent(s', t) && t !in Quarantined(s'.progress.poison)
      ensures Witnessed(world, s'.progress.cursors, t)
    {
      SuccessfulPollCovers(world, s, s', a, contexts, sent, t);
    }
    forall t | t in s'.progress.recent ensures Sent(s', t) || t in Quarantined(s'.progress.poison) {
      PollSuppressesOnlyAccounted(world, s, pre, a, sent, t);
      SentIsKept(s, s', sent, t);
    }
  }

  lemma AdvanceKeepsAddresses(world: World, pre: Progress, post: Progress, a: Answers, sent: seq<Update>)
    requires DistinctMonitored(world)
    requires PollSucceeds(world.window, world.addresses, pre, post, a, sent)
    ensures post.cursors.Keys == pre.cursors.Keys + AddressSet(world.addresses)
  {
    var cursors := Initialized(pre.cursors, AddressSet(world.addresses), a.head, world.window);
    BatchesAreDistinct(world, a);
    AdvancedPointwise(cursors, a.batches, Retrying(pre.poison, a.outcomes), "");
  }

  lemma FailedPollIsSafe(
      world: World, s: System, s': System, a: Answers, contexts: map<Address, u64>, planned: seq<Update>, sent: seq<Update>)
    requires Safe(world, s)
    requires PollErrStep(world, s, s', a, contexts, planned, sent)
    ensures Safe(world, s')
  {
    var pre := Absorbed(s.progress, s.pending);
    ScopeGrowsOnce(world, s, a.head);
    EveryAddressHasACursor(world, s, a.head);
    PollKeepsTheRest(world, s, s', sent);
    forall t | InScope(world, s'.scope, t) && !Sent(s', t) && t !in Quarantined(s'.progress.poison)
      ensures Witnessed(world, s'.progress.cursors, t)
    {
      FailedPollCovers(world, s, s', a, contexts, planned, sent, t);
    }
    forall t | t in s'.progress.recent ensures Sent(s', t) || t in Quarantined(s'.progress.poison) {
      SentIsKept(s, s', sent, t);
      if s'.progress.recent == pre.recent && s'.progress.poison == pre.poison {
        AbsorbedIsSent(world, s, t);
      } else {
        PollSuppressesOnlyAccounted(world, s, pre, a, sent, t);
      }
    }
  }

  // ---------------------------------------------------------------------------
  // The other steps
  // ---------------------------------------------------------------------------

  /** Memory stays covered when progress and scope do not change and nothing sent is
      forgotten. */
  lemma MemorySurvives(world: World, s: System, s': System)
    requires MemoryCovers(world, s)
    requires s'.progress == s.progress && s'.scope == s.scope
    requires forall t :: Sent(s, t) ==> Sent(s', t)
    ensures MemoryCovers(world, s')
  {
  }

  /** Nothing that was sent or emitted is forgotten. */
  ghost predicate ForgetsNothing(s: System, s': System) {
    && (forall t :: Emitted(s, t) ==> Emitted(s', t))
    && (forall t :: Sent(s, t) ==> Sent(s', t))
  }

  ghost predicate IsPipelineStep(step: Step) {
    step.StreamSend? || step.StreamRecord? || step.Dequeue? || step.Emit? || step.Journal? || step.JournalFails?
  }

  lemma StreamSendAccounts(world: World, s: System, s': System, update: Update)
    requires PipelineAccounts(s)
    requires Next(world, s, s', StreamSend(update))
    ensures ForgetsNothing(s, s') && PipelineAccounts(s')
  {
    assert forall u :: u in s'.queue <==> u in s.queue || u == update;
    forall t ensures Sent(s, t) ==> Sent(s', t) {
    }
    assert update in s'.queue && Sent(s', update.signature);
    assert forall u :: u in s'.relayed <==> u in s.relayed || u == update;
  }

  lemma StreamRecordAccounts(world: World, s: System, s': System)
    requires PipelineAccounts(s)
    requires Next(world, s, s', StreamRecord)
    ensures ForgetsNothing(s, s') && PipelineAccounts(s')
  {
    forall t ensures Sent(s, t) ==> Sent(s', t) {
    }
    assert forall u :: u in s'.relayed || u in s'.pending ==> u in s.relayed || u in s.pending;
  }

  lemma DequeueAccounts(world: World, s: System, s': System)
    requires PipelineAccounts(s)
    requires Next(world, s, s', Dequeue)
    ensures ForgetsNothing(s, s') && PipelineAccounts(s')
  {
    assert s.queue == [s.queue[0]] + s.queue[1..];
    assert forall u :: u in s.queue ==> u in s'.queue || u in s'.inflight;
    forall t ensures Sent(s, t) ==> Sent(s', t) {
    }
  }

  lemma EmitForgetsNothing(s: System, s': System, update: Update)
    requires update in s.inflight
    requires s'.queue == s.queue && s'.inflight == s.inflight - multiset{update}
    requires s'.emissions == s.emissions + multiset{update.signature}
    ensures ForgetsNothing(s, s') && Emitted(s', update.signature)
  {
    assert Emitted(s', update.signature);
    assert forall u :: u in s.inflight ==> u in s'.inflight || u == update;
    forall t ensures Sent(s, t) ==> Sent(s', t) {
    }
  }

  lemma EmitAccounts(world: World, s: System, s': System, update: Update)
    requires PipelineAccounts(s)
    requires Next(world, s, s', Emit(update))
    ensures ForgetsNothing(s, s') && PipelineAccounts(s')
  {
    EmitForgetsNothing(s, s', update);
    assert forall u :: u in s'.logged ==> u in s.logged || u == update;
  }

  lemma JournalAccounts(world: World, s: System, s': System, update: Update)
    requires PipelineAccounts(s)
    requires Next(world, s, s', Journal(update))
    ensures ForgetsNothing(s, s') && PipelineAccounts(s')
  {
    forall t ensures Sent(s, t) ==> Sent(s', t) {
    }
    assert forall u :: u in s'.logged ==> u in s.logged;
  }

  lemma JournalFailsAccounts(world: World, s: System, s': System, update: Update)
    requires PipelineAccounts(s)
    requires Next(world, s, s', JournalFails(update))
    ensures ForgetsNothing(s, s') && PipelineAccounts(s')
  {
    forall t ensures Sent(s, t) ==> Sent(s', t) {
    }
    assert forall u :: u in s'.logged ==> u in s.logged;
  }

  lemma PipelineStepAccounts(world: World, s: System, s': System, step: Step)
    requires PipelineAccounts(s)
    requires IsPipelineStep(step) && Next(world, s, s', step)
    ensures ForgetsNothing(s, s') && PipelineAccounts(s')
  {
    match step
    case StreamSend(update) => StreamSendAccounts(world, s, s', update);
    case StreamRecord => StreamRecordAccounts(world, s, s');
    case Dequeue => DequeueAccounts(world, s, s');
    case Emit(update) => EmitAccounts(world, s, s', update);
    case Journal(update) => JournalAccounts(world, s, s', update);
    case JournalFails(update) => JournalFailsAccounts(world, s, s', update);
  }

  lemma PipelineStepIsSafe(world: World, s: System, s': System, step: Step)
    requires Safe(world, s)
    requires IsPipelineStep(step) && Next(world, s, s', step)
    ensures Safe(world, s')
  {
    PipelineStepAccounts(world, s, s', step);
    MemorySurvives(world, s, s');
    if s.processed.cursors.Keys == AddressSet(world.addresses) {
      SnapshotsSurvive(world, s, s', s.processed);
    }
    if s.document.Some? {
      SnapshotsSurvive(world, s, s', s.document.value);
    }
  }

  /** The heart of the checkpoint rule: with the pipeline drained, everything sent was
      emitted, so memory is a snapshot that covers. */
  lemma DrainedMemoryIsASnapshot(world: World, s: System)
    requires Safe(world, s) && Drained(s)
    ensures SnapshotCovers(world, s, Seen(s.progress))
  {
    assert |s.inflight| == 0;
    forall t ensures Sent(s, t) <==> Emitted(s, t) {
    }
  }

  lemma TakeSnapshotIsSafe(world: World, s: System, s': System)
    requires Safe(world, s)
    requires Next(world, s, s', TakeSnapshot)
    ensures Safe(world, s')
  {
    forall t ensures Sent(s, t) <==> Sent(s', t) {
    }
    MemorySurvives(world, s, s');
    DrainedMemoryIsASnapshot(world, s);
    SnapshotsSurvive(world, s, s', s'.processed);
    if s'.document.Some? {
      SnapshotsSurvive(world, s, s', s.document.value);
    }
  }

  /** Saving, compacting and parking touch neither memory nor what a snapshot says. */
  lemma SaveIsSafe(world: World, s: System)
    requires Safe(world, s) && s.processed.cursors.Keys == AddressSet(world.addresses)
    ensures Safe(world, s.(document := Some(s.processed)))
  {
    var s' := s.(document := Some(s.processed));
    forall t ensures Sent(s, t) <==> Sent(s', t) {
    }
    MemorySurvives(world, s, s');
    SnapshotsSurvive(world, s, s', s.processed);
  }

  /** Dropping journal entries, or parking, touches nothing the invariant rests on. */
  lemma QuietChangeIsSafe(world: World, s: System, s': System)
    requires Safe(world, s)
    requires s' == s.(journal := s'.journal, highWater := s'.highWater, parked := s'.parked, pending := s'.pending)
    requires s'.journal.Keys <= s.journal.Keys && (forall u :: u in s'.pending ==> u in s.pending)
    ensures Safe(world, s')
  {
    forall t ensures Sent(s, t) <==> Sent(s', t) {
    }
    MemorySurvives(world, s, s');
    if s.processed.cursors.Keys == AddressSet(world.addresses) {
      SnapshotsSurvive(world, s, s', s.processed);
    }
    if s.document.Some? {
      SnapshotsSurvive(world, s, s', s.document.value);
    }
  }

  lemma DiskStepIsSafe(world: World, s: System, s': System, step: Step)
    requires Safe(world, s)
    requires step.Save? || step.Compact? || step.Park?
    requires Next(world, s, s', step)
    ensures Safe(world, s')
  {
    if step.Save? {
      SaveIsSafe(world, s);
    } else {
      QuietChangeIsSafe(world, s, s');
    }
  }

  /** Rewinding cursors only lists more. */
  lemma RewoundStaysWitnessed(world: World, document: Snapshot, restored: map<Signature, u64>, t: Signature)
    requires Witnessed(world, document.cursors, t)
    ensures Witnessed(world, Resumed(world.window, document, restored).cursors, t)
  {
    var x :| WitnessedBy(world, document.cursors, t, x);
    assert WitnessedBy(world, Resumed(world.window, document, restored).cursors, t, x);
  }

  lemma RestartIsSafe(world: World, s: System, s': System, restored: map<Signature, u64>)
    requires Safe(world, s)
    requires RestartStep(world, s, s', restored)
    ensures Safe(world, s')
    ensures Quarantined(s'.progress.poison) == s.document.value.quarantined
  {
    var document := s.document.value;
    SnapshotsSurvive(world, s, s', document);
    assert Quarantined(s'.progress.poison) == document.quarantined;
    forall t | InScope(world, s'.scope, t) && !Emitted(s', t) && t !in document.quarantined
      ensures Witnessed(world, s'.progress.cursors, t)
    {
      RewoundStaysWitnessed(world, document, restored, t);
    }
    forall t | t in s'.progress.recent ensures Emitted(s', t) || t in document.quarantined {
    }
  }

  lemma FreshStartIsSafe(world: World, s: System, s': System)
    requires Next(world, s, s', FreshStart)
    ensures Safe(world, s')
  {
  }

  lemma StepIsSafe(world: World, s: System, s': System, step: Step)
    requires DistinctMonitored(world)
    requires Safe(world, s)
    requires Next(world, s, s', step)
    ensures Safe(world, s')
  {
    match step
    case PollOk(answers, contexts, sent) => SuccessfulPollIsSafe(world, s, s', answers, contexts, sent);
    case PollErr(answers, contexts, planned, sent) => FailedPollIsSafe(world, s, s', answers, contexts, planned, sent);
    case Restart(restored) => RestartIsSafe(world, s, s', restored);
    case FreshStart => FreshStartIsSafe(world, s, s');
    case TakeSnapshot => TakeSnapshotIsSafe(world, s, s');
    case Save => DiskStepIsSafe(world, s, s', step);
    case Compact => DiskStepIsSafe(world, s, s', step);
    case Park => DiskStepIsSafe(world, s, s', step);
    case _ => PipelineStepIsSafe(world, s, s', step);
  }

  /** Every state of every run is safe, whatever fails and whenever the process dies. */
  lemma {:induction false} RunsAreSafe(world: World, states: seq<System>, steps: seq<Step>)
    requires DistinctMonitored(world)
    requires IsRun(world, states, steps)
    ensures Safe(world, states[|steps|])
  {
    if steps == [] {
      FreshStartIsSafe(world, START, START);
    } else {
      var n := |steps| - 1;
      RunsAreSafe(world, states[..n + 1], steps[..n]);
      StepIsSafe(world, states[n], states[n + 1], steps[n]);
    }
  }

  // ---------------------------------------------------------------------------
  // The theorems
  // ---------------------------------------------------------------------------

  /** At every moment of every run that has a checkpoint, a transaction in scope is
      already recorded, durably quarantined, or recoverable from disk alone: some
      address of the checkpoint still lists it and nothing on disk suppresses it. */
  lemma NoTransactionIsLost(world: World, states: seq<System>, steps: seq<Step>, t: Signature)
    requires DistinctMonitored(world)
    requires IsRun(world, states, steps)
    requires var s := states[|steps|]; s.document.Some? && InScope(world, s.scope, t)
    ensures var s := states[|steps|];
            || Emitted(s, t)
            || t in s.document.value.quarantined
            || (&& Witnessed(world, s.document.value.cursors, t)
                && t !in s.document.value.recent
                && t !in s.journal
                && (forall u :: u in s.logged ==> u.signature != t))
  {
    RunsAreSafe(world, states, steps);
  }

  /** Restarts and everything after them keep the scope of a deployment that has a
      checkpoint. */
  lemma ScopeIsKept(world: World, s: System, s': System, step: Step)
    requires Safe(world, s) && s.document.Some?
    requires Next(world, s, s', step)
    ensures s'.scope == s.scope && s'.document.Some?
  {
    match step
    case PollOk(answers, _, _) => ScopeGrowsOnce(world, s, answers.head);
    case PollErr(answers, _, _, _) => ScopeGrowsOnce(world, s, answers.head);
    case _ =>
  }

  ghost predicate EveryFetchConverts(a: Answers) {
    forall x :: x in a.outcomes ==> OutcomeOf(a.outcomes[x]).Succeeded?
  }

  /** Every replica that answered had reached the slot of `t`. */
  ghost predicate Reaches(world: World, a: Answers, contexts: map<Address, u64>, t: Signature) {
    && t in world.ledger
    && (forall b :: b in a.batches ==> b.address in contexts && world.ledger[t].slot <= contexts[b.address])
  }

  lemma CleanPollListsWhatIsWitnessed(
      world: World, pre: Progress, a: Answers, contexts: map<Address, u64>, cursors: map<Address, u64>, t: Signature)
    requires PollStarted(world, pre, a, contexts, cursors)
    requires cursors.Keys == AddressSet(world.addresses)
    requires EveryFetchConverts(a) && Reaches(world, a, contexts, t)
    requires Witnessed(world, cursors, t)
    requires t !in pre.recent
    ensures Sendable(pre.poison, a, t)
  {
    var x :| WitnessedBy(world, cursors, t, x);
    var batch := BatchOfAddress(world, a, x);
    assert Lists(batch, t);
    ListedIsWitnessed(world, pre, a, contexts, cursors, t, batch);
    NothingIsBlocked(a, pre.poison);
  }

  /** A poll in which every fetch converts sends whatever its replicas had reached. */
  lemma CleanPollSends(world: World, s: System, s': System, a: Answers, contexts: map<Address, u64>, sent: seq<Update>, t: Signature)
    requires Safe(world, s)
    requires PollOkStep(world, s, s', a, contexts, sent)
    requires EveryFetchConverts(a) && Reaches(world, a, contexts, t)
    requires InScope(world, s'.scope, t)
    ensures Sent(s', t) || t in Quarantined(s'.progress.poison)
  {
    if !Sent(s', t) && t !in Quarantined(s'.progress.poison) {
      var pre := Absorbed(s.progress, s.pending);
      var cursors := Initialized(pre.cursors, AddressSet(world.addresses), a.head, world.window);
      SentIsKept(s, s', sent, t);
      WitnessedBeforeSending(world, s, pre, a, contexts, cursors, s'.scope, t);
      UnsentIsNotSuppressed(world, s, pre, a, t);
      EveryAddressHasACursor(world, s, a.head);
      CleanPollListsWhatIsWitnessed(world, pre, a, contexts, cursors, t);
    }
  }

  lemma NothingIsBlocked(a: Answers, poison: map<Signature, PoisonFailure>)
    requires EveryFetchConverts(a)
    ensures Retrying(poison, a.outcomes) == {}
    ensures Blocked(a.batches, Retrying(poison, a.outcomes)) == {}
  {
    assert Retrying(poison, a.outcomes) == {};
    assert forall b :: !HoldsRetry(b, {});
  }

  ghost predicate IsPipelineRun(world: World, states: seq<System>, steps: seq<Step>) {
    && |states| == |steps| + 1
    && (forall i :: 0 <= i < |steps| ==> IsPipelineStep(steps[i]) && Next(world, states[i], states[i + 1], steps[i]))
  }

  lemma {:induction false} PipelineRunForgetsNothing(world: World, states: seq<System>, steps: seq<Step>)
    requires IsPipelineRun(world, states, steps)
    requires PipelineAccounts(states[0])
    ensures ForgetsNothing(states[0], states[|steps|]) && PipelineAccounts(states[|steps|])
    ensures states[|steps|].progress == states[0].progress
  {
    if steps != [] {
      var n := |steps| - 1;
      PipelineRunForgetsNothing(world, states[..n + 1], steps[..n]);
      PipelineStepAccounts(world, states[n], states[n + 1], steps[n]);
    }
  }

  lemma CleanPollSendsOrWasQuarantined(
      world: World, s: System, s': System, a: Answers, contexts: map<Address, u64>, sent: seq<Update>, t: Signature)
    requires DistinctMonitored(world)
    requires Safe(world, s) && s.document.Some?
    requires EveryFetchConverts(a) && Reaches(world, a, contexts, t)
    requires PollOkStep(world, s, s', a, contexts, sent)
    requires InScope(world, s.scope, t)
    ensures Sent(s', t) || t in Quarantined(s.progress.poison)
  {
    ScopeGrowsOnce(world, s, a.head);
    CleanPollSends(world, s, s', a, contexts, sent, t);
    if t in Quarantined(s'.progress.poison) {
      CleanPollsQuarantineNothing(Absorbed(s.progress, s.pending), a, t);
    }
  }

  /** Recovery is complete. Whenever the process dies with a checkpoint on disk, and
      whatever became of the journal, restarting, polling once without fetch failures
      and letting the pipeline drain leaves every transaction in scope that the poll's
      replicas had reached recorded, or quarantined in the checkpoint. */
  lemma RecoveryRecordsEverything(
      world: World, states: seq<System>, steps: seq<Step>,
      restored: map<Signature, u64>, restarted: System,
      a: Answers, contexts: map<Address, u64>, sent: seq<Update>,
      after: seq<System>, pipeline: seq<Step>, t: Signature)
    requires DistinctMonitored(world)
    requires IsRun(world, states, steps) && states[|steps|].document.Some?
    requires RestartStep(world, states[|steps|], restarted, restored)
    requires IsPipelineRun(world, after, pipeline)
    requires EveryFetchConverts(a) && Reaches(world, a, contexts, t)
    requires PollOkStep(world, restarted, after[0], a, contexts, sent)
    requires Drained(after[|pipeline|])
    requires InScope(world, states[|steps|].scope, t)
    ensures Emitted(after[|pipeline|], t) || t in states[|steps|].document.value.quarantined
  {
    RunsAreSafe(world, states, steps);
    RestartIsSafe(world, states[|steps|], restarted, restored);
    CleanPollSendsOrWasQuarantined(world, restarted, after[0], a, contexts, sent, t);
    SuccessfulPollIsSafe(world, restarted, after[0], a, contexts, sent);
    PipelineRunForgetsNothing(world, after, pipeline);
    DrainedMeansRecorded(after[|pipeline|], t);
  }

  lemma DrainedMeansRecorded(s: System, t: Signature)
    requires PipelineAccounts(s) && Drained(s)
    ensures Sent(s, t) ==> Emitted(s, t)
  {
    assert |s.inflight| == 0;
  }

  lemma CleanPollsQuarantineNothing(pre: Progress, a: Answers, t: Signature)
    requires EveryFetchConverts(a)
    requires t in Quarantined(Judged(pre.poison, a.outcomes))
    ensures t in Quarantined(pre.poison)
  {
  }

  // ---------------------------------------------------------------------------
  // Where the guarantee begins
  // ---------------------------------------------------------------------------

  /** Without a checkpoint a restart follows each address afresh. The first poll then
      undertakes exactly the transactions above two windows behind its head; older ones
      that were in scope before, recorded or not, no longer are. */
  lemma FreshStartUndertakesTwoWindows(
      world: World, crashed: System, s: System, s': System, a: Answers, contexts: map<Address, u64>, sent: seq<Update>, t: Signature)
    requires Next(world, crashed, s, FreshStart)
    requires PollOkStep(world, s, s', a, contexts, sent)
    requires t in world.ledger
    ensures InScope(world, s'.scope, t) <==>
            && world.ledger[t].slot > UnreachableBelow(a.head, world.window)
            && exists x :: x in AddressSet(world.addresses) && Touches(world, t, x)
  {
    FreshScope(world, s, a.head);
    InFreshScope(world, s'.scope, a.head, t);
  }

  lemma InFreshScope(world: World, scope: map<Address, u64>, head: u64, t: Signature)
    requires t in world.ledger
    requires scope == map x | x in AddressSet(world.addresses) :: UnreachableBelow(head, world.window)
    ensures InScope(world, scope, t) <==>
            && world.ledger[t].slot > UnreachableBelow(head, world.window)
            && exists x :: x in AddressSet(world.addresses) && Touches(world, t, x)
  {
  }

  lemma FreshScope(world: World, s: System, head: u64)
    requires s.scope == map[] && s.progress.cursors == map[]
    ensures ScopeAfter(world, s, head) ==
            map x | x in AddressSet(world.addresses) :: UnreachableBelow(head, world.window)
  {
  }
}
