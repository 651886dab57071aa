/** How often a transaction can be recorded when the poller is the only source and no
    crash damages the journal: at most once above the high-water mark of what was ever
    dropped from suppression, over any number of restarts. */
module AtMostOnce {
  import opened Primitives
  import opened Signatures
  import opened Progress
  import opened PollSpec
  import opened Protocol

  /** The steps of a deployment in RPC mode whose crashes leave the journal as it was
      written and find a checkpoint. */
  ghost predicate Orderly(s: System, step: Step) {
    && !step.StreamSend?
    && !step.FreshStart?
    && (step.Restart? ==> step.restored == s.journal)
  }

  /** Below the reach of suppression, or kept from the journal after its log lines: by a
      crash between the two, or by an append that failed. */
  ghost predicate Faded(world: World, s: System, t: Signature) {
    t in s.exposed || (t in world.ledger && world.ledger[t].slot <= UnreachableBelow(s.highWater, world.window))
  }

  ghost predicate TrueSlot(world: World, t: Signature, slot: u64) {
    t in world.ledger && world.ledger[t].slot == slot
  }

  ghost predicate TrueSlots(world: World, recent: map<Signature, u64>) {
    forall t :: t in recent ==> TrueSlot(world, t, recent[t])
  }

  ghost predicate TrueUpdate(world: World, u: Update) {
    TrueSlot(world, u.signature, u.slot)
  }

  /** Every slot written anywhere is the transaction's own. */
  ghost predicate Truthful(world: World, s: System) {
    && TrueSlots(world, s.progress.recent)
    && TrueSlots(world, s.processed.recent)
    && (s.document.Some? ==> TrueSlots(world, s.document.value.recent))
    && TrueSlots(world, s.journal)
    && (forall u :: u in s.queue || u in s.inflight || u in s.logged ==> TrueUpdate(world, u))
    && (forall t :: t in s.emissions ==> t in world.ledger)
  }

  /** What was sent is suppressed in memory, what was recorded is suppressed on disk,
      until it fades. */
  ghost predicate Suppressed(world: World, s: System) {
    && (forall t :: Sent(s, t) && !Faded(world, s, t) ==> t in s.progress.recent)
    && (forall t :: Emitted(s, t) && !Faded(world, s, t) ==> Journalled(s, t))
  }

  /** In the journal, or about to be. */
  ghost predicate Journalled(s: System, t: Signature) {
    t in s.journal || exists u :: u in s.logged && u.signature == t
  }

  /** Copies of one update anywhere between a poll and its record. */
  ghost function Copies(s: System, u: Update): nat {
    s.emissions[u.signature] + multiset(s.queue)[u] + s.inflight[u]
  }

  ghost predicate Single(world: World, s: System) {
    forall u :: TrueUpdate(world, u) && !Faded(world, s, u.signature) ==> Copies(s, u) <= 1
  }

  ghost predicate Once(world: World, s: System) {
    && s.relayed == [] && s.pending == []
    && Truthful(world, s)
    && Suppressed(world, s)
    && Single(world, s)
  }

  lemma HighWaterOnlyFades(world: World, s: System, s': System, t: Signature)
    requires s.highWater <= s'.highWater && s.exposed <= s'.exposed
    ensures Faded(world, s, t) ==> Faded(world, s', t)
  {
  }

  lemma UnsentHasNoCopies(s: System, u: Update)
    requires !Sent(s, u.signature)
    ensures Copies(s, u) == 0
  {
    assert u !in s.queue && u !in s.inflight;
  }

  // ---------------------------------------------------------------------------
  // Polls
  // ---------------------------------------------------------------------------

  lemma ListedSlotsAreTrue(world: World, pre: Progress, a: Answers, contexts: map<Address, u64>, t: Signature)
    requires Faithful(world, pre, a, contexts)
    requires t in Listed(a.batches)
    ensures TrueSlot(world, t, ListedSlot(a.batches, t))
  {
    var b :| b in a.batches && Discovered(t, ListedSlot(a.batches, t)) in b.signatures;
  }

  lemma GivenUpSlotsAreTrue(world: World, pre: Progress, a: Answers, contexts: map<Address, u64>)
    requires Faithful(world, pre, a, contexts)
    requires a.outcomes.Keys <= Listed(a.batches)
    ensures TrueSlots(world, GivenUp(pre.poison, a.batches, a.outcomes))
  {
    forall t | t in GivenUp(pre.poison, a.batches, a.outcomes)
      ensures TrueSlot(world, t, GivenUp(pre.poison, a.batches, a.outcomes)[t])
    {
      ListedSlotsAreTrue(world, pre, a, contexts, t);
    }
  }

  lemma PlannedUpdatesAreTrue(
      world: World, pre: Progress, a: Answers, contexts: map<Address, u64>, planned: seq<Update>, sent: seq<Update>)
    requires Faithful(world, pre, a, contexts)
    requires Asked(world.addresses, pre.recent, a)
    requires Planned(pre.poison, a, planned) && sent <= planned
    ensures OncePerSignature(sent)
    ensures forall u :: u in sent ==> TrueUpdate(world, u) && u.signature !in pre.recent
  {
    forall u | u in sent ensures TrueUpdate(world, u) && u.signature !in pre.recent {
      assert u in planned;
    }
  }

  lemma RecordedSlotsAreTrue(world: World, recent: map<Signature, u64>, sent: seq<Update>)
    requires TrueSlots(world, recent)
    requires forall u :: u in sent ==> TrueUpdate(world, u)
    ensures TrueSlots(world, Recorded(recent, sent))
    ensures recent.Keys + SignaturesOf(sent) <= Recorded(recent, sent).Keys
  {
    RecordedKeys(recent, sent);
  }

  lemma MergedSlotsAreTrue(world: World, first: map<Signature, u64>, second: map<Signature, u64>)
    requires TrueSlots(world, first) && TrueSlots(world, second)
    ensures TrueSlots(world, first + second)
  {
  }

  /** Polls write true slots and send only what they do not suppress. */
  lemma PollRemembersTruthfully(
      world: World, pre: Progress, a: Answers, contexts: map<Address, u64>, planned: seq<Update>, sent: seq<Update>)
    requires Faithful(world, pre, a, contexts)
    requires Asked(world.addresses, pre.recent, a)
    requires Planned(pre.poison, a, planned) && sent <= planned
    requires TrueSlots(world, pre.recent)
    ensures TrueSlots(world, Remembered(pre, a, sent))
    ensures pre.recent.Keys + SignaturesOf(sent) <= Remembered(pre, a, sent).Keys
    ensures OncePerSignature(sent)
    ensures forall u :: u in sent ==> TrueUpdate(world, u) && u.signature !in pre.recent
  {
    PlannedUpdatesAreTrue(world, pre, a, contexts, planned, sent);
    GivenUpSlotsAreTrue(world, pre, a, contexts);
    MergedSlotsAreTrue(world, pre.recent, GivenUp(pre.poison, a.batches, a.outcomes));
    RecordedSlotsAreTrue(world, pre.recent + GivenUp(pre.poison, a.batches, a.outcomes), sent);
  }

  lemma SendingAddsAtMostOne(world: World, s: System, s': System, sent: seq<Update>, u: Update)
    requires Single(world, s) && Suppressed(world, s)
    requires s'.queue == s.queue + sent && s'.inflight == s.inflight && s'.emissions == s.emissions
    requires s.highWater <= s'.highWater && s.exposed == s'.exposed
    requires OncePerSignature(sent)
    requires forall v :: v in sent ==> v.signature !in s.progress.recent
    requires TrueUpdate(world, u) && !Faded(world, s', u.signature)
    ensures Copies(s', u) <= 1
  {
    HighWaterOnlyFades(world, s, s', u.signature);
    assert multiset(s'.queue) == multiset(s.queue) + multiset(sent);
    OnceMeansNoCopies(sent);
    if u in sent {
      UnsentHasNoCopies(s, u);
    } else {
      assert multiset(sent)[u] == 0;
    }
  }

  lemma SentAfterPoll(s: System, s': System, sent: seq<Update>, t: Signature)
    requires s'.queue == s.queue + sent && s'.inflight == s.inflight && s'.emissions == s.emissions
    ensures Sent(s', t) <==> Sent(s, t) || t in SignaturesOf(sent)
  {
    assert forall u :: u in s'.queue <==> u in s.queue || u in sent;
  }

  lemma NothingToAbsorb(state: Progress)
    ensures Absorbed(state, []) == state
  {
  }

  /** All that matters of a poll here: it sends each transaction once and only what it
      did not suppress, and it goes on suppressing what has not faded. */
  ghost predicate Remembers(world: World, s: System, s': System, sent: seq<Update>) {
    && s' == s.(progress := s'.progress, pending := [], queue := s.queue + sent, scope := s'.scope, highWater := s'.highWater)
    && s.highWater <= s'.highWater
    && TrueSlots(world, s'.progress.recent)
    && OncePerSignature(sent)
    && (forall u :: u in sent ==> TrueUpdate(world, u) && u.signature !in s.progress.recent)
    && (forall t :: (t in s.progress.recent || t in SignaturesOf(sent)) && !Faded(world, s', t) ==> t in s'.progress.recent)
  }

  lemma RememberingIsTruthful(world: World, s: System, s': System, sent: seq<Update>)
    requires Truthful(world, s) && Remembers(world, s, s', sent)
    ensures Truthful(world, s')
  {
    assert forall u :: u in s'.queue <==> u in s.queue || u in sent;
  }

  lemma RememberingSuppresses(world: World, s: System, s': System, sent: seq<Update>)
    requires Suppressed(world, s) && Remembers(world, s, s', sent)
    ensures Suppressed(world, s')
  {
    forall t | Sent(s', t) && !Faded(world, s', t) ensures t in s'.progress.recent {
      SentAfterPoll(s, s', sent, t);
      HighWaterOnlyFades(world, s, s', t);
    }
    forall t | Emitted(s', t) && !Faded(world, s', t) ensures Journalled(s', t) {
      HighWaterOnlyFades(world, s, s', t);
    }
  }

  lemma RememberingKeepsOnce(world: World, s: System, s': System, sent: seq<Update>)
    requires Once(world, s) && Remembers(world, s, s', sent)
    ensures Once(world, s')
  {
    RememberingIsTruthful(world, s, s', sent);
    RememberingSuppresses(world, s, s', sent);
    forall u | TrueUpdate(world, u) && !Faded(world, s', u.signature) ensures Copies(s', u) <= 1 {
      SendingAddsAtMostOne(world, s, s', sent, u);
    }
  }

  lemma SuccessfulPollRemembers(world: World, s: System, s': System, a: Answers, contexts: map<Address, u64>, sent: seq<Update>)
    requires s.pending == [] && TrueSlots(world, s.progress.recent)
    requires PollOkStep(world, s, s', a, contexts, sent)
    ensures Remembers(world, s, s', sent)
  {
    var pre := s.progress;
    NothingToAbsorb(pre);
    PollRemembersTruthfully(world, pre, a, contexts, sent, sent);
    var dropped := UnreachableBelow(MinimumCursor(s'.progress.cursors, a.head), world.window);
    assert dropped <= UnreachableBelow(s'.highWater, world.window);
    forall t | (t in pre.recent || t in SignaturesOf(sent)) && !Faded(world, s', t) ensures t in s'.progress.recent {
      assert t in Remembered(pre, a, sent);
    }
  }

  lemma FailedPollRemembers(
      world: World, pre: Progress, post: Progress, a: Answers, contexts: map<Address, u64>, planned: seq<Update>, sent: seq<Update>)
    requires PollFails(world.window, world.addresses, pre, post, a, planned, sent)
    requires Faithful(world, pre, a, contexts)
    requires TrueSlots(world, pre.recent)
    ensures TrueSlots(world, post.recent)
    ensures pre.recent.Keys + SignaturesOf(sent) <= post.recent.Keys
    ensures OncePerSignature(sent)
    ensures forall u :: u in sent ==> TrueUpdate(world, u) && u.signature !in pre.recent
  {
    if post.recent != pre.recent || sent != [] {
      PollRemembersTruthfully(world, pre, a, contexts, planned, sent);
    }
  }

  lemma FailedPollKeepsOnce(
      world: World, s: System, s': System, a: Answers, contexts: map<Address, u64>, planned: seq<Update>, sent: seq<Update>)
    requires Once(world, s)
    requires PollErrStep(world, s, s', a, contexts, planned, sent)
    ensures Once(world, s')
  {
    NothingToAbsorb(s.progress);
    FailedPollRemembers(world, s.progress, s'.progress, a, contexts, planned, sent);
    RememberingKeepsOnce(world, s, s', sent);
  }

  lemma SuccessfulPollKeepsOnce(world: World, s: System, s': System, a: Answers, contexts: map<Address, u64>, sent: seq<Update>)
    requires Once(world, s)
    requires PollOkStep(world, s, s', a, contexts, sent)
    ensures Once(world, s')
  {
    SuccessfulPollRemembers(world, s, s', a, contexts, sent);
    RememberingKeepsOnce(world, s, s', sent);
  }

  // ---------------------------------------------------------------------------
  // The other steps
  // ---------------------------------------------------------------------------

  /** What a step must respect that sends nothing and leaves memory alone. */
  ghost predicate Quiet(world: World, s: System, s': System) {
    && s'.relayed == [] && s'.pending == []
    && s'.progress == s.progress
    && s.highWater <= s'.highWater && s.exposed <= s'.exposed
    && (forall t :: Sent(s', t) ==> Sent(s, t))
    && (forall u :: TrueUpdate(world, u) ==> Copies(s', u) <= Copies(s, u))
    && (forall t :: Emitted(s', t) && !Faded(world, s', t) ==> Journalled(s', t))
  }

  lemma QuietStepKeepsOnce(world: World, s: System, s': System)
    requires Once(world, s) && Quiet(world, s, s') && Truthful(world, s')
    ensures Once(world, s')
  {
    forall t | Sent(s', t) && !Faded(world, s', t) ensures t in s'.progress.recent {
      HighWaterOnlyFades(world, s, s', t);
    }
    forall u | TrueUpdate(world, u) && !Faded(world, s', u.signature) ensures Copies(s', u) <= 1 {
      HighWaterOnlyFades(world, s, s', u.signature);
    }
  }

  lemma DequeueMovesOneCopy(s: System, s': System)
    requires s.queue != []
    requires s'.queue == s.queue[1..] && s'.inflight == s.inflight + multiset{s.queue[0]}
    requires s'.emissions == s.emissions
    ensures forall u :: Copies(s', u) == Copies(s, u)
    ensures forall t :: Sent(s', t) ==> Sent(s, t)
  {
    assert s.queue == [s.queue[0]] + s'.queue;
    assert multiset(s.queue) == multiset{s.queue[0]} + multiset(s'.queue);
    forall t | Sent(s', t) ensures Sent(s, t) {
      assert forall u :: u in s'.inflight ==> u in s.inflight || u == s.queue[0];
      assert forall u :: u in s'.queue ==> u in s.queue;
    }
  }

  lemma DequeueIsTruthful(world: World, s: System, s': System)
    requires Truthful(world, s)
    requires Next(world, s, s', Dequeue)
    ensures Truthful(world, s')
  {
    assert forall u :: u in s'.inflight ==> u in s.inflight || u == s.queue[0];
    assert forall u :: u in s'.queue ==> u in s.queue;
  }

  lemma DequeueIsQuiet(world: World, s: System, s': System)
    requires Once(world, s)
    requires Next(world, s, s', Dequeue)
    ensures Quiet(world, s, s') && Truthful(world, s')
  {
    DequeueMovesOneCopy(s, s');
    DequeueIsTruthful(world, s, s');
    forall t | Emitted(s', t) && !Faded(world, s', t) ensures Journalled(s', t) {
      assert Emitted(s, t) && !Faded(world, s, t) && Journalled(s, t);
    }
  }

  lemma EmitIsTruthful(world: World, s: System, s': System, update: Update)
    requires Truthful(world, s)
    requires Next(world, s, s', Emit(update))
    ensures Truthful(world, s')
  {
    assert forall u :: u in s'.inflight || u in s'.logged ==> u in s.inflight || u in s.logged;
  }

  lemma EmitJournals(world: World, s: System, s': System, update: Update)
    requires Suppressed(world, s)
    requires Next(world, s, s', Emit(update))
    ensures forall t :: Emitted(s', t) && !Faded(world, s', t) ==> Journalled(s', t)
  {
    assert update in s'.logged;
    assert forall u :: u in s.logged ==> u in s'.logged;
    forall t | Emitted(s', t) && !Faded(world, s', t) ensures Journalled(s', t) {
      if t != update.signature {
        assert Emitted(s, t) && !Faded(world, s, t);
      }
    }
  }

  lemma EmitMovesOneCopy(world: World, s: System, s': System, update: Update)
    requires TrueUpdate(world, update)
    requires Next(world, s, s', Emit(update))
    ensures forall t :: Sent(s', t) ==> Sent(s, t)
    ensures forall u :: TrueUpdate(world, u) ==> Copies(s', u) <= Copies(s, u)
  {
    forall u | TrueUpdate(world, u) ensures Copies(s', u) <= Copies(s, u) {
      if u.signature == update.signature {
        assert u == update;
      }
    }
    forall t | Sent(s', t) ensures Sent(s, t) {
      if t == update.signature {
        assert update in s.inflight;
      }
    }
  }

  lemma EmitIsQuiet(world: World, s: System, s': System, update: Update)
    requires Once(world, s)
    requires Next(world, s, s', Emit(update))
    ensures Quiet(world, s, s') && Truthful(world, s')
  {
    EmitIsTruthful(world, s, s', update);
    EmitJournals(world, s, s', update);
    EmitMovesOneCopy(world, s, s', update);
  }

  lemma JournalIsTruthful(world: World, s: System, s': System, update: Update)
    requires Truthful(world, s)
    requires Next(world, s, s', Step.Journal(update))
    ensures Truthful(world, s')
  {
    assert forall u :: u in s'.logged ==> u in s.logged;
  }

  lemma JournalKeepsJournalled(s: System, s': System, update: Update, t: Signature)
    requires Journalled(s, t)
    requires s'.logged == s.logged - multiset{update}
    requires s.journal.Keys + {update.signature} <= s'.journal.Keys
    ensures Journalled(s', t)
  {
    if t !in s'.journal {
      var u :| u in s.logged && u.signature == t;
      assert u in s'.logged;
    }
  }

  lemma JournalIsQuiet(world: World, s: System, s': System, update: Update)
    requires Once(world, s)
    requires Next(world, s, s', Step.Journal(update))
    ensures Quiet(world, s, s') && Truthful(world, s')
  {
    JournalIsTruthful(world, s, s', update);
    forall t | Emitted(s', t) && !Faded(world, s', t) ensures Journalled(s', t) {
      assert Emitted(s, t) && !Faded(world, s, t);
      JournalKeepsJournalled(s, s', update, t);
    }
    forall t ensures Sent(s', t) ==> Sent(s, t) {
    }
  }

  /** What a failed append leaves out of the journal counts as faded from then on. */
  lemma JournalFailsIsQuiet(world: World, s: System, s': System, update: Update)
    requires Once(world, s)
    requires Next(world, s, s', Step.JournalFails(update))
    ensures Quiet(world, s, s') && Truthful(world, s')
  {
    assert forall u :: u in s'.logged ==> u in s.logged;
    forall t | Emitted(s', t) && !Faded(world, s', t) ensures Journalled(s', t) {
      assert Emitted(s, t) && !Faded(world, s, t) && Journalled(s, t) && t != update.signature;
      if t !in s.journal {
        var u :| u in s.logged && u.signature == t;
        assert u in s'.logged;
      }
    }
    forall t ensures Sent(s', t) ==> Sent(s, t) {
    }
  }

  /** Compaction drops exactly what the new high-water mark already counts as faded. */
  lemma CompactKeepsJournalled(world: World, s: System, s': System)
    requires Suppressed(world, s) && TrueSlots(world, s.journal)
    requires Next(world, s, s', Compact)
    ensures forall t :: Emitted(s', t) && !Faded(world, s', t) ==> Journalled(s', t)
  {
    var slot := MinimumCursor(s.document.value.cursors, 0);
    assert UnreachableBelow(slot, world.window) <= UnreachableBelow(s'.highWater, world.window);
    forall t | Emitted(s', t) && !Faded(world, s', t) ensures Journalled(s', t) {
      HighWaterOnlyFades(world, s, s', t);
      assert Emitted(s, t) && Journalled(s, t);
      if t in s.journal {
        assert TrueSlot(world, t, s.journal[t]);
        assert t in s'.journal;
      } else {
        var u :| u in s.logged && u.signature == t;
        assert u in s'.logged;
      }
    }
  }

  /** Compaction keeps exactly the entries that some cursor of the checkpoint, rewound by a
      restart, would list again. */
  lemma CompactionKeepsTheReach(world: World, s: System, s': System, t: Signature)
    requires Next(world, s, s', Compact) && s.document.value.cursors != map[]
    ensures t in s'.journal <==>
              && t in s.journal
              && exists x :: x in s.document.value.cursors && s.journal[t] > SaturatingSub(s.document.value.cursors[x], 2 * world.window)
    ensures t in s'.journal ==> s'.journal[t] == s.journal[t]
  {
    var cursors := s.document.value.cursors;
    var minimum := MinimumCursor(cursors, 0);
    var lowest :| lowest in cursors && cursors[lowest] == minimum;
    if t in s.journal && s.journal[t] > UnreachableBelow(minimum, world.window) {
      assert s.journal[t] > SaturatingSub(cursors[lowest], 2 * world.window);
    }
  }

  lemma CompactIsQuiet(world: World, s: System, s': System)
    requires Once(world, s)
    requires Next(world, s, s', Compact)
    ensures Quiet(world, s, s') && Truthful(world, s')
  {
    CompactKeepsJournalled(world, s, s');
    forall t ensures Sent(s', t) ==> Sent(s, t) {
    }
  }

  lemma UnmovedIsQuiet(world: World, s: System, s': System)
    requires Suppressed(world, s)
    requires s'.relayed == [] && s'.pending == []
    requires s'.progress == s.progress && s'.highWater == s.highWater && s'.exposed == s.exposed
    requires s'.queue == s.queue && s'.inflight == s.inflight && s'.logged == s.logged
    requires s'.emissions == s.emissions && s'.journal == s.journal
    ensures Quiet(world, s, s')
  {
    forall t | Emitted(s', t) && !Faded(world, s', t) ensures Journalled(s', t) {
      assert Emitted(s, t) && !Faded(world, s, t) && Journalled(s, t);
    }
    forall t ensures Sent(s', t) ==> Sent(s, t) {
    }
  }

  /** Snapshots, saves and parking send and emit nothing. */
  lemma SaveIsQuiet(world: World, s: System, s': System, step: Step)
    requires Once(world, s)
    requires step.TakeSnapshot? || step.Save? || step.Park?
    requires Next(world, s, s', step)
    ensures Quiet(world, s, s') && Truthful(world, s')
  {
    UnmovedIsQuiet(world, s, s');
  }

  /** A crash drops the pipeline; what it had recorded comes back from the journal. */
  lemma RestartSuppresses(world: World, s: System, s': System, t: Signature)
    requires Suppressed(world, s)
    requires RestartStep(world, s, s', s.journal)
    requires Emitted(s, t) && !Faded(world, s', t)
    ensures t in s'.progress.recent && t in s'.journal
  {
    HighWaterOnlyFades(world, s, s', t);
    assert forall u :: u in s.logged ==> u.signature in SignaturesIn(s.logged);
  }

  lemma RestartIsTruthful(world: World, s: System, s': System)
    requires Truthful(world, s)
    requires RestartStep(world, s, s', s.journal)
    ensures Truthful(world, s')
  {
    MergedSlotsAreTrue(world, s.document.value.recent, s.journal);
  }

  lemma RestartKeepsOnce(world: World, s: System, s': System)
    requires Once(world, s)
    requires RestartStep(world, s, s', s.journal)
    ensures Once(world, s')
  {
    RestartIsTruthful(world, s, s');
    forall t | Sent(s', t) && !Faded(world, s', t) ensures t in s'.progress.recent && t in s'.journal {
      RestartSuppresses(world, s, s', t);
    }
    forall u | TrueUpdate(world, u) && !Faded(world, s', u.signature) ensures Copies(s', u) <= 1 {
      HighWaterOnlyFades(world, s, s', u.signature);
      assert Copies(s', u) <= Copies(s, u);
    }
  }

  lemma PipelineStepKeepsOnce(world: World, s: System, s': System, step: Step)
    requires Once(world, s)
    requires step.Dequeue? || step.Emit? || step.Journal? || step.JournalFails?
    requires Next(world, s, s', step)
    ensures Once(world, s')
  {
    match step {
      case Dequeue => DequeueIsQuiet(world, s, s');
      case Emit(update) => EmitIsQuiet(world, s, s', update);
      case Journal(update) => JournalIsQuiet(world, s, s', update);
      case JournalFails(update) => JournalFailsIsQuiet(world, s, s', update);
    }
    QuietStepKeepsOnce(world, s, s');
  }

  lemma DiskStepKeepsOnce(world: World, s: System, s': System, step: Step)
    requires Once(world, s)
    requires step.TakeSnapshot? || step.Save? || step.Compact? || step.Park?
    requires Next(world, s, s', step)
    ensures Once(world, s')
  {
    if step.Compact? {
      CompactIsQuiet(world, s, s');
    } else {
      SaveIsQuiet(world, s, s', step);
    }
    QuietStepKeepsOnce(world, s, s');
  }

  lemma StepKeepsOnce(world: World, s: System, s': System, step: Step)
    requires Once(world, s)
    requires Orderly(s, step) && Next(world, s, s', step)
    ensures Once(world, s')
  {
    match step
    case PollOk(answers, contexts, sent) => SuccessfulPollKeepsOnce(world, s, s', answers, contexts, sent);
    case PollErr(answers, contexts, planned, sent) => FailedPollKeepsOnce(world, s, s', answers, contexts, planned, sent);
    case Restart(restored) => RestartKeepsOnce(world, s, s');
    case Dequeue => PipelineStepKeepsOnce(world, s, s', step);
    case Emit(update) => PipelineStepKeepsOnce(world, s, s', step);
    case Journal(update) => PipelineStepKeepsOnce(world, s, s', step);
    case JournalFails(update) => PipelineStepKeepsOnce(world, s, s', step);
    case StreamRecord =>
    case _ => DiskStepKeepsOnce(world, s, s', step);
  }

  // ---------------------------------------------------------------------------
  // The theorems
  // ---------------------------------------------------------------------------

  ghost predicate IsOrderlyRun(world: World, states: seq<System>, steps: seq<Step>) {
    && IsRun(world, states, steps)
    && (forall i :: 0 <= i < |steps| ==> Orderly(states[i], steps[i]))
  }

  lemma {:induction false} OrderlyRunsKeepOnce(world: World, states: seq<System>, steps: seq<Step>)
    requires IsOrderlyRun(world, states, steps)
    ensures Once(world, states[|steps|])
  {
    if steps != [] {
      var n := |steps| - 1;
      OrderlyRunsKeepOnce(world, states[..n + 1], steps[..n]);
      StepKeepsOnce(world, states[n], states[n + 1], steps[n]);
    }
  }

  /** Over any orderly run with any number of restarts, a transaction is recorded at
      most once, unless its slot is two windows or more below the highest minimum
      cursor that ever dropped suppression, or a crash or a failed append kept it from
      the journal after it was logged. */
  lemma RecordedAtMostOnce(world: World, states: seq<System>, steps: seq<Step>, t: Signature)
    requires IsOrderlyRun(world, states, steps)
    requires !Faded(world, states[|steps|], t)
    ensures states[|steps|].emissions[t] <= 1
  {
    var s := states[|steps|];
    OrderlyRunsKeepOnce(world, states, steps);
    if t in s.emissions {
      var u := Update(t, world.ledger[t].slot);
      assert Copies(s, u) <= 1;
    }
  }

  /** A poll of `s`, whether it completed or stopped amid its sends. */
  ghost predicate Polls(
    world: World, s: System, s': System, a: Answers, contexts: map<Address, u64>, planned: seq<Update>, sent: seq<Update>)
  {
    || (PollOkStep(world, s, s', a, contexts, sent) && planned == sent)
    || PollErrStep(world, s, s', a, contexts, planned, sent)
  }

  lemma PollSendsWhatItPlanned(
      world: World, s: System, s': System, a: Answers, contexts: map<Address, u64>, planned: seq<Update>, sent: seq<Update>)
    requires s.pending == [] && Polls(world, s, s', a, contexts, planned, sent) && sent != []
    ensures Faithful(world, s.progress, a, contexts)
    ensures Asked(world.addresses, s.progress.recent, a)
    ensures Planned(s.progress.poison, a, planned) && sent <= planned
  {
    NothingToAbsorb(s.progress);
  }

  /** What any poll of such a run sends a second time has faded. */
  lemma OnlyFadedIsSentAgain(
      world: World, states: seq<System>, steps: seq<Step>, s': System, a: Answers, contexts: map<Address, u64>,
      planned: seq<Update>, sent: seq<Update>, u: Update)
    requires IsOrderlyRun(world, states, steps)
    requires Polls(world, states[|steps|], s', a, contexts, planned, sent)
    requires u in sent && Sent(states[|steps|], u.signature)
    ensures Faded(world, states[|steps|], u.signature)
  {
    var s := states[|steps|];
    OrderlyRunsKeepOnce(world, states, steps);
    PollSendsWhatItPlanned(world, s, s', a, contexts, planned, sent);
    PlannedUpdatesAreTrue(world, s.progress, a, contexts, planned, sent);
  }

  /** A poll lists nothing that far back while every cursor is within one window of the
      high-water mark: only exposed transactions can be sent again. */
  lemma NothingIsSentAgainNearTheHighWater(
      world: World, states: seq<System>, steps: seq<Step>, s': System, a: Answers, contexts: map<Address, u64>,
      planned: seq<Update>, sent: seq<Update>, u: Update)
    requires IsOrderlyRun(world, states, steps)
    requires Polls(world, states[|steps|], s', a, contexts, planned, sent)
    requires var s := states[|steps|];
             && AddressSet(world.addresses) <= s.progress.cursors.Keys
             && forall x :: x in s.progress.cursors ==>
                  s.progress.cursors[x] >= SaturatingSub(s.highWater, world.window)
    requires u in sent && Sent(states[|steps|], u.signature)
    ensures u.signature in states[|steps|].exposed
  {
    var s := states[|steps|];
    OrderlyRunsKeepOnce(world, states, steps);
    OnlyFadedIsSentAgain(world, states, steps, s', a, contexts, planned, sent, u);
    PollSendsWhatItPlanned(world, s, s', a, contexts, planned, sent);
    SentIsAboveSomeFloor(world, s.progress, a, contexts, planned, u);
  }

  lemma SentIsAboveSomeFloor(
      world: World, pre: Progress, a: Answers, contexts: map<Address, u64>, sent: seq<Update>, u: Update)
    requires Faithful(world, pre, a, contexts)
    requires Asked(world.addresses, pre.recent, a) && Planned(pre.poison, a, sent)
    requires AddressSet(world.addresses) <= pre.cursors.Keys
    requires u in sent
    ensures u.signature in world.ledger
    ensures exists x :: x in pre.cursors && world.ledger[u.signature].slot > Floor(pre.cursors[x], world.window)
  {
    assert u.signature in Listed(a.batches);
    var b, d :| b in a.batches && d in b.signatures && d.signature == u.signature;
    assert Lists(b, u.signature);
  }

  lemma OrderlyRunContinues(world: World, states: seq<System>, steps: seq<Step>, s': System, step: Step)
    requires IsOrderlyRun(world, states, steps)
    requires Orderly(states[|steps|], step) && Next(world, states[|steps|], s', step)
    ensures IsOrderlyRun(world, states + [s'], steps + [step])
  {
    var longer, more := states + [s'], steps + [step];
    forall i | 0 <= i < |more| ensures Next(world, longer[i], longer[i + 1], more[i]) && Orderly(longer[i], more[i]) {
      if i < |steps| {
        assert longer[i] == states[i] && longer[i + 1] == states[i + 1] && more[i] == steps[i];
      }
    }
  }

  lemma ResumedCursorsAreOneWindowBack(world: World, s: System, restarted: System)
    requires RestartStep(world, s, restarted, s.journal)
    requires s.document.value.cursors.Keys == AddressSet(world.addresses)
    requires forall x :: x in s.document.value.cursors ==> s.document.value.cursors[x] >= s.highWater
    ensures AddressSet(world.addresses) <= restarted.progress.cursors.Keys
    ensures forall x :: x in restarted.progress.cursors ==>
              restarted.progress.cursors[x] >= SaturatingSub(restarted.highWater, world.window)
    ensures forall t :: Emitted(s, t) ==> Sent(restarted, t)
  {
  }

  /** Where every cursor on disk stands at the high-water mark, all that was recorded
      within the checkpoint's reach, and not exposed, is in the journal or about to be. */
  lemma ReachIsRetainedAtTheHighWater(world: World, states: seq<System>, steps: seq<Step>, t: Signature, x: Address)
    requires IsOrderlyRun(world, states, steps)
    requires var s := states[|steps|];
             && s.document.Some? && x in s.document.value.cursors && s.document.value.cursors[x] >= s.highWater
             && Emitted(s, t) && t !in s.exposed
             && t in world.ledger && world.ledger[t].slot > UnreachableBelow(s.document.value.cursors[x], world.window)
    ensures Journalled(states[|steps|], t)
  {
    OrderlyRunsKeepOnce(world, states, steps);
  }

  /** The first poll after a restart whose checkpoint stands at its own high-water mark,
      however far that poll gets, re-sends nothing recorded before but what was exposed. */
  lemma ResumingAtTheHighWaterSendsNothingTwice(
      world: World, states: seq<System>, steps: seq<Step>, restarted: System, s': System,
      a: Answers, contexts: map<Address, u64>, planned: seq<Update>, sent: seq<Update>, u: Update)
    requires IsOrderlyRun(world, states, steps)
    requires RestartStep(world, states[|steps|], restarted, states[|steps|].journal)
    requires Polls(world, restarted, s', a, contexts, planned, sent)
    requires var s := states[|steps|];
             && s.document.value.cursors.Keys == AddressSet(world.addresses)
             && forall x :: x in s.document.value.cursors ==> s.document.value.cursors[x] >= s.highWater
    requires u in sent && Emitted(states[|steps|], u.signature)
    ensures u.signature in restarted.exposed
  {
    var s := states[|steps|];
    OrderlyRunContinues(world, states, steps, restarted, Restart(s.journal));
    ResumedCursorsAreOneWindowBack(world, s, restarted);
    NothingIsSentAgainNearTheHighWater(
      world, states + [restarted], steps + [Restart(s.journal)], s', a, contexts, planned, sent, u);
  }

  /** One poll rewinds a cursor by at most one window, so a single lagging answer after
      reaching the high-water mark re-sends nothing either. */
  lemma PollsRewindAtMostOneWindow(
      world: World, pre: Progress, post: Progress, a: Answers, contexts: map<Address, u64>, sent: seq<Update>, x: Address)
    requires DistinctMonitored(world)
    requires PollSucceeds(world.window, world.addresses, pre, post, a, sent)
    requires Faithful(world, pre, a, contexts)
    requires x in pre.cursors
    ensures x in post.cursors && post.cursors[x] >= SaturatingSub(pre.cursors[x], world.window)
  {
    var cursors := Initialized(pre.cursors, AddressSet(world.addresses), a.head, world.window);
    BatchesAreDistinct(world, a);
    AdvancedPointwise(cursors, a.batches, Retrying(pre.poison, a.outcomes), x);
    forall b | b in a.batches && b.address == x ensures b.nextCursor >= SaturatingSub(pre.cursors[x], world.window) {
      assert FaithfulBatch(world, cursors, a.head, b, contexts[x]);
      NextCursorRewindsAtMostOneWindow(a.head, Newest(b.signatures), pre.cursors[x], world.window);
    }
    if forall b :: b in a.batches ==> b.address != x {
      assert post.cursors[x] == cursors[x];
    } else {
      var b :| b in a.batches && b.address == x;
    }
  }
}
