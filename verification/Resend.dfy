/** When a restart sends a recorded transaction again: exactly what decides it, and a
    run of every deployment in which it happens. */
module Resend {
  import opened Primitives
  import opened Signatures
  import opened Progress
  import opened PollSpec
  import opened Protocol
  import opened NoLoss
  import opened AtMostOnce

  // ---------------------------------------------------------------------------
  // The exact condition
  // ---------------------------------------------------------------------------

  /** The first poll after a restart lists `t` for `x`: above two windows behind the
      checkpoint's cursor, and known to the replica that answered. */
  ghost predicate ReachedFrom(world: World, document: Snapshot, contexts: map<Address, u64>, t: Signature, x: Address) {
    && x in AddressSet(world.addresses) && x in contexts && x in document.cursors
    && Touches(world, t, x)
    && UnreachableBelow(document.cursors[x], world.window) < world.ledger[t].slot <= contexts[x]
  }

  /** A fetch of the first poll that must be tried again: it failed, though not in a
      conversion of a transaction already quarantined. */
  predicate HoldsBack(document: Snapshot, a: Answers, r: Signature) {
    && r in a.outcomes && !OutcomeOf(a.outcomes[r]).Succeeded?
    && !(OutcomeOf(a.outcomes[r]).Poisoned? && r in document.quarantined)
  }

  /** What the checkpoint and the world decide about `t`. */
  ghost predicate IsSentFirst(
    world: World, document: Snapshot, restored: map<Signature, u64>, a: Answers, contexts: map<Address, u64>, t: Signature)
  {
    && t !in document.recent && t !in restored
    && (exists x :: ReachedFrom(world, document, contexts, t, x))
    && t in a.outcomes && OutcomeOf(a.outcomes[t]).Succeeded?
    && (forall x, r :: ReachedFrom(world, document, contexts, t, x) && ReachedFrom(world, document, contexts, r, x) ==>
          !HoldsBack(document, a, r))
  }

  /** Faithful answers to a poll that started from the checkpoint's rewound cursors. */
  ghost predicate Answered(world: World, document: Snapshot, pre: Progress, a: Answers, contexts: map<Address, u64>) {
    && document.cursors.Keys == AddressSet(world.addresses)
    && pre.cursors == (map x | x in document.cursors :: SaturatingSub(document.cursors[x], world.window))
    && |a.batches| == |world.addresses|
    && (forall i :: 0 <= i < |world.addresses| ==> a.batches[i].address == world.addresses[i])
    && (forall b :: b in a.batches ==>
          b.address in contexts && FaithfulBatch(world, pre.cursors, a.head, b, contexts[b.address]))
  }

  lemma FirstPollIsAnswered(
      world: World, document: Snapshot, restored: map<Signature, u64>, pre: Progress, a: Answers, contexts: map<Address, u64>)
    requires document.cursors.Keys == AddressSet(world.addresses)
    requires pre == Resumed(world.window, document, restored)
    requires Asked(world.addresses, pre.recent, a) && Faithful(world, pre, a, contexts)
    ensures Answered(world, document, pre, a, contexts)
  {
    ResumedNeedsNoCursor(world, document, pre, a.head);
  }

  lemma RetryingHoldsBack(world: World, document: Snapshot, restored: map<Signature, u64>, a: Answers, r: Signature)
    ensures r in Retrying(Resumed(world.window, document, restored).poison, a.outcomes) <==> HoldsBack(document, a, r)
  {
  }

  lemma SendableIffSentFirst(
      world: World, document: Snapshot, restored: map<Signature, u64>, pre: Progress, a: Answers, contexts: map<Address, u64>, t: Signature)
    requires pre == Resumed(world.window, document, restored)
    requires Answered(world, document, pre, a, contexts)
    requires a.outcomes.Keys == Listed(a.batches) - pre.recent.Keys
    ensures Sendable(pre.poison, a, t) <==> IsSentFirst(world, document, restored, a, contexts, t)
  {
    forall r ensures r in Retrying(pre.poison, a.outcomes) <==> HoldsBack(document, a, r) {
      RetryingHoldsBack(world, document, restored, a, r);
    }
    ListedIffReached(world, document, pre, a, contexts, t);
    UnblockedIffNothingShared(world, document, pre, a, contexts, t);
  }

  /** The first poll after a restart sends a transaction if and only if neither the
      checkpoint nor the journal suppresses it, some address still reaches it, it is
      fetched and converts, and nothing to be tried again shares an address with it,
      whether or not it was recorded before. */
  lemma FirstPollSendsExactly(
      world: World, s: System, restored: map<Signature, u64>, restarted: System, s': System,
      a: Answers, contexts: map<Address, u64>, sent: seq<Update>, t: Signature)
    requires RestartStep(world, s, restarted, restored)
    requires s.document.value.cursors.Keys == AddressSet(world.addresses)
    requires PollOkStep(world, restarted, s', a, contexts, sent)
    ensures (exists u :: u in sent && u.signature == t) <==> IsSentFirst(world, s.document.value, restored, a, contexts, t)
  {
    var pre := restarted.progress;
    NothingToAbsorb(pre);
    FirstPollIsAnswered(world, s.document.value, restored, pre, a, contexts);
    SendableIffSentFirst(world, s.document.value, restored, pre, a, contexts, t);
    assert (exists u :: u in sent && u.signature == t) <==> Sendable(pre.poison, a, t);
  }

  /** An interrupted first poll sends no other transactions. */
  lemma InterruptedFirstPollSendsNoOthers(
      world: World, s: System, restored: map<Signature, u64>, restarted: System, s': System,
      a: Answers, contexts: map<Address, u64>, planned: seq<Update>, sent: seq<Update>, u: Update)
    requires RestartStep(world, s, restarted, restored)
    requires s.document.value.cursors.Keys == AddressSet(world.addresses)
    requires PollErrStep(world, restarted, s', a, contexts, planned, sent)
    requires u in sent
    ensures IsSentFirst(world, s.document.value, restored, a, contexts, u.signature)
  {
    var pre := restarted.progress;
    PollSendsWhatItPlanned(world, restarted, s', a, contexts, planned, sent);
    FirstPollIsAnswered(world, s.document.value, restored, pre, a, contexts);
    SendableIffSentFirst(world, s.document.value, restored, pre, a, contexts, u.signature);
  }

  /** What the loaded checkpoint holds, or the journal restored with it, is not sent by
      the first poll, however far that poll gets. */
  lemma PresentIsNotSent(
      world: World, s: System, restored: map<Signature, u64>, restarted: System, s': System,
      a: Answers, contexts: map<Address, u64>, planned: seq<Update>, sent: seq<Update>, u: Update)
    requires RestartStep(world, s, restarted, restored)
    requires s.document.value.cursors.Keys == AddressSet(world.addresses)
    requires Polls(world, restarted, s', a, contexts, planned, sent)
    requires u in sent
    ensures u.signature !in s.document.value.recent && u.signature !in restored
  {
    if PollErrStep(world, restarted, s', a, contexts, planned, sent) {
      InterruptedFirstPollSendsNoOthers(world, s, restored, restarted, s', a, contexts, planned, sent, u);
    } else {
      FirstPollSendsExactly(world, s, restored, restarted, s', a, contexts, sent, u.signature);
    }
  }

  lemma ResumedNeedsNoCursor(world: World, document: Snapshot, pre: Progress, head: u64)
    requires document.cursors.Keys == AddressSet(world.addresses)
    requires pre.cursors == map x | x in document.cursors :: SaturatingSub(document.cursors[x], world.window)
    ensures Initialized(pre.cursors, AddressSet(world.addresses), head, world.window) == pre.cursors
  {
  }

  /** No address that lists `t` is blocked, exactly if none of them reaches a
      transaction to be tried again. */
  lemma UnblockedIffNothingShared(
      world: World, document: Snapshot, pre: Progress, a: Answers, contexts: map<Address, u64>, t: Signature)
    requires Answered(world, document, pre, a, contexts)
    requires forall r :: r in Retrying(pre.poison, a.outcomes) <==> HoldsBack(document, a, r)
    ensures ListedBy(a.batches, t) !! Blocked(a.batches, Retrying(pre.poison, a.outcomes)) <==>
              forall x, r :: ReachedFrom(world, document, contexts, t, x) && ReachedFrom(world, document, contexts, r, x) ==>
                !HoldsBack(document, a, r)
  {
    var retrying := Retrying(pre.poison, a.outcomes);
    forall x ensures x in ListedBy(a.batches, t) <==> ReachedFrom(world, document, contexts, t, x) {
      ListedByIffReached(world, document, pre, a, contexts, t, x);
    }
    forall x ensures x in Blocked(a.batches, retrying) <==> exists r :: HoldsBack(document, a, r) && ReachedFrom(world, document, contexts, r, x) {
      BlockedIffReached(world, document, pre, a, contexts, retrying, x);
      if x in Blocked(a.batches, retrying) {
        var r :| r in retrying && ReachedFrom(world, document, contexts, r, x);
        assert HoldsBack(document, a, r);
      }
    }
  }

  lemma ListedByIffReached(
      world: World, document: Snapshot, pre: Progress, a: Answers, contexts: map<Address, u64>, t: Signature, x: Address)
    requires Answered(world, document, pre, a, contexts)
    ensures x in ListedBy(a.batches, t) <==> ReachedFrom(world, document, contexts, t, x)
  {
    forall b | b in a.batches ensures Lists(b, t) <==> ReachedFrom(world, document, contexts, t, b.address) {
      BatchListsWhatIsReached(world, document, pre.cursors, a.head, b, contexts, t);
    }
    if ReachedFrom(world, document, contexts, t, x) {
      var batch := BatchOfAddress(world, a, x);
      assert Lists(batch, t);
    }
  }

  lemma BlockedIffReached(
      world: World, document: Snapshot, pre: Progress, a: Answers, contexts: map<Address, u64>, retrying: set<Signature>, x: Address)
    requires Answered(world, document, pre, a, contexts)
    ensures x in Blocked(a.batches, retrying) <==> exists r :: r in retrying && ReachedFrom(world, document, contexts, r, x)
  {
    if x in Blocked(a.batches, retrying) {
      var b :| b in a.batches && HoldsRetry(b, retrying) && b.address == x;
      var d :| d in b.signatures && d.signature in retrying;
      assert Lists(b, d.signature);
      BatchListsWhatIsReached(world, document, pre.cursors, a.head, b, contexts, d.signature);
    }
    if r :| r in retrying && ReachedFrom(world, document, contexts, r, x) {
      var b := BatchOfAddress(world, a, x);
      BatchListsWhatIsReached(world, document, pre.cursors, a.head, b, contexts, r);
      var d :| d in b.signatures && d.signature == r;
      assert HoldsRetry(b, retrying);
    }
  }

  /** One address: a faithful batch lists `t` if and only if the checkpoint reaches it. */
  lemma BatchListsWhatIsReached(
      world: World, document: Snapshot, cursors: map<Address, u64>, head: u64, batch: AddressBatch, contexts: map<Address, u64>, t: Signature)
    requires document.cursors.Keys == AddressSet(world.addresses)
    requires cursors == map x | x in document.cursors :: SaturatingSub(document.cursors[x], world.window)
    requires batch.address in contexts
    requires FaithfulBatch(world, cursors, head, batch, contexts[batch.address])
    ensures Lists(batch, t) <==> ReachedFrom(world, document, contexts, t, batch.address)
  {
    assert Floor(cursors[batch.address], world.window) == UnreachableBelow(document.cursors[batch.address], world.window);
  }

  lemma ListedIffReached(
      world: World, document: Snapshot, pre: Progress, a: Answers, contexts: map<Address, u64>, t: Signature)
    requires Answered(world, document, pre, a, contexts)
    ensures t in Listed(a.batches) <==> exists x :: ReachedFrom(world, document, contexts, t, x)
  {
    forall b | b in a.batches
      ensures Lists(b, t) <==> ReachedFrom(world, document, contexts, t, b.address)
    {
      BatchListsWhatIsReached(world, document, pre.cursors, a.head, b, contexts, t);
    }
    ListedIsListedBySome(a.batches, t);
    if x :| ReachedFrom(world, document, contexts, t, x) {
      var batch := BatchOfAddress(world, a, x);
      assert Lists(batch, t);
    }
  }

  lemma ListedIsListedBySome(batches: seq<AddressBatch>, t: Signature)
    ensures t in Listed(batches) <==> exists b :: b in batches && Lists(b, t)
  {
    if t in Listed(batches) {
      var b, d :| b in batches && d in b.signatures && d.signature == t;
      assert Lists(b, t);
    }
  }

  // ---------------------------------------------------------------------------
  // Two restarts with no poll between them
  // ---------------------------------------------------------------------------

  const ADDRESS: Address := "program"
  const RECORDED: Signature := Signature(0)

  /** One transaction at one address, at slot 19 W. */
  function QuietWorld(w: Window): World {
    World(map[RECORDED := LedgerEntry(19 * w, {ADDRESS})], [ADDRESS], w)
  }

  function OnlyUpdate(w: Window): Update {
    Update(RECORDED, 19 * w)
  }

  function Cursor(slot: u64): map<Address, u64> {
    map[ADDRESS := slot]
  }

  function AnswersAt(head: u64, batch: AddressBatch, outcomes: map<Signature, FetchOutcome>): Answers {
    Answers(head, [batch], outcomes)
  }

  /** The endpoint lists the transaction and serves it. */
  function Listing(head: u64, w: Window): Answers {
    AnswersAt(head, AddressBatch(ADDRESS, [Discovered(RECORDED, 19 * w)], head, true),
              map[RECORDED := Fetched(19 * w, true)])
  }

  /** Nothing above the floor. */
  function Silence(head: u64): Answers {
    AnswersAt(head, AddressBatch(ADDRESS, [], head, true), map[])
  }

  lemma OneCursorIsMinimal(slot: u64, otherwise: u64)
    ensures MinimumCursor(Cursor(slot), otherwise) == slot
  {
    assert ADDRESS in Cursor(slot);
  }

  lemma OneMonitored(w: Window)
    ensures AddressSet(QuietWorld(w).addresses) == {ADDRESS}
  {
    assert AddressSet([ADDRESS]) == {ADDRESS};
  }

  lemma OneBatch(b: AddressBatch, t: Signature)
    ensures Listed([b]) == set d | d in b.signatures :: d.signature
    ensures ConsistentSlots([b]) <==> forall d, e :: d in b.signatures && e in b.signatures && d.signature == e.signature ==> d == e
  {
    assert b in [b];
    assert forall c :: c in [b] ==> c == b;
    forall d, e | d in b.signatures && e in b.signatures && d.signature == e.signature && ConsistentSlots([b])
      ensures d == e
    {
      assert Discovered(d.signature, d.slot) == d && Discovered(d.signature, e.slot) == e;
      assert ListedAt([b], d.signature, d.slot) && ListedAt([b], d.signature, e.slot);
    }
  }

  lemma ListingIsFaithful(w: Window, pre: Progress, head: u64)
    requires 20 * w <= head <= 21 * w
    requires Initialized(pre.cursors, {ADDRESS}, head, w) == Cursor(19 * w)
    ensures Faithful(QuietWorld(w), pre, Listing(head, w), Cursor(head))
  {
    OneMonitored(w);
    var batch := Listing(head, w).batches[0];
    forall t ensures Lists(batch, t) <==> t == RECORDED {
      assert batch.signatures[0].signature == RECORDED;
    }
    assert Floor(19 * w, w) == 18 * w;
  }

  lemma ListingIsAsked(w: Window, head: u64)
    ensures Asked([ADDRESS], map[], Listing(head, w))
  {
    var a := Listing(head, w);
    OneBatch(a.batches[0], RECORDED);
    assert a.outcomes.Keys == {RECORDED};
  }

  lemma ListingConverts(w: Window, head: u64)
    ensures Retrying(map[], Listing(head, w).outcomes) == {}
    ensures Judged(map[], Listing(head, w).outcomes) == map[]
    ensures Planned(map[], Listing(head, w), [OnlyUpdate(w)])
    ensures Advanced(Cursor(19 * w), Listing(head, w).batches, {}) == Cursor(head)
  {
    var a := Listing(head, w);
    NothingIsBlocked(a, map[]);
    forall s ensures Sendable(map[], a, s) <==> s == RECORDED {
    }
    assert OnlyUpdate(w) in [OnlyUpdate(w)];
    assert a.batches[..0] == [];
  }

  lemma ListingIsRemembered(w: Window, head: u64, cursors: map<Address, u64>)
    ensures Listing(head, w).outcomes.Keys <= Listed(Listing(head, w).batches)
    ensures Remembered(Progress(cursors, map[], map[]), Listing(head, w), [OnlyUpdate(w)]) == map[RECORDED := 19 * w]
  {
    ListingIsAsked(w, head);
    var a := Listing(head, w);
    assert GivenUp(map[], a.batches, a.outcomes) == map[];
    assert [OnlyUpdate(w)][..0] == [];
    var nothing: map<Signature, u64> := map[];
    assert nothing + map[] == nothing;
    assert Recorded(nothing, [OnlyUpdate(w)]) == map[RECORDED := 19 * w];
  }

  function AfterListing(w: Window, head: u64): Progress {
    Progress(Cursor(head), Retained(map[RECORDED := 19 * w], UnreachableBelow(head, w)), map[])
  }

  lemma ListingPollSucceeds(w: Window, cursors: map<Address, u64>, head: u64)
    requires 20 * w <= head <= 21 * w
    requires Initialized(cursors, {ADDRESS}, head, w) == Cursor(19 * w)
    requires !CursorAheadOfHead(cursors, head, w)
    ensures PollSucceeds(QuietWorld(w).window, QuietWorld(w).addresses, Progress(cursors, map[], map[]), AfterListing(w, head), Listing(head, w), [OnlyUpdate(w)])
  {
    OneMonitored(w);
    OneCursorIsMinimal(head, head);
    ListingIsAsked(w, head);
    ListingConverts(w, head);
    ListingIsRemembered(w, head, cursors);
  }

  lemma PollIsAStep(world: World, s: System, post: Progress, a: Answers, contexts: map<Address, u64>, sent: seq<Update>, slot: u64)
    returns (s': System)
    requires !s.parked && s.pending == []
    requires PollSucceeds(world.window, world.addresses, s.progress, post, a, sent)
    requires Faithful(world, s.progress, a, contexts)
    requires MinimumCursor(post.cursors, a.head) == slot
    ensures Next(world, s, s', PollOk(a, contexts, sent))
    ensures s' == s.(progress := post, queue := s.queue + sent, scope := s'.scope, highWater := Max(s.highWater, slot))
  {
    NothingToAbsorb(s.progress);
    s' := s.(progress := post, pending := [], queue := s.queue + sent, scope := ScopeAfter(world, s, a.head),
             highWater := Max(s.highWater, slot));
  }

  lemma StartsOneWindowBack(w: Window, cursors: map<Address, u64>, head: u64)
    requires cursors == Cursor(19 * w) || (cursors == map[] && head == 20 * w)
    requires head >= 20 * w
    ensures Initialized(cursors, {ADDRESS}, head, w) == Cursor(19 * w)
    ensures !CursorAheadOfHead(cursors, head, w)
  {
  }

  /** A poll from a cursor at 19 W, or from none, finds the transaction above its floor
      and sends it. */
  lemma ListingPollSends(w: Window, s: System, head: u64) returns (s': System)
    requires !s.parked && s.pending == [] && s.queue == []
    requires 20 * w <= head <= 21 * w
    requires s.progress == Progress(s.progress.cursors, map[], map[])
    requires s.progress.cursors == Cursor(19 * w) || (s.progress.cursors == map[] && head == 20 * w)
    ensures Next(QuietWorld(w), s, s', PollOk(Listing(head, w), Cursor(head), [OnlyUpdate(w)]))
    ensures s' == s.(progress := AfterListing(w, head), queue := [OnlyUpdate(w)], scope := s'.scope,
                     highWater := Max(s.highWater, head))
  {
    var cursors := s.progress.cursors;
    OneCursorIsMinimal(head, head);
    StartsOneWindowBack(w, cursors, head);
    ListingIsFaithful(w, s.progress, head);
    ListingPollSucceeds(w, cursors, head);
    s' := PollIsAStep(QuietWorld(w), s, AfterListing(w, head), Listing(head, w), Cursor(head), [OnlyUpdate(w)], head);
    assert [] + [OnlyUpdate(w)] == [OnlyUpdate(w)];
  }

  lemma SilenceIsFaithful(w: Window, pre: Progress)
    requires pre.cursors == Cursor(20 * w)
    ensures Faithful(QuietWorld(w), pre, Silence(21 * w), Cursor(21 * w))
  {
    OneMonitored(w);
    assert Initialized(Cursor(20 * w), {ADDRESS}, 21 * w, w) == Cursor(20 * w);
    assert Floor(20 * w, w) == 19 * w;
    assert forall t :: !Lists(Silence(21 * w).batches[0], t);
  }

  lemma SilenceAdvances(w: Window)
    ensures var a := Silence(21 * w);
            && Retrying(map[], a.outcomes) == {} && Judged(map[], a.outcomes) == map[]
            && Initialized(Cursor(20 * w), {ADDRESS}, 21 * w, w) == Cursor(20 * w)
            && Advanced(Cursor(20 * w), a.batches, {}) == Cursor(21 * w)
  {
    assert Silence(21 * w).batches[..0] == [];
  }

  lemma SilenceIsForgotten(w: Window)
    ensures var a, recent := Silence(21 * w), map[RECORDED := 19 * w];
            && a.outcomes.Keys == Listed(a.batches) - recent.Keys
            && Retained(Remembered(Progress(Cursor(20 * w), recent, map[]), a, []), UnreachableBelow(21 * w, w)) == map[]
  {
    var a, recent := Silence(21 * w), map[RECORDED := 19 * w];
    OneBatch(a.batches[0], RECORDED);
    assert recent + GivenUp(map[], a.batches, a.outcomes) == recent;
  }

  lemma SilentPollForgets(w: Window)
    ensures PollSucceeds(QuietWorld(w).window, QuietWorld(w).addresses, Progress(Cursor(20 * w), map[RECORDED := 19 * w], map[]),
                         Progress(Cursor(21 * w), map[], map[]), Silence(21 * w), [])
  {
    OneMonitored(w);
    OneCursorIsMinimal(21 * w, 21 * w);
    OneBatch(Silence(21 * w).batches[0], RECORDED);
    SilenceAdvances(w);
    SilenceIsForgotten(w);
  }

  /** The poll after it moves the cursor on and forgets the recorded transaction. */
  lemma SilentPollMovesOn(w: Window, s: System) returns (s': System)
    requires !s.parked && s.pending == [] && s.queue == []
    requires s.progress == Progress(Cursor(20 * w), map[RECORDED := 19 * w], map[])
    ensures Next(QuietWorld(w), s, s', PollOk(Silence(21 * w), Cursor(21 * w), []))
    ensures s' == s.(progress := Progress(Cursor(21 * w), map[], map[]), scope := s'.scope,
                     highWater := Max(s.highWater, 21 * w))
  {
    SilenceIsFaithful(w, s.progress);
    SilentPollForgets(w);
    OneCursorIsMinimal(21 * w, 21 * w);
    s' := PollIsAStep(QuietWorld(w), s, Progress(Cursor(21 * w), map[], map[]), Silence(21 * w), Cursor(21 * w), [], 21 * w);
  }

  // ---------------------------------------------------------------------------
  // The whole run
  // ---------------------------------------------------------------------------

  /** A run so far. */
  datatype History = History(states: seq<System>, steps: seq<Step>)

  ghost predicate Orderly(w: Window, h: History) {
    IsOrderlyRun(QuietWorld(w), h.states, h.steps)
  }

  function Last(h: History): System
    requires |h.states| == |h.steps| + 1
  {
    h.states[|h.steps|]
  }

  lemma Extend(w: Window, h: History, s: System, step: Step) returns (longer: History)
    requires Orderly(w, h)
    requires AtMostOnce.Orderly(Last(h), step) && Next(QuietWorld(w), Last(h), s, step)
    ensures Orderly(w, longer) && Last(longer) == s
  {
    OrderlyRunContinues(QuietWorld(w), h.states, h.steps, s, step);
    longer := History(h.states + [s], h.steps + [step]);
  }

  /** The pipeline records the queued transaction. */
  lemma RecordQueued(w: Window, h: History) returns (longer: History)
    requires Orderly(w, h)
    requires Last(h).queue == [OnlyUpdate(w)] && Last(h).inflight == multiset{}
    ensures Orderly(w, longer)
    ensures Last(longer) == Last(h).(queue := [], received := Last(h).received + 1,
              emissions := Last(h).emissions + multiset{RECORDED}, logged := Last(h).logged + multiset{OnlyUpdate(w)})
  {
    var u := OnlyUpdate(w);
    assert [u][1..] == [];
    var s := Last(h).(queue := [], inflight := multiset{u}, received := Last(h).received + 1);
    assert Next(QuietWorld(w), Last(h), s, Dequeue);
    longer := Extend(w, h, s, Dequeue);
    s := s.(inflight := multiset{}, logged := s.logged + multiset{u}, emissions := s.emissions + multiset{RECORDED});
    assert Next(QuietWorld(w), Last(longer), s, Emit(u));
    longer := Extend(w, longer, s, Emit(u));
  }

  lemma JournalQueued(w: Window, h: History) returns (longer: History)
    requires Orderly(w, h)
    requires Last(h).logged == multiset{OnlyUpdate(w)} && Last(h).journal == map[]
    ensures Orderly(w, longer)
    ensures Last(longer) == Last(h).(logged := multiset{}, finished := Last(h).finished + 1, journal := map[RECORDED := 19 * w])
  {
    var u := OnlyUpdate(w);
    assert map[][RECORDED := 19 * w] == map[RECORDED := 19 * w];
    var s := Last(h).(logged := multiset{}, finished := Last(h).finished + 1, journal := map[RECORDED := 19 * w]);
    longer := Extend(w, h, s, Step.Journal(u));
  }

  lemma SaveAndCompact(w: Window, h: History) returns (longer: History)
    requires Orderly(w, h)
    requires var s := Last(h);
             && !s.parked && Drained(s) && s.progress == Progress(Cursor(21 * w), map[], map[])
             && s.journal == map[RECORDED := 19 * w] && s.highWater == 21 * w
    ensures Orderly(w, longer)
    ensures var snapshot := Snapshot(Cursor(21 * w), map[], {});
            Last(longer) == Last(h).(processed := snapshot, document := Some(snapshot), journal := map[])
  {
    var snapshot := Snapshot(Cursor(21 * w), map[], {});
    OneMonitored(w);
    OneCursorIsMinimal(21 * w, 0);
    assert Seen(Last(h).progress) == snapshot;
    longer := Extend(w, h, Last(h).(processed := snapshot), TakeSnapshot);
    longer := Extend(w, longer, Last(longer).(document := Some(snapshot)), Save);
    assert Retained(map[RECORDED := 19 * w], UnreachableBelow(21 * w, w)) == map[];
    longer := Extend(w, longer, Last(longer).(journal := map[]), Compact);
  }

  /** A crash and a restart over an empty journal, the pipeline being idle. */
  lemma RestartFrom(w: Window, h: History, slot: u64) returns (longer: History)
    requires Orderly(w, h)
    requires Last(h).document == Some(Snapshot(Cursor(slot), map[], {})) && Last(h).journal == map[]
    requires Last(h).logged == multiset{}
    ensures Orderly(w, longer)
    ensures var progress := Progress(Cursor(SaturatingSub(slot, w)), map[], map[]);
            Last(longer) == System(progress, Seen(progress), [], [], [], multiset{}, multiset{}, 0, 0, false,
                                   Last(h).document, map[], Last(h).emissions, Last(h).scope, Last(h).highWater, Last(h).exposed)
  {
    var progress := Progress(Cursor(SaturatingSub(slot, w)), map[], map[]);
    assert Resumed(w, Last(h).document.value, map[]) == progress;
    assert SignaturesIn(multiset{}) == {};
    assert Last(h).exposed + {} == Last(h).exposed;
    var s := System(progress, Seen(progress), [], [], [], multiset{}, multiset{}, 0, 0, false,
                    Last(h).document, map[], Last(h).emissions, Last(h).scope, Last(h).highWater, Last(h).exposed);
    longer := Extend(w, h, s, Restart(map[]));
  }

  lemma SaveResumed(w: Window, h: History) returns (longer: History)
    requires Orderly(w, h)
    requires !Last(h).parked && Last(h).processed.cursors.Keys == {ADDRESS}
    ensures Orderly(w, longer)
    ensures Last(longer) == Last(h).(document := Some(Last(h).processed))
  {
    OneMonitored(w);
    longer := Extend(w, h, Last(h).(document := Some(Last(h).processed)), Save);
  }

  lemma Begin(w: Window) returns (h: History)
    ensures Orderly(w, h) && Last(h) == START
  {
    h := History([START], []);
  }

  lemma ListFirst(w: Window) returns (h: History)
    ensures Orderly(w, h)
    ensures Last(h) == START.(progress := AfterListing(w, 20 * w), queue := [OnlyUpdate(w)], scope := Last(h).scope,
                              highWater := 20 * w)
  {
    h := Begin(w);
    var s := ListingPollSends(w, Last(h), 20 * w);
    h := Extend(w, h, s, PollOk(Listing(20 * w, w), Cursor(20 * w), [OnlyUpdate(w)]));
  }

  lemma RecordFirst(w: Window) returns (h: History)
    ensures Orderly(w, h)
    ensures Last(h) == START.(progress := Progress(Cursor(20 * w), map[RECORDED := 19 * w], map[]),
                              emissions := multiset{RECORDED}, journal := map[RECORDED := 19 * w],
                              received := 1, finished := 1, scope := Last(h).scope, highWater := 20 * w)
  {
    h := ListFirst(w);
    h := RecordQueued(w, h);
    h := JournalQueued(w, h);
    assert Retained(map[RECORDED := 19 * w], UnreachableBelow(20 * w, w)) == map[RECORDED := 19 * w];
  }

  /** The transaction is recorded, and one poll later nothing suppresses it. */
  lemma RecordThenForget(w: Window) returns (h: History)
    ensures Orderly(w, h)
    ensures var s := Last(h);
            && !s.parked && s.queue == [] && s.inflight == multiset{} && s.logged == multiset{}
            && s.emissions == multiset{RECORDED} && s.exposed == {}
            && s.document == Some(Snapshot(Cursor(21 * w), map[], {})) && s.journal == map[]
  {
    h := RecordFirst(w);
    var s := SilentPollMovesOn(w, Last(h));
    h := Extend(w, h, s, PollOk(Silence(21 * w), Cursor(21 * w), []));
    h := SaveAndCompact(w, h);
  }

  /** A restart that is saved again before it polls. */
  lemma Resave(w: Window, h: History, slot: u64) returns (longer: History)
    requires Orderly(w, h) && slot >= w
    requires Last(h).document == Some(Snapshot(Cursor(slot), map[], {})) && Last(h).journal == map[]
    requires Last(h).logged == multiset{}
    ensures Orderly(w, longer)
    ensures var s := Last(longer);
            && s.document == Some(Snapshot(Cursor(slot - w), map[], {})) && s.journal == map[]
            && s.queue == [] && s.inflight == multiset{} && s.logged == multiset{}
            && s.emissions == Last(h).emissions && s.exposed == Last(h).exposed
  {
    longer := RestartFrom(w, h, slot);
    assert Quarantined(map[]) == {};
    longer := SaveResumed(w, longer);
  }

  /** A transaction was recorded and the process is idle, yet neither the checkpoint on
      disk nor the journal holds the transaction, though a window of slots up to the
      checkpoint's cursor, or what a first poll reaches, covers it. */
  ghost predicate Forgotten(world: World, s: System, t: Signature, x: Address, reach: u64) {
    && s.emissions[t] == 1 && s.exposed == {}
    && s.queue == [] && s.inflight == multiset{} && s.logged == multiset{}
    && s.document.Some? && x in s.document.value.cursors && Touches(world, t, x)
    && SaturatingSub(s.document.value.cursors[x], reach) < world.ledger[t].slot <= s.document.value.cursors[x]
    && t !in s.document.value.recent && t !in s.journal
  }

  /** Saving a loaded checkpoint again keeps its rewound cursors but not the signatures
      that they uncover: the file of the first restart lacks one that its own reach of
      two windows covers, and that of a second restart lacks one within a single
      window. */
  lemma ResavedCheckpointsForget(w: Window) returns (once: History, twice: History)
    ensures IsOrderlyRun(QuietWorld(w), once.states, once.steps) && IsOrderlyRun(QuietWorld(w), twice.states, twice.steps)
    ensures Forgotten(QuietWorld(w), once.states[|once.steps|], RECORDED, ADDRESS, 2 * w)
    ensures Forgotten(QuietWorld(w), twice.states[|twice.steps|], RECORDED, ADDRESS, w)
  {
    var h := RecordThenForget(w);
    once := Resave(w, h, 21 * w);
    twice := Resave(w, once, 20 * w);
  }

  /** For every replay window: a run in RPC mode, with no damaged journal and nothing
      caught by a crash between its log lines and its journal line, that records one
      transaction twice. The second restart finds the cursor the first one saved
      already rewound, and rewinds it again, below what suppression still covers. */
  lemma RestartsCanRecordTwice(w: Window) returns (states: seq<System>, steps: seq<Step>)
    ensures IsOrderlyRun(QuietWorld(w), states, steps)
    ensures states[|steps|].emissions[RECORDED] == 2 && states[|steps|].exposed == {}
  {
    var h := RecordThenForget(w);
    h := Resave(w, h, 21 * w);
    h := RestartFrom(w, h, 20 * w);
    var s := ListingPollSends(w, Last(h), 21 * w);
    h := Extend(w, h, s, PollOk(Listing(21 * w, w), Cursor(21 * w), [OnlyUpdate(w)]));
    h := RecordQueued(w, h);
    return h.states, h.steps;
  }
}
