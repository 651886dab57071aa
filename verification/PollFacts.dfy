/** What a poll does, in the endpoint's own terms: its answers, the slots it lists and the
    head it names. Nothing here speaks of how the specification sorts answers, counts
    failures or picks cursors. */
module PollFacts {
  import opened Primitives
  import opened Signatures
  import opened Progress
  import opened PollSpec
  import opened Poller

  // ---------------------------------------------------------------------------
  // Answers
  // ---------------------------------------------------------------------------

  /** The poll judged its answers: it succeeded, or was interrupted amid its sends. */
  ghost predicate Judges(
    window: Window, addresses: seq<Address>, pre: Progress, post: Progress, a: Answers, planned: seq<Update>, sent: seq<Update>)
  {
    || (PollSucceeds(window, addresses, pre, post, a, sent) && planned == sent)
    || (PollFails(window, addresses, pre, post, a, planned, sent) && sent != [])
  }

  /** One more answer that no retry can mend; the fifth is the last. */
  function OneMore(known: Option<PoisonFailure>): PoisonFailure {
    match known
    case None => PoisonFailure(1, false)
    case Some(failure) =>
      if failure.quarantined then failure
      else PoisonFailure(if failure.attempts == MAX_U32 then MAX_U32 else failure.attempts + 1, failure.attempts + 1 >= 5)
  }

  lemma JudgingPollsJudge(
      window: Window, addresses: seq<Address>, pre: Progress, post: Progress, a: Answers, planned: seq<Update>, sent: seq<Update>)
    requires Judges(window, addresses, pre, post, a, planned, sent)
    ensures post.poison == Judged(pre.poison, a.outcomes)
  {
  }

  lemma JudgedRecord(poison: map<Signature, PoisonFailure>, outcomes: map<Signature, FetchOutcome>, s: Signature)
    ensures Lookup(Judged(poison, outcomes), s) == if s in outcomes then After(Lookup(poison, s), outcomes[s]) else Lookup(poison, s)
  {
  }

  /** What one answer does to a record: a conversion clears it, a timeout leaves it. */
  function After(known: Option<PoisonFailure>, answer: FetchOutcome): Option<PoisonFailure> {
    match answer
    case Fetched(_, true) => None
    case Fetched(_, false) => Some(OneMore(known))
    case FetchFailed(true) => Some(OneMore(known))
    case FetchFailed(false) => known
  }

  /** What the answers of a poll do to a transaction's record. */
  lemma AnswersMoveRecords(
      window: Window, addresses: seq<Address>, pre: Progress, post: Progress, a: Answers, planned: seq<Update>, sent: seq<Update>, s: Signature)
    requires Judges(window, addresses, pre, post, a, planned, sent)
    ensures Lookup(post.poison, s) ==
            if s in a.outcomes then After(Lookup(pre.poison, s), a.outcomes[s]) else Lookup(pre.poison, s)
  {
    JudgingPollsJudge(window, addresses, pre, post, a, planned, sent);
    JudgedRecord(pre.poison, a.outcomes, s);
  }

  /** The transaction must be fetched again: it timed out, or it failed for good, but not
      yet five times. */
  predicate Unsettled(post: Progress, a: Answers, s: Signature) {
    && s in a.outcomes
    && match a.outcomes[s]
       case Fetched(_, true) => false
       case FetchFailed(false) => true
       case _ => s !in post.poison || !post.poison[s].quarantined
  }

  lemma UnsettledIsRetrying(
      window: Window, addresses: seq<Address>, pre: Progress, post: Progress, a: Answers, planned: seq<Update>, sent: seq<Update>, s: Signature)
    requires Judges(window, addresses, pre, post, a, planned, sent)
    ensures s in Retrying(pre.poison, a.outcomes) <==> Unsettled(post, a, s)
  {
    JudgingPollsJudge(window, addresses, pre, post, a, planned, sent);
    RetryingIsUnsettled(pre.poison, post, a, s);
  }

  lemma RetryingIsUnsettled(poison: map<Signature, PoisonFailure>, post: Progress, a: Answers, s: Signature)
    requires post.poison == Judged(poison, a.outcomes)
    ensures s in Retrying(poison, a.outcomes) <==> Unsettled(post, a, s)
  {
  }

  ghost predicate Distinct(addresses: seq<Address>) {
    forall i, j :: 0 <= i < j < |addresses| ==> addresses[i] != addresses[j]
  }

  /** Where an address's cursor was when the poll listed it. */
  function Started(window: Window, pre: Progress, a: Answers, x: Address): u64 {
    if x in pre.cursors then pre.cursors[x] else SaturatingSub(a.head, window)
  }

  /** An address keeps its cursor if it listed a transaction to be fetched again, and
      otherwise takes the one its batch commits. */
  lemma CursorsMoveUnlessHeld(
      window: Window, addresses: seq<Address>, pre: Progress, post: Progress, a: Answers, sent: seq<Update>, b: AddressBatch)
    requires PollSucceeds(window, addresses, pre, post, a, sent) && Distinct(addresses)
    requires b in a.batches
    ensures b.address in post.cursors
    ensures post.cursors[b.address] ==
            if exists d :: d in b.signatures && Unsettled(post, a, d.signature) then Started(window, pre, a, b.address)
            else b.nextCursor
  {
    var retrying := Retrying(pre.poison, a.outcomes);
    forall d | d in b.signatures ensures d.signature in retrying <==> Unsettled(post, a, d.signature) {
      UnsettledIsRetrying(window, addresses, pre, post, a, sent, sent, d.signature);
    }
    var started := Initialized(pre.cursors, AddressSet(addresses), a.head, window);
    AdvancedPointwise(started, a.batches, retrying, b.address);
  }

  /** A timeout changes nothing: the record stays, the transaction is neither sent nor
      suppressed, and every address that listed it keeps its cursor. */
  lemma TimeoutsChangeNothing(
      window: Window, addresses: seq<Address>, pre: Progress, post: Progress, a: Answers, sent: seq<Update>, s: Signature)
    requires PollSucceeds(window, addresses, pre, post, a, sent) && Distinct(addresses)
    requires s in a.outcomes && a.outcomes[s] == FetchFailed(false)
    ensures s in post.poison <==> s in pre.poison
    ensures s in pre.poison ==> post.poison[s] == pre.poison[s]
    ensures s !in post.recent
    ensures forall u :: u in sent ==> u.signature != s
    ensures forall b, d :: b in a.batches && d in b.signatures && d.signature == s ==>
              b.address in post.cursors && post.cursors[b.address] == Started(window, pre, a, b.address)
  {
    AnswersMoveRecords(window, addresses, pre, post, a, sent, sent, s);
    RecordedKeys(pre.recent + GivenUp(pre.poison, a.batches, a.outcomes), sent);
    forall b, d | b in a.batches && d in b.signatures && d.signature == s
      ensures b.address in post.cursors && post.cursors[b.address] == Started(window, pre, a, b.address)
    {
      CursorsMoveUnlessHeld(window, addresses, pre, post, a, sent, b);
    }
  }

  /** Some address that listed `s` also listed a transaction to be fetched again. */
  ghost predicate WaitsForAnother(post: Progress, a: Answers, s: Signature) {
    exists b, d, e ::
      && b in a.batches && d in b.signatures && e in b.signatures
      && d.signature == s && Unsettled(post, a, e.signature)
  }

  lemma WaitingIsBlocked(batches: seq<AddressBatch>, retrying: set<Signature>, b: AddressBatch, d: Discovered, e: Discovered)
    requires b in batches && d in b.signatures && e in b.signatures && e.signature in retrying
    ensures !(ListedBy(batches, d.signature) !! Blocked(batches, retrying))
  {
    assert Lists(b, d.signature) && HoldsRetry(b, retrying);
    assert b.address in ListedBy(batches, d.signature) && b.address in Blocked(batches, retrying);
  }

  ghost predicate OnePerAddress(batches: seq<AddressBatch>) {
    forall b, c :: b in batches && c in batches && b.address == c.address ==> b == c
  }

  lemma BlockedIsWaiting(batches: seq<AddressBatch>, retrying: set<Signature>, s: Signature)
    returns (b: AddressBatch, d: Discovered, e: Discovered)
    requires OnePerAddress(batches)
    requires !(ListedBy(batches, s) !! Blocked(batches, retrying))
    ensures b in batches && d in b.signatures && e in b.signatures && d.signature == s && e.signature in retrying
  {
    var x :| x in ListedBy(batches, s) && x in Blocked(batches, retrying);
    b :| b in batches && Lists(b, s) && b.address == x;
    var c :| c in batches && HoldsRetry(c, retrying) && c.address == x;
    d :| d in b.signatures && d.signature == s;
    e :| e in c.signatures && e.signature in retrying;
  }

  lemma BlockedIffWaiting(
      window: Window, addresses: seq<Address>, pre: Progress, post: Progress, a: Answers, sent: seq<Update>, s: Signature)
    requires PollSucceeds(window, addresses, pre, post, a, sent) && Distinct(addresses)
    ensures ListedBy(a.batches, s) !! Blocked(a.batches, Retrying(pre.poison, a.outcomes)) <==> !WaitsForAnother(post, a, s)
  {
    var retrying := Retrying(pre.poison, a.outcomes);
    if WaitsForAnother(post, a, s) {
      var b, d, e :| b in a.batches && d in b.signatures && e in b.signatures && d.signature == s && Unsettled(post, a, e.signature);
      UnsettledIsRetrying(window, addresses, pre, post, a, sent, sent, e.signature);
      WaitingIsBlocked(a.batches, retrying, b, d, e);
    } else if !(ListedBy(a.batches, s) !! Blocked(a.batches, retrying)) {
      OneBatchEach(addresses, a.batches);
      var b, d, e := BlockedIsWaiting(a.batches, retrying, s);
      UnsettledIsRetrying(window, addresses, pre, post, a, sent, sent, e.signature);
    }
  }

  lemma OneBatchEach(addresses: seq<Address>, batches: seq<AddressBatch>)
    requires Distinct(addresses) && |batches| == |addresses|
    requires forall i :: 0 <= i < |addresses| ==> batches[i].address == addresses[i]
    ensures OnePerAddress(batches)
  {
    forall b, c | b in batches && c in batches && b.address == c.address ensures b == c {
      var i :| 0 <= i < |batches| && batches[i] == b;
      var j :| 0 <= j < |batches| && batches[j] == c;
    }
  }

  lemma PlannedExactly(poison: map<Signature, PoisonFailure>, a: Answers, planned: seq<Update>, u: Update)
    requires Planned(poison, a, planned)
    ensures u in planned <==>
              && u.signature in a.outcomes && a.outcomes[u.signature] == Fetched(u.slot, true)
              && ListedBy(a.batches, u.signature) !! Blocked(a.batches, Retrying(poison, a.outcomes))
    ensures forall i, j :: 0 <= i < j < |planned| ==> planned[i].slot <= planned[j].slot && planned[i].signature != planned[j].signature
  {
    if Sendable(poison, a, u.signature) {
      var v :| v in planned && v.signature == u.signature;
    }
  }

  lemma SentIsPlanned(
      window: Window, addresses: seq<Address>, pre: Progress, post: Progress, a: Answers, sent: seq<Update>)
    requires PollSucceeds(window, addresses, pre, post, a, sent)
    ensures Planned(pre.poison, a, sent)
  {
  }

  /** What a poll sends: every transaction that was fetched and converts, at the slot it
      was fetched with, unless an address that listed it also listed one to be fetched
      again; each once, the oldest slot first. */
  lemma SentExactly(
      window: Window, addresses: seq<Address>, pre: Progress, post: Progress, a: Answers, sent: seq<Update>, u: Update)
    requires PollSucceeds(window, addresses, pre, post, a, sent) && Distinct(addresses)
    ensures u in sent <==>
              && u.signature in a.outcomes && a.outcomes[u.signature] == Fetched(u.slot, true)
              && !WaitsForAnother(post, a, u.signature)
    ensures forall i, j :: 0 <= i < j < |sent| ==> sent[i].slot <= sent[j].slot && sent[i].signature != sent[j].signature
  {
    BlockedIffWaiting(window, addresses, pre, post, a, sent, u.signature);
    SentIsPlanned(window, addresses, pre, post, a, sent);
    PlannedExactly(pre.poison, a, sent, u);
  }

  // ---------------------------------------------------------------------------
  // What the stream delivered
  // ---------------------------------------------------------------------------

  /** Absorbing deliveries suppresses each of them, and touches nothing else. */
  lemma DeliveriesAreSuppressed(before: Progress, deliveries: seq<Update>, s: Signature)
    ensures Absorbed(before, deliveries).cursors == before.cursors && Absorbed(before, deliveries).poison == before.poison
    ensures s in Absorbed(before, deliveries).recent <==> s in before.recent || exists u :: u in deliveries && u.signature == s
    ensures s in Absorbed(before, deliveries).recent ==>
              || (s in before.recent && Absorbed(before, deliveries).recent[s] == before.recent[s])
              || Update(s, Absorbed(before, deliveries).recent[s]) in deliveries
  {
    RecordedKeys(before.recent, deliveries);
  }

  /** A poll asks for exactly what some address lists and nothing has suppressed, and so
      neither fetches nor sends what the stream delivered before it. */
  lemma DeliveredIsNotSentAgain(
      window: Window, addresses: seq<Address>, before: Progress, deliveries: seq<Update>, post: Progress, a: Answers, sent: seq<Update>,
      s: Signature)
    requires PollSucceeds(window, addresses, Absorbed(before, deliveries), post, a, sent)
    ensures s in a.outcomes <==>
              && (exists b, d :: b in a.batches && d in b.signatures && d.signature == s)
              && s !in before.recent && forall u :: u in deliveries ==> u.signature != s
    ensures (exists u :: u in deliveries && u.signature == s) ==> s !in a.outcomes && forall u :: u in sent ==> u.signature != s
  {
    DeliveriesAreSuppressed(before, deliveries, s);
  }

  // ---------------------------------------------------------------------------
  // Any number of polls
  // ---------------------------------------------------------------------------

  datatype Polling = Polling(pre: Progress, post: Progress, answers: Answers, planned: seq<Update>, sent: seq<Update>)

  /** Polls one after the other; nothing between them touches the failure records. */
  ghost predicate Follow(window: Window, addresses: seq<Address>, polls: seq<Polling>) {
    && (forall i :: 0 <= i < |polls| ==>
          var p := polls[i]; Judges(window, addresses, p.pre, p.post, p.answers, p.planned, p.sent))
    && (forall i :: 0 < i < |polls| ==> polls[i].pre.poison == polls[i - 1].post.poison)
  }

  /** Everything the polls were answered about `s`. */
  function AnswersFor(polls: seq<Polling>, s: Signature): seq<FetchOutcome> {
    if polls == [] then []
    else
      var n := |polls| - 1;
      AnswersFor(polls[..n], s) + if s in polls[n].answers.outcomes then [polls[n].answers.outcomes[s]] else []
  }

  /** Answers since the last conversion that no retry can mend. */
  function Failures(answers: seq<FetchOutcome>): nat {
    if answers == [] then 0
    else
      var n := |answers| - 1;
      match answers[n]
      case Fetched(_, true) => 0
      case Fetched(_, false) => Failures(answers[..n]) + 1
      case FetchFailed(true) => Failures(answers[..n]) + 1
      case FetchFailed(false) => Failures(answers[..n])
  }

  lemma FailuresOneMore(answers: seq<FetchOutcome>, answer: FetchOutcome)
    ensures Failures(answers + [answer]) ==
            match answer
            case Fetched(_, true) => 0
            case FetchFailed(false) => Failures(answers)
            case _ => Failures(answers) + 1
  {
    assert (answers + [answer])[..|answers|] == answers;
  }

  /** The record of so many failures. */
  function RecordOf(failures: nat): Option<PoisonFailure> {
    if failures == 0 then None else Some(PoisonFailure(Min(failures, 5), failures >= 5))
  }

  lemma OneAnswerMore(answers: seq<FetchOutcome>, answer: FetchOutcome)
    ensures After(RecordOf(Failures(answers)), answer) == RecordOf(Failures(answers + [answer]))
  {
    FailuresOneMore(answers, answer);
  }

  lemma OnePollMore(window: Window, addresses: seq<Address>, p: Polling, answers: seq<FetchOutcome>, s: Signature)
    requires Judges(window, addresses, p.pre, p.post, p.answers, p.planned, p.sent)
    requires Lookup(p.pre.poison, s) == RecordOf(Failures(answers))
    ensures Lookup(p.post.poison, s) ==
            RecordOf(Failures(answers + if s in p.answers.outcomes then [p.answers.outcomes[s]] else []))
  {
    AnswersMoveRecords(window, addresses, p.pre, p.post, p.answers, p.planned, p.sent, s);
    if s in p.answers.outcomes {
      OneAnswerMore(answers, p.answers.outcomes[s]);
    } else {
      assert answers + [] == answers;
    }
  }

  lemma {:induction false} RecordsCountFailures(window: Window, addresses: seq<Address>, polls: seq<Polling>, s: Signature)
    requires Follow(window, addresses, polls) && polls != []
    requires s !in polls[0].pre.poison
    ensures Lookup(polls[|polls| - 1].post.poison, s) == RecordOf(Failures(AnswersFor(polls, s)))
  {
    var n := |polls| - 1;
    if n > 0 {
      RecordsCountFailures(window, addresses, polls[..n], s);
    } else {
      assert AnswersFor(polls[..0], s) == [];
    }
    OnePollMore(window, addresses, polls[n], AnswersFor(polls[..n], s), s);
  }

  /** Over any number of polls, a transaction that had no record is quarantined exactly
      when, since it last converted, five answers were permanent failures or could not be
      converted; timeouts count for nothing. */
  lemma FiveBadAnswersQuarantine(window: Window, addresses: seq<Address>, polls: seq<Polling>, s: Signature)
    requires Follow(window, addresses, polls) && polls != []
    requires s !in polls[0].pre.poison
    ensures var n, poison := Failures(AnswersFor(polls, s)), polls[|polls| - 1].post.poison;
            && (s in poison <==> n > 0)
            && (s in poison ==> poison[s] == PoisonFailure(Min(n, 5), n >= 5))
  {
    RecordsCountFailures(window, addresses, polls, s);
  }

  lemma {:induction false} TimeoutsAreNoFailures(answers: seq<FetchOutcome>)
    requires forall i :: 0 <= i < |answers| ==> answers[i] == FetchFailed(false)
    ensures Failures(answers) == 0
  {
    if answers != [] {
      TimeoutsAreNoFailures(answers[..|answers| - 1]);
    }
  }

  /** So timeouts alone, however many, never quarantine. */
  lemma TimeoutsNeverQuarantine(window: Window, addresses: seq<Address>, polls: seq<Polling>, s: Signature)
    requires Follow(window, addresses, polls) && polls != []
    requires s !in polls[0].pre.poison
    requires forall i :: 0 <= i < |AnswersFor(polls, s)| ==> AnswersFor(polls, s)[i] == FetchFailed(false)
    ensures s !in polls[|polls| - 1].post.poison
  {
    TimeoutsAreNoFailures(AnswersFor(polls, s));
    FiveBadAnswersQuarantine(window, addresses, polls, s);
  }

  // ---------------------------------------------------------------------------
  // Cursors
  // ---------------------------------------------------------------------------

  /** What a whole poll commits for an address that listed nothing to be fetched again:
      at least the head and every slot listed, and at least the old cursor if nothing was;
      and one of these. */
  lemma PollsCommit(
      endpoint: Endpoint, window: Window, addresses: seq<Address>, pre: Progress, post: Progress, a: Answers, sent: seq<Update>, b: AddressBatch)
    requires PollSucceeds(window, addresses, pre, post, a, sent) && Distinct(addresses)
    requires AnsweredBy(endpoint, addresses, window, pre, a)
    requires b in a.batches && forall d :: d in b.signatures ==> !Unsettled(post, a, d.signature)
    ensures b.address in post.cursors && post.cursors[b.address] >= a.head
    ensures b.signatures == [] ==>
              && post.cursors[b.address] >= Started(window, pre, a, b.address)
              && post.cursors[b.address] in {a.head, Started(window, pre, a, b.address)}
    ensures b.signatures != [] ==> post.cursors[b.address] in {a.head, b.signatures[0].slot}
    ensures NewestFirst(endpoint.index(b.address).entries) ==>
              forall d :: d in b.signatures ==> post.cursors[b.address] >= d.slot
  {
    CursorsMoveUnlessHeld(window, addresses, pre, post, a, sent, b);
    var i :| 0 <= i < |a.batches| && a.batches[i] == b;
    WholeScansCommit(b, b.address, endpoint.index(b.address).entries, Started(window, pre, a, b.address), a.head, window);
  }

  // ---------------------------------------------------------------------------
  // Suppression
  // ---------------------------------------------------------------------------

  lemma ReachedBySomeIffByTheLowest(cursors: map<Address, u64>, minimum: u64, window: Window, slot: u64)
    requires IsMinimum(cursors, minimum)
    ensures slot > UnreachableBelow(minimum, window) <==> exists x :: x in cursors && slot > SaturatingSub(cursors[x], 2 * window)
  {
    var lowest :| lowest in cursors && cursors[lowest] == minimum;
    if slot > UnreachableBelow(minimum, window) {
      assert slot > SaturatingSub(cursors[lowest], 2 * window);
    }
  }

  /** What was suppressed or sent stays suppressed exactly while some address, restarted
      from its cursor, would list its slot again. */
  lemma SuppressedWhileReached(
      window: Window, addresses: seq<Address>, pre: Progress, post: Progress, a: Answers, sent: seq<Update>, s: Signature)
    requires PollSucceeds(window, addresses, pre, post, a, sent) && post.cursors != map[]
    requires s in pre.recent && s !in a.outcomes && forall u :: u in sent ==> u.signature != s
    ensures s in post.recent <==> exists x :: x in post.cursors && pre.recent[s] > SaturatingSub(post.cursors[x], 2 * window)
    ensures s in post.recent ==> post.recent[s] == pre.recent[s]
  {
    RecordedKeys(pre.recent + GivenUp(pre.poison, a.batches, a.outcomes), sent);
    ReachedBySomeIffByTheLowest(post.cursors, MinimumCursor(post.cursors, a.head), window, pre.recent[s]);
  }

  lemma SentIsSuppressedWhileReached(
      window: Window, addresses: seq<Address>, pre: Progress, post: Progress, a: Answers, sent: seq<Update>, u: Update)
    requires PollSucceeds(window, addresses, pre, post, a, sent) && post.cursors != map[]
    requires u in sent
    ensures u.signature in post.recent <==> exists x :: x in post.cursors && u.slot > SaturatingSub(post.cursors[x], 2 * window)
  {
    RecordedKeys(pre.recent + GivenUp(pre.poison, a.batches, a.outcomes), sent);
    ReachedBySomeIffByTheLowest(post.cursors, MinimumCursor(post.cursors, a.head), window, u.slot);
    SentSlot(pre.recent + GivenUp(pre.poison, a.batches, a.outcomes), sent, u);
  }

  /** So does what a poll gives up on. */
  lemma GivenUpIsSuppressedWhileReached(
      window: Window, addresses: seq<Address>, pre: Progress, post: Progress, a: Answers, sent: seq<Update>, b: AddressBatch, d: Discovered)
    requires PollSucceeds(window, addresses, pre, post, a, sent) && post.cursors != map[]
    requires b in a.batches && d in b.signatures && d.signature in a.outcomes
    requires a.outcomes[d.signature] == FetchFailed(true) || a.outcomes[d.signature] == Fetched(d.slot, false)
    requires d.signature in post.poison && post.poison[d.signature].quarantined
    ensures d.signature in post.recent <==> exists x :: x in post.cursors && d.slot > SaturatingSub(post.cursors[x], 2 * window)
  {
    var s := d.signature;
    UnsettledIsRetrying(window, addresses, pre, post, a, sent, sent, s);
    assert Discovered(s, d.slot) == d && ListedAt(a.batches, s, d.slot);
    assert s in GivenUp(pre.poison, a.batches, a.outcomes) && ListedSlot(a.batches, s) == d.slot;
    var before := pre.recent + GivenUp(pre.poison, a.batches, a.outcomes);
    assert forall u :: u in sent ==> u.signature != s;
    NotSentStays(before, sent, s);
    ReachedBySomeIffByTheLowest(post.cursors, MinimumCursor(post.cursors, a.head), window, d.slot);
  }

  lemma {:induction false} NotSentStays(recent: map<Signature, u64>, sent: seq<Update>, s: Signature)
    requires s in recent && forall u :: u in sent ==> u.signature != s
    ensures s in Recorded(recent, sent) && Recorded(recent, sent)[s] == recent[s]
  {
    if sent != [] {
      var n := |sent| - 1;
      assert sent[n] in sent;
      NotSentStays(recent, sent[..n], s);
    }
  }

  lemma {:induction false} SentSlot(recent: map<Signature, u64>, sent: seq<Update>, u: Update)
    requires OncePerSignature(sent) && u in sent
    ensures u.signature in Recorded(recent, sent) && Recorded(recent, sent)[u.signature] == u.slot
  {
    var n := |sent| - 1;
    if u != sent[n] {
      assert u in sent[..n];
      SentSlot(recent, sent[..n], u);
    }
  }
}
