/** What one poll does to the poller's progress, as a relation on values
    (rpc_polling.rs). The method in module Poller is proved against it, and the
    protocol theorems are proved about it. */
module PollSpec {
  import opened Primitives
  import opened Signatures
  import opened Progress

  /** The configured replay window; the bounds are the ones configuration enforces. */
  const MIN_RPC_REPLAY_WINDOW_SLOTS: u64 := 1
  const MAX_RPC_REPLAY_WINDOW_SLOTS: u64 := 100_000

  type Window = w: u64 | MIN_RPC_REPLAY_WINDOW_SLOTS <= w <= MAX_RPC_REPLAY_WINDOW_SLOTS
    witness MIN_RPC_REPLAY_WINDOW_SLOTS

  /** The answer to one transaction fetch: a transaction, which may or may not convert
      to an update, or an error, which may or may not be permanent. */
  datatype FetchOutcome =
    | Fetched(slot: u64, convertible: bool)
    | FetchFailed(permanent: bool)

  /** Everything the endpoint answered during one poll. */
  datatype Answers = Answers(
    head: u64,
    batches: seq<AddressBatch>,
    outcomes: map<Signature, FetchOutcome>)

  // ---------------------------------------------------------------------------
  // Cursors
  // ---------------------------------------------------------------------------

  predicate CursorAheadOfHead(cursors: map<Address, u64>, head: u64, window: Window) {
    exists a :: a in cursors && cursors[a] > SaturatingAdd(head, window)
  }

  function UnreachableBelow(slot: u64, window: Window): u64 {
    SaturatingSub(slot, 2 * window)
  }

  ghost predicate IsMinimum(cursors: map<Address, u64>, minimum: u64) {
    && (exists a :: a in cursors && cursors[a] == minimum)
    && (forall a :: a in cursors ==> minimum <= cursors[a])
  }

  ghost function MinimumCursor(cursors: map<Address, u64>, otherwise: u64): (minimum: u64)
    ensures cursors == map[] ==> minimum == otherwise
    ensures cursors != map[] ==> IsMinimum(cursors, minimum)
  {
    if cursors == map[] then otherwise
    else
      var a :| a in cursors;
      var rest := cursors - {a};
      assert cursors.Keys == rest.Keys + {a};
      if rest == map[] then cursors[a]
      else if cursors[a] < MinimumCursor(rest, otherwise) then cursors[a]
      else MinimumCursor(rest, otherwise)
  }

  /** Addresses without a cursor start one window behind the head. */
  function Initialized(cursors: map<Address, u64>, addresses: set<Address>, head: u64, window: Window): map<Address, u64> {
    map a | a in cursors.Keys + addresses :: if a in cursors then cursors[a] else SaturatingSub(head, window)
  }

  // ---------------------------------------------------------------------------
  // Discovered signatures
  // ---------------------------------------------------------------------------

  function Listed(batches: seq<AddressBatch>): set<Signature> {
    set b, d | b in batches && d in b.signatures :: d.signature
  }

  function ListedBy(batches: seq<AddressBatch>, signature: Signature): set<Address> {
    set b | b in batches && Lists(b, signature) :: b.address
  }

  ghost predicate ListedAt(batches: seq<AddressBatch>, signature: Signature, slot: u64) {
    exists b :: b in batches && Discovered(signature, slot) in b.signatures
  }

  /** The endpoint gave every signature one slot, across all addresses. */
  ghost predicate ConsistentSlots(batches: seq<AddressBatch>) {
    forall s, first, second :: ListedAt(batches, s, first) && ListedAt(batches, s, second) ==> first == second
  }

  ghost function ListedSlot(batches: seq<AddressBatch>, signature: Signature): (slot: u64)
    requires signature in Listed(batches)
    ensures ListedAt(batches, signature, slot)
  {
    var b, d :| b in batches && d in b.signatures && d.signature == signature;
    assert Discovered(signature, d.slot) in b.signatures;
    d.slot
  }

  // ---------------------------------------------------------------------------
  // Fetched transactions
  // ---------------------------------------------------------------------------

  function OutcomeOf(outcome: FetchOutcome): Outcome {
    match outcome
    case Fetched(_, convertible) => if convertible then Succeeded else Poisoned
    case FetchFailed(permanent) => if permanent then Poisoned else TransientFailure
  }

  function FailureAfter(poison: map<Signature, PoisonFailure>, outcomes: map<Signature, FetchOutcome>, s: Signature): Option<PoisonFailure> {
    if s in outcomes then
      AfterOutcome(Lookup(poison, s), OutcomeOf(outcomes[s]), MAX_TRANSACTION_FAILURE_ATTEMPTS)
    else
      Lookup(poison, s)
  }

  function Judged(poison: map<Signature, PoisonFailure>, outcomes: map<Signature, FetchOutcome>): map<Signature, PoisonFailure> {
    map s | s in poison.Keys + outcomes.Keys && FailureAfter(poison, outcomes, s).Some?
      :: FailureAfter(poison, outcomes, s).value
  }

  predicate GivesUp(poison: map<Signature, PoisonFailure>, outcomes: map<Signature, FetchOutcome>, s: Signature) {
    s in outcomes && OutcomeOf(outcomes[s]).Poisoned? && FailureAfter(poison, outcomes, s).value.quarantined
  }

  predicate Retries(poison: map<Signature, PoisonFailure>, outcomes: map<Signature, FetchOutcome>, s: Signature) {
    s in outcomes && !OutcomeOf(outcomes[s]).Succeeded? && !GivesUp(poison, outcomes, s)
  }

  function Retrying(poison: map<Signature, PoisonFailure>, outcomes: map<Signature, FetchOutcome>): set<Signature> {
    set s | s in outcomes && Retries(poison, outcomes, s)
  }

  ghost function GivenUp(
      poison: map<Signature, PoisonFailure>, batches: seq<AddressBatch>, outcomes: map<Signature, FetchOutcome>): map<Signature, u64>
    requires outcomes.Keys <= Listed(batches)
  {
    map s | s in outcomes && GivesUp(poison, outcomes, s) :: ListedSlot(batches, s)
  }

  /** Addresses whose cursor must not move: a retrying signature was listed there. */
  function Blocked(batches: seq<AddressBatch>, retrying: set<Signature>): set<Address> {
    set b | b in batches && HoldsRetry(b, retrying) :: b.address
  }

  predicate Sendable(poison: map<Signature, PoisonFailure>, a: Answers, s: Signature) {
    && s in a.outcomes
    && OutcomeOf(a.outcomes[s]).Succeeded?
    && ListedBy(a.batches, s) !! Blocked(a.batches, Retrying(poison, a.outcomes))
  }

  // ---------------------------------------------------------------------------
  // Whole polls
  // ---------------------------------------------------------------------------

  ghost predicate OncePerSignature(updates: seq<Update>) {
    forall i, j :: 0 <= i < j < |updates| ==> updates[i].signature != updates[j].signature
  }

  lemma {:induction false} OnceMeansNoCopies(updates: seq<Update>)
    requires OncePerSignature(updates)
    ensures forall u :: multiset(updates)[u] <= 1
  {
    if updates != [] {
      var n := |updates| - 1;
      OnceMeansNoCopies(updates[..n]);
      assert updates == updates[..n] + [updates[n]];
      assert updates[n] !in updates[..n];
    }
  }

  ghost predicate OldestFirst(updates: seq<Update>) {
    forall i, j :: 0 <= i < j < |updates| ==> updates[i].slot <= updates[j].slot
  }

  /** `planned` is what the poll sends if the channel stays open: every sendable
      signature once, oldest slot first. */
  ghost predicate Planned(poison: map<Signature, PoisonFailure>, a: Answers, planned: seq<Update>) {
    && OncePerSignature(planned)
    && OldestFirst(planned)
    && (forall u :: u in planned ==> Sendable(poison, a, u.signature) && u.slot == a.outcomes[u.signature].slot)
    && (forall s :: Sendable(poison, a, s) ==> exists u :: u in planned && u.signature == s)
  }

  /** One batch per monitored address, and a fetch for every listed signature that is
      not suppressed. */
  ghost predicate Asked(addresses: seq<Address>, recent: map<Signature, u64>, a: Answers) {
    && |a.batches| == |addresses|
    && (forall i :: 0 <= i < |addresses| ==> a.batches[i].address == addresses[i])
    && ConsistentSlots(a.batches)
    && a.outcomes.Keys == Listed(a.batches) - recent.Keys
  }

  function AddressSet(addresses: seq<Address>): set<Address> {
    set a | a in addresses
  }

  ghost function Remembered(pre: Progress, a: Answers, sent: seq<Update>): map<Signature, u64>
    requires a.outcomes.Keys <= Listed(a.batches)
  {
    Recorded(pre.recent + GivenUp(pre.poison, a.batches, a.outcomes), sent)
  }

  ghost predicate PollSucceeds(
    window: Window, addresses: seq<Address>, pre: Progress, post: Progress, a: Answers, sent: seq<Update>)
  {
    && !CursorAheadOfHead(pre.cursors, a.head, window)
    && Asked(addresses, pre.recent, a)
    && Planned(pre.poison, a, sent)
    && var started := Initialized(pre.cursors, AddressSet(addresses), a.head, window);
    && post.cursors == Advanced(started, a.batches, Retrying(pre.poison, a.outcomes))
    && post.poison == Judged(pre.poison, a.outcomes)
    && post.recent == Retained(Remembered(pre, a, sent),
                               UnreachableBelow(MinimumCursor(post.cursors, a.head), window))
  }

  /** A failed poll stopped before installing cursors, before judging anything, or in
      the middle of its sends. */
  ghost predicate PollFails(
    window: Window, addresses: seq<Address>, pre: Progress, post: Progress, a: Answers, planned: seq<Update>, sent: seq<Update>)
  {
    || (post == pre && sent == [])
    || (post == pre.(cursors := Initialized(pre.cursors, AddressSet(addresses), a.head, window)) && sent == [])
    || (&& Asked(addresses, pre.recent, a)
        && Planned(pre.poison, a, planned)
        && sent <= planned
        && post == Progress(
             Initialized(pre.cursors, AddressSet(addresses), a.head, window),
             Remembered(pre, a, sent),
             Judged(pre.poison, a.outcomes)))
  }

  // ---------------------------------------------------------------------------
  // Consequences every error path shares
  // ---------------------------------------------------------------------------

  lemma {:induction false} RecordedKeys(recent: map<Signature, u64>, updates: seq<Update>)
    ensures Recorded(recent, updates).Keys == recent.Keys + SignaturesOf(updates)
    ensures forall s :: s in Recorded(recent, updates) ==>
              || (s in recent && Recorded(recent, updates)[s] == recent[s])
              || Update(s, Recorded(recent, updates)[s]) in updates
  {
    if updates != [] {
      var n := |updates| - 1;
      RecordedKeys(recent, updates[..n]);
      assert updates == updates[..n] + [updates[n]];
    }
  }

  function Absorbed(state: Progress, deliveries: seq<Update>): Progress {
    state.(recent := Recorded(state.recent, deliveries))
  }

  lemma GivenUpIsQuarantined(poison: map<Signature, PoisonFailure>, a: Answers)
    requires a.outcomes.Keys <= Listed(a.batches)
    ensures GivenUp(poison, a.batches, a.outcomes).Keys <= Quarantined(Judged(poison, a.outcomes))
  {
    forall s | s in GivenUp(poison, a.batches, a.outcomes) ensures s in Quarantined(Judged(poison, a.outcomes)) {
      assert FailureAfter(poison, a.outcomes, s).Some?;
    }
  }

  function SignaturesOf(updates: seq<Update>): set<Signature> {
    set u | u in updates :: u.signature
  }

  lemma RememberedIsAccountedFor(pre: Progress, a: Answers, sent: seq<Update>)
    requires a.outcomes.Keys <= Listed(a.batches)
    ensures var recent := Remembered(pre, a, sent);
            && pre.recent.Keys <= recent.Keys
            && recent.Keys <= pre.recent.Keys + SignaturesOf(sent) + Quarantined(Judged(pre.poison, a.outcomes))
  {
    RecordedKeys(pre.recent + GivenUp(pre.poison, a.batches, a.outcomes), sent);
    GivenUpIsQuarantined(pre.poison, a);
  }

  /** Whatever stopped it, a failed poll moves no existing cursor, forgets no
      suppressed signature, and newly suppresses only what the stream delivered, what
      it sent before it stopped, or what it quarantined. */
  lemma FailedPollsAreSafe(
      window: Window, addresses: seq<Address>, before: Progress, deliveries: seq<Update>, after: Progress,
      a: Answers, planned: seq<Update>, sent: seq<Update>)
    requires PollFails(window, addresses, Absorbed(before, deliveries), after, a, planned, sent)
    ensures forall x :: x in before.cursors ==> x in after.cursors && after.cursors[x] == before.cursors[x]
    ensures before.recent.Keys <= after.recent.Keys
    ensures after.recent.Keys <=
            before.recent.Keys + SignaturesOf(deliveries) + SignaturesOf(sent) + Quarantined(after.poison)
  {
    var pre := Absorbed(before, deliveries);
    RecordedKeys(before.recent, deliveries);
    if Asked(addresses, pre.recent, a) {
      RememberedIsAccountedFor(pre, a, sent);
    }
  }
}
