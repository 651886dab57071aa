/** The poll itself (rpc_polling.rs), with the loops and mutable state of the source,
    proved against module PollSpec. */
module Poller {
  import opened Primitives
  import opened Signatures
  import opened Progress
  import opened PollSpec
  import opened Delivered
  import Sorting

  const HISTORY_BOUNDARY_CHECK_INTERVAL: nat := 60

  /** What the endpoint would answer to every request this poll can make. `None` is a
      request that fails. */
  datatype Endpoint = Endpoint(
    head: Option<u64>,
    boundaryAtCheck: Option<u64>,
    boundaryAtScan: Option<u64>,
    index: Address -> IndexService,
    fetch: Signature -> FetchOutcome)

  datatype PollError =
    | RequestFailed
    | InvalidSignature
    | CursorAhead
    | HistoryUnavailable(firstAvailableSlot: u64, checkpointSlot: u64)
    | ConflictingSlots(signature: Signature)
    | ChannelClosed

  datatype PollOutcome = PollOutcome(
    queuedTransactions: nat, checkpointUrgent: bool, historyBoundaryVerified: bool)

  // ---------------------------------------------------------------------------
  // Contexts: which addresses listed a signature, and at which slot
  // ---------------------------------------------------------------------------

  /** One index line that one address exposed. */
  datatype Listing = Listing(address: Address, entry: Discovered)

  ghost function ListingsOf(batch: AddressBatch, k: nat): set<Listing>
    requires k <= |batch.signatures|
  {
    set d | d in batch.signatures[..k] :: Listing(batch.address, d)
  }

  ghost function Listings(batches: seq<AddressBatch>): set<Listing> {
    set b, d | b in batches && d in b.signatures :: Listing(b.address, d)
  }

  /** The contexts hold exactly these listings. */
  ghost predicate Records(contexts: map<Signature, SignatureContext>, listings: set<Listing>) {
    && (forall l :: l in listings ==>
          && l.entry.signature in contexts
          && l.address in contexts[l.entry.signature].addresses
          && contexts[l.entry.signature].slot == l.entry.slot)
    && (forall s :: s in contexts ==> contexts[s].addresses != {})
    && (forall s, a :: s in contexts && a in contexts[s].addresses ==>
          Listing(a, Discovered(s, contexts[s].slot)) in listings)
  }

  ghost predicate Conflicts(listings: set<Listing>, batch: AddressBatch, s: Signature) {
    exists x, y :: x in listings + ListingsOf(batch, |batch.signatures|) && y in batch.signatures
      && x.entry.signature == y.signature == s && x.entry.slot != y.slot
  }

  lemma AnotherSlotConflicts(contexts: map<Signature, SignatureContext>, batch: AddressBatch, listings: set<Listing>, i: nat)
    requires i < |batch.signatures| && Records(contexts, listings + ListingsOf(batch, i))
    requires batch.signatures[i].signature in contexts
    requires contexts[batch.signatures[i].signature].slot != batch.signatures[i].slot
    ensures Conflicts(listings, batch, batch.signatures[i].signature)
  {
    var y := batch.signatures[i];
    var context := contexts[y.signature];
    var a :| a in context.addresses;
    var x := Listing(a, Discovered(y.signature, context.slot));
    assert x in listings + ListingsOf(batch, i);
    assert x in listings + ListingsOf(batch, |batch.signatures|);
    assert y in batch.signatures;
  }

  lemma RecordsOneMore(contexts: map<Signature, SignatureContext>, listings: set<Listing>, address: Address, d: Discovered)
    requires Records(contexts, listings)
    requires d.signature in contexts ==> contexts[d.signature].slot == d.slot
    ensures var addresses := if d.signature in contexts then contexts[d.signature].addresses + {address} else {address};
            Records(contexts[d.signature := SignatureContext(d.slot, addresses)], listings + {Listing(address, d)})
  {
  }

  /** Adds one batch to the contexts; the error is a signature the endpoint listed at
      two slots. */
  method MergeBatch(contexts: map<Signature, SignatureContext>, batch: AddressBatch, ghost listings: set<Listing>)
    returns (merged: Result<map<Signature, SignatureContext>, Signature>)
    requires Records(contexts, listings)
    ensures merged.Ok? ==> Records(merged.value, listings + ListingsOf(batch, |batch.signatures|))
    ensures merged.Err? ==> Conflicts(listings, batch, merged.error)
  {
    var current := contexts;
    assert listings + ListingsOf(batch, 0) == listings;
    for i := 0 to |batch.signatures|
      invariant Records(current, listings + ListingsOf(batch, i))
    {
      var discovered := batch.signatures[i];
      assert ListingsOf(batch, i + 1) == ListingsOf(batch, i) + {Listing(batch.address, discovered)};
      if discovered.signature in current {
        var context := current[discovered.signature];
        if context.slot != discovered.slot {
          AnotherSlotConflicts(current, batch, listings, i);
          return Err(discovered.signature);
        }
        RecordsOneMore(current, listings + ListingsOf(batch, i), batch.address, discovered);
        current := current[discovered.signature := context.(addresses := context.addresses + {batch.address})];
      } else {
        RecordsOneMore(current, listings + ListingsOf(batch, i), batch.address, discovered);
        current := current[discovered.signature := SignatureContext(discovered.slot, {batch.address})];
      }
      assert listings + ListingsOf(batch, i + 1) == listings + ListingsOf(batch, i) + {Listing(batch.address, discovered)};
    }
    return Ok(current);
  }

  /** The same fact in the vocabulary of PollSpec. */
  ghost predicate Describes(contexts: map<Signature, SignatureContext>, batches: seq<AddressBatch>) {
    && contexts.Keys == Listed(batches)
    && (forall s :: s in contexts ==> contexts[s].addresses == ListedBy(batches, s))
    && (forall s :: s in contexts ==> contexts[s].slot == ListedSlot(batches, s))
    && ConsistentSlots(batches)
  }

  lemma ListingsAreRecorded(contexts: map<Signature, SignatureContext>, batches: seq<AddressBatch>, b: AddressBatch, d: Discovered)
    requires Records(contexts, Listings(batches))
    requires b in batches && d in b.signatures
    ensures d.signature in contexts && contexts[d.signature].slot == d.slot
    ensures b.address in contexts[d.signature].addresses
  {
    assert Listing(b.address, d) in Listings(batches);
  }

  lemma RecordsAreListed(contexts: map<Signature, SignatureContext>, batches: seq<AddressBatch>, s: Signature, a: Address)
    returns (b: AddressBatch)
    requires Records(contexts, Listings(batches))
    requires s in contexts && a in contexts[s].addresses
    ensures b in batches && b.address == a && Discovered(s, contexts[s].slot) in b.signatures
  {
    assert Listing(a, Discovered(s, contexts[s].slot)) in Listings(batches);
    b :| b in batches && b.address == a && Discovered(s, contexts[s].slot) in b.signatures;
  }

  lemma ListedSlotIsRecorded(contexts: map<Signature, SignatureContext>, batches: seq<AddressBatch>, s: Signature, slot: u64)
    requires Records(contexts, Listings(batches))
    requires ListedAt(batches, s, slot)
    ensures s in contexts && contexts[s].slot == slot
  {
    var b :| b in batches && Discovered(s, slot) in b.signatures;
    ListingsAreRecorded(contexts, batches, b, Discovered(s, slot));
  }

  lemma RecordedAddressesAreListing(contexts: map<Signature, SignatureContext>, batches: seq<AddressBatch>, s: Signature)
    requires Records(contexts, Listings(batches)) && s in contexts
    ensures s in Listed(batches) && contexts[s].addresses == ListedBy(batches, s)
  {
    forall a | a in contexts[s].addresses ensures a in ListedBy(batches, s) && s in Listed(batches) {
      var b := RecordsAreListed(contexts, batches, s, a);
      assert Lists(b, s);
    }
    forall a | a in ListedBy(batches, s) ensures a in contexts[s].addresses {
      var b :| b in batches && Lists(b, s) && b.address == a;
      var d :| d in b.signatures && d.signature == s;
      ListingsAreRecorded(contexts, batches, b, d);
    }
    var a :| a in contexts[s].addresses;
  }

  lemma RecordedListingsDescribe(contexts: map<Signature, SignatureContext>, batches: seq<AddressBatch>)
    requires Records(contexts, Listings(batches))
    ensures Describes(contexts, batches)
  {
    forall s | s in Listed(batches) ensures s in contexts {
      var b, d :| b in batches && d in b.signatures && d.signature == s;
      ListingsAreRecorded(contexts, batches, b, d);
    }
    forall s | s in contexts
      ensures s in Listed(batches) && contexts[s].addresses == ListedBy(batches, s) && contexts[s].slot == ListedSlot(batches, s)
    {
      RecordedAddressesAreListing(contexts, batches, s);
      ListedSlotIsRecorded(contexts, batches, s, ListedSlot(batches, s));
    }
    forall s, first, second | ListedAt(batches, s, first) && ListedAt(batches, s, second) ensures first == second {
      ListedSlotIsRecorded(contexts, batches, s, first);
      ListedSlotIsRecorded(contexts, batches, s, second);
    }
  }

  lemma ListingsGrow(batches: seq<AddressBatch>, batch: AddressBatch)
    ensures Listings(batches + [batch]) == Listings(batches) + ListingsOf(batch, |batch.signatures|)
  {
    assert batch.signatures[..|batch.signatures|] == batch.signatures;
    assert forall b :: b in batches + [batch] <==> b in batches || b == batch;
  }

  // ---------------------------------------------------------------------------
  // Discovery over all addresses
  // ---------------------------------------------------------------------------

  ghost predicate ServesDistinct(endpoint: Endpoint) {
    forall a :: DistinctSignatures(endpoint.index(a).entries)
  }

  /** Every batch is the whole scan of its address's index down to its replay floor. */
  ghost predicate DiscoveredFrom(
    endpoint: Endpoint, addresses: seq<Address>, cursors: map<Address, u64>, head: u64, window: Window, batches: seq<AddressBatch>)
  {
    && |batches| <= |addresses|
    && (forall i :: 0 <= i < |batches| ==>
          && addresses[i] in cursors
          && IsWholeScan(batches[i], addresses[i], endpoint.index(addresses[i]).entries, cursors[addresses[i]], head, window))
  }

  /** No two listings disagree about a transaction's slot. */
  ghost predicate OneSlotEach(endpoint: Endpoint, addresses: seq<Address>) {
    forall a, b, x, y ::
      (&& a in addresses && b in addresses
       && x in endpoint.index(a).entries && y in endpoint.index(b).entries
       && x.signature.Some? && x.signature == y.signature) ==> x.slot == y.slot
  }

  /** Discovery cannot fail: every index answers, in full and consistently, and the
      endpoint's history reaches back to every cursor. */
  ghost predicate Answering(endpoint: Endpoint, addresses: seq<Address>, cursors: map<Address, u64>, window: Window) {
    && OneSlotEach(endpoint, addresses)
    && forall a :: a in addresses ==> a in cursors && AnsweringFor(endpoint, a, cursors[a], window)
  }

  ghost predicate AnsweringFor(endpoint: Endpoint, address: Address, cursor: u64, window: Window) {
    && endpoint.index(address).outage.None?
    && Scan(endpoint.index(address).entries, Floor(cursor, window)).Ok?
    && endpoint.boundaryAtScan.Some? && endpoint.boundaryAtScan.value <= SaturatingAdd(cursor, 1)
  }

  lemma ListingIsIndexed(
      endpoint: Endpoint, addresses: seq<Address>, cursors: map<Address, u64>, head: u64, window: Window,
      batches: seq<AddressBatch>, l: Listing)
    requires DiscoveredFrom(endpoint, addresses, cursors, head, window, batches)
    requires l in Listings(batches)
    ensures exists a :: a in addresses && IndexEntry(l.entry.slot, Some(l.entry.signature)) in endpoint.index(a).entries
  {
    var b :| b in batches && b.address == l.address && l.entry in b.signatures;
    var i :| 0 <= i < |batches| && batches[i] == b;
    ScannedIsIndexed(endpoint.index(addresses[i]).entries, Floor(cursors[addresses[i]], window), l.entry);
  }

  lemma ConsistentIndexesDoNotConflict(
      endpoint: Endpoint, addresses: seq<Address>, cursors: map<Address, u64>, head: u64, window: Window,
      batches: seq<AddressBatch>, x: Listing, y: Listing)
    requires OneSlotEach(endpoint, addresses)
    requires DiscoveredFrom(endpoint, addresses, cursors, head, window, batches)
    requires x in Listings(batches) && y in Listings(batches) && x.entry.signature == y.entry.signature
    ensures x.entry.slot == y.entry.slot
  {
    ListingIsIndexed(endpoint, addresses, cursors, head, window, batches, x);
    ListingIsIndexed(endpoint, addresses, cursors, head, window, batches, y);
  }

  lemma MergeConflicts(
      endpoint: Endpoint, addresses: seq<Address>, cursors: map<Address, u64>, head: u64, window: Window,
      batches: seq<AddressBatch>, batch: AddressBatch, s: Signature)
    requires DiscoveredFrom(endpoint, addresses, cursors, head, window, batches + [batch])
    requires Conflicts(Listings(batches), batch, s)
    ensures !OneSlotEach(endpoint, addresses)
  {
    var x, y :| x in Listings(batches) + ListingsOf(batch, |batch.signatures|) && y in batch.signatures
      && x.entry.signature == y.signature == s && x.entry.slot != y.slot;
    ListingsGrow(batches, batch);
    assert Listing(batch.address, y) in Listings(batches + [batch]) by {
      assert batch in batches + [batch];
    }
    if OneSlotEach(endpoint, addresses) {
      ConsistentIndexesDoNotConflict(
        endpoint, addresses, cursors, head, window, batches + [batch], x, Listing(batch.address, y));
    }
  }

  /** What the endpoint must have done for a poll to end in such an error. */
  ghost predicate Warrants(endpoint: Endpoint, addresses: seq<Address>, error: PollError) {
    match error
    case RequestFailed =>
      || endpoint.head.None? || endpoint.boundaryAtCheck.None? || endpoint.boundaryAtScan.None?
      || exists a :: a in addresses && endpoint.index(a).outage.Some?
    case InvalidSignature =>
      exists a, e :: a in addresses && e in endpoint.index(a).entries && e.signature.None?
    case ConflictingSlots(_) => !OneSlotEach(endpoint, addresses)
    case _ => true
  }

  lemma MoreAddressesWarrant(endpoint: Endpoint, address: Address, addresses: seq<Address>, error: PollError)
    requires address in addresses && !error.ConflictingSlots? && Warrants(endpoint, [address], error)
    ensures Warrants(endpoint, addresses, error)
  {
  }

  /** One address: discovery, then, if the floor was not reached, the check that the
      endpoint's history does. */
  method DiscoverOne(endpoint: Endpoint, address: Address, cursor: u64, head: u64, window: Window)
    returns (result: Result<AddressBatch, PollError>, historyBoundaryVerified: bool)
    requires DistinctSignatures(endpoint.index(address).entries)
    ensures result.Ok? ==> IsWholeScan(result.value, address, endpoint.index(address).entries, cursor, head, window)
    ensures historyBoundaryVerified ==> endpoint.boundaryAtScan.Some? && endpoint.boundaryAtScan.value <= SaturatingAdd(cursor, 1)
    ensures result.Ok? ==> (historyBoundaryVerified <==> !result.value.reachedReplayFloor)
    ensures result.Err? ==> !result.error.ChannelClosed? && !result.error.CursorAhead? && !result.error.ConflictingSlots?
    ensures result.Err? ==> Warrants(endpoint, [address], result.error)
    ensures result.Err? ==> !AnsweringFor(endpoint, address, cursor, window)
    ensures result.Err? && result.error.HistoryUnavailable? ==>
              && endpoint.boundaryAtScan == Some(result.error.firstAvailableSlot)
              && cursor == result.error.checkpointSlot
              && result.error.firstAvailableSlot > SaturatingAdd(cursor, 1)
  {
    assert address in [address];
    ScansFailOnTexts(endpoint.index(address).entries, Floor(cursor, window));
    var discovered := DiscoverSignatures(address, endpoint.index(address), cursor, head, window);
    if discovered.Err? {
      return Err(if discovered.error.RequestFailed? then PollError.RequestFailed else PollError.InvalidSignature), false;
    }
    if discovered.value.reachedReplayFloor {
      return Ok(discovered.value), false;
    }
    if endpoint.boundaryAtScan.None? {
      return Err(PollError.RequestFailed), false;
    }
    var boundary := endpoint.boundaryAtScan.value;
    if boundary > SaturatingAdd(cursor, 1) {
      return Err(HistoryUnavailable(boundary, cursor)), false;
    }
    return Ok(discovered.value), true;
  }

  /** Some index ended above its replay floor. */
  ghost predicate StopsShort(batches: seq<AddressBatch>) {
    exists b :: b in batches && !b.reachedReplayFloor
  }

  lemma DiscoversOneMore(
      endpoint: Endpoint, addresses: seq<Address>, cursors: map<Address, u64>, head: u64, window: Window,
      batches: seq<AddressBatch>, batch: AddressBatch)
    requires DiscoveredFrom(endpoint, addresses, cursors, head, window, batches)
    requires |batches| < |addresses| && addresses[|batches|] in cursors
    requires var a := addresses[|batches|];
             IsWholeScan(batch, a, endpoint.index(a).entries, cursors[a], head, window)
    ensures DiscoveredFrom(endpoint, addresses, cursors, head, window, batches + [batch])
    ensures StopsShort(batches + [batch]) <==> StopsShort(batches) || !batch.reachedReplayFloor
  {
    assert forall b :: b in batches + [batch] <==> b in batches || b == batch;
  }

  method DiscoverAll(endpoint: Endpoint, addresses: seq<Address>, cursors: map<Address, u64>, head: u64, window: Window)
    returns (error: Option<PollError>, batches: seq<AddressBatch>, contexts: map<Signature, SignatureContext>, historyBoundaryVerified: bool)
    requires ServesDistinct(endpoint)
    requires forall a :: a in addresses ==> a in cursors
    ensures error.None? ==>
              && |batches| == |addresses|
              && DiscoveredFrom(endpoint, addresses, cursors, head, window, batches)
              && Describes(contexts, batches)
    ensures error.None? ==> (historyBoundaryVerified <==> StopsShort(batches))
    ensures error.Some? ==> !error.value.ChannelClosed? && !error.value.CursorAhead?
    ensures error.Some? ==> Warrants(endpoint, addresses, error.value)
    ensures error.Some? ==> !Answering(endpoint, addresses, cursors, window)
    ensures error.Some? && error.value.HistoryUnavailable? ==>
              && endpoint.boundaryAtScan == Some(error.value.firstAvailableSlot)
              && (exists a :: a in addresses && cursors[a] == error.value.checkpointSlot)
              && error.value.firstAvailableSlot > SaturatingAdd(error.value.checkpointSlot, 1)
  {
    error, batches, contexts, historyBoundaryVerified := None, [], map[], false;
    for i := 0 to |addresses|
      invariant |batches| == i
      invariant DiscoveredFrom(endpoint, addresses, cursors, head, window, batches)
      invariant Records(contexts, Listings(batches))
      invariant historyBoundaryVerified <==> StopsShort(batches)
    {
      var address := addresses[i];
      var discovered, verified := DiscoverOne(endpoint, address, cursors[address], head, window);
      if discovered.Err? {
        MoreAddressesWarrant(endpoint, address, addresses, discovered.error);
        error := Some(discovered.error);
        return;
      }
      var batch := discovered.value;
      historyBoundaryVerified := historyBoundaryVerified || verified;
      ListingsGrow(batches, batch);
      DiscoversOneMore(endpoint, addresses, cursors, head, window, batches, batch);
      var merged := MergeBatch(contexts, batch, Listings(batches));
      if merged.Err? {
        MergeConflicts(endpoint, addresses, cursors, head, window, batches, batch, merged.error);
        error := Some(ConflictingSlots(merged.error));
        return;
      }
      contexts := merged.value;
      batches := batches + [batch];
    }
    RecordedListingsDescribe(contexts, batches);
  }

  // ---------------------------------------------------------------------------
  // Fetching and judging
  // ---------------------------------------------------------------------------

  function Fetches(endpoint: Endpoint, signatures: set<Signature>): map<Signature, FetchOutcome> {
    map s | s in signatures :: endpoint.fetch(s)
  }

  function SignaturesToFetch(contexts: map<Signature, SignatureContext>, recent: map<Signature, u64>): set<Signature> {
    contexts.Keys - recent.Keys
  }

  datatype TransactionPollOutcome =
    | Ready(slot: u64)
    | FailedTransiently
    | FoundPoisoned(disposition: FailureDisposition)

  method ProcessFetchedTransaction(state: PollingState, signature: Signature, fetched: FetchOutcome)
    returns (outcome: TransactionPollOutcome)
    modifies state`poisonFailures
    ensures match fetched
            case Fetched(slot, true) => outcome == Ready(slot) && state.poisonFailures == old(state.poisonFailures) - {signature}
            case FetchFailed(false) => outcome == FailedTransiently && state.poisonFailures == old(state.poisonFailures)
            case _ =>
              && outcome.FoundPoisoned? && signature in state.poisonFailures
              && state.poisonFailures == old(state.poisonFailures)[signature := state.poisonFailures[signature]]
              && outcome.disposition.quarantined == state.poisonFailures[signature].quarantined
              && (signature !in old(state.poisonFailures) ==> state.poisonFailures[signature] == PoisonFailure(1, false))
              && (signature in old(state.poisonFailures) ==>
                    var known := old(state.poisonFailures)[signature];
                    if known.quarantined then state.poisonFailures[signature] == known
                    else
                      && state.poisonFailures[signature].attempts == Min(known.attempts + 1, MAX_U32)
                      && (state.poisonFailures[signature].quarantined <==> known.attempts + 1 >= 5))
    ensures state.poisonFailures == Judged(old(state.poisonFailures), map[signature := fetched])
    ensures outcome.Ready? <==> OutcomeOf(fetched).Succeeded?
    ensures outcome.Ready? ==> outcome.slot == fetched.slot
    ensures outcome.FoundPoisoned? <==> OutcomeOf(fetched).Poisoned?
    ensures outcome.FoundPoisoned? ==>
              (outcome.disposition.quarantined
               <==> GivesUp(old(state.poisonFailures), map[signature := fetched], signature))
  {
    match fetched {
      case Fetched(slot, convertible) =>
        if convertible {
          state.ClearPoisonFailure(signature);
          return Ready(slot);
        }
        var disposition := state.RecordPoisonFailure(signature, MAX_TRANSACTION_FAILURE_ATTEMPTS);
        return FoundPoisoned(disposition);
      case FetchFailed(permanent) =>
        if permanent {
          var disposition := state.RecordPoisonFailure(signature, MAX_TRANSACTION_FAILURE_ATTEMPTS);
          return FoundPoisoned(disposition);
        }
        return FailedTransiently;
    }
  }

  /** Judging signatures one at a time, in any order, is judging them together. */
  lemma JudgedGrows(poison: map<Signature, PoisonFailure>, outcomes: map<Signature, FetchOutcome>, s: Signature, outcome: FetchOutcome)
    requires s !in outcomes
    ensures var grown := outcomes[s := outcome];
            && Judged(Judged(poison, outcomes), map[s := outcome]) == Judged(poison, grown)
            && Retrying(poison, grown) ==
               Retrying(poison, outcomes) + (if Retries(Judged(poison, outcomes), map[s := outcome], s) then {s} else {})
            && (GivesUp(poison, grown, s) <==> GivesUp(Judged(poison, outcomes), map[s := outcome], s))
            && (forall x :: x in outcomes ==> (GivesUp(poison, grown, x) <==> GivesUp(poison, outcomes, x)))
  {
    var grown := outcomes[s := outcome];
    assert Lookup(Judged(poison, outcomes), s) == Lookup(poison, s);
    forall x | x in outcomes ensures FailureAfter(poison, grown, x) == FailureAfter(poison, outcomes, x) {
    }
    var left, right := Judged(Judged(poison, outcomes), map[s := outcome]), Judged(poison, grown);
    forall x ensures x in left <==> x in right ensures x in left && x in right ==> left[x] == right[x] {
      if x != s {
        assert FailureAfter(poison, grown, x) == FailureAfter(poison, outcomes, x);
        assert Lookup(Judged(poison, outcomes), x) == FailureAfter(poison, outcomes, x);
      }
    }
    assert left == right;
  }

  type FetchedTransaction = (Signature, FetchOutcome)

  function Answered(fetched: seq<FetchedTransaction>): map<Signature, FetchOutcome> {
    if fetched == [] then map[]
    else
      var last := fetched[|fetched| - 1];
      Answered(fetched[..|fetched| - 1])[last.0 := last.1]
  }

  ghost predicate FetchedOnce(fetched: seq<FetchedTransaction>) {
    forall i, j :: 0 <= i < j < |fetched| ==> fetched[i].0 != fetched[j].0
  }

  lemma {:induction false} AnsweredKeys(fetched: seq<FetchedTransaction>)
    ensures Answered(fetched).Keys == set f | f in fetched :: f.0
  {
    if fetched != [] {
      AnsweredKeys(fetched[..|fetched| - 1]);
      assert fetched == fetched[..|fetched| - 1] + [fetched[|fetched| - 1]];
    }
  }

  /** Fetches run concurrently, so their answers come back in any order. */
  method FetchAll(endpoint: Endpoint, signatures: set<Signature>) returns (fetched: seq<FetchedTransaction>)
    ensures FetchedOnce(fetched)
    ensures Answered(fetched) == Fetches(endpoint, signatures)
  {
    fetched := [];
    var remaining := signatures;
    while remaining != {}
      invariant remaining <= signatures
      invariant FetchedOnce(fetched)
      invariant forall f :: f in fetched ==> f.0 in signatures - remaining
      invariant Answered(fetched) == Fetches(endpoint, signatures - remaining)
    {
      var s :| s in remaining;
      remaining := remaining - {s};
      ghost var earlier := fetched;
      FetchesGrow(endpoint, signatures - remaining - {s}, s);
      assert signatures - remaining - {s} + {s} == signatures - remaining;
      fetched := fetched + [(s, endpoint.fetch(s))];
      assert fetched[..|earlier|] == earlier;
    }
    assert signatures - remaining == signatures;
  }

  lemma FetchesGrow(endpoint: Endpoint, signatures: set<Signature>, s: Signature)
    ensures Fetches(endpoint, signatures + {s}) == Fetches(endpoint, signatures)[s := endpoint.fetch(s)]
  {
  }

  /** What the successful fetches became: each once, with the fetched slot. */
  ghost predicate Converted(ready: seq<Update>, outcomes: map<Signature, FetchOutcome>) {
    && OncePerSignature(ready)
    && (forall u :: u in ready ==>
          u.signature in outcomes && OutcomeOf(outcomes[u.signature]).Succeeded? && u.slot == outcomes[u.signature].slot)
    && (forall s :: s in outcomes && OutcomeOf(outcomes[s]).Succeeded? ==> Update(s, outcomes[s].slot) in ready)
  }

  lemma ConvertedGrows(ready: seq<Update>, outcomes: map<Signature, FetchOutcome>, s: Signature, outcome: FetchOutcome)
    requires Converted(ready, outcomes) && s !in outcomes
    ensures !OutcomeOf(outcome).Succeeded? ==> Converted(ready, outcomes[s := outcome])
    ensures OutcomeOf(outcome).Succeeded? ==> Converted(ready + [Update(s, outcome.slot)], outcomes[s := outcome])
  {
    if OutcomeOf(outcome).Succeeded? {
      var grown := ready + [Update(s, outcome.slot)];
      assert grown[|ready|] == Update(s, outcome.slot);
      forall x | x in outcomes && OutcomeOf(outcomes[x]).Succeeded? ensures Update(x, outcomes[x].slot) in grown {
        assert Update(x, outcomes[x].slot) in ready;
      }
    }
  }

  lemma GivenUpGrows(
      poison: map<Signature, PoisonFailure>, batches: seq<AddressBatch>, outcomes: map<Signature, FetchOutcome>,
      s: Signature, outcome: FetchOutcome)
    requires s !in outcomes
    requires outcomes.Keys + {s} <= Listed(batches)
    ensures var earlier := GivenUp(poison, batches, outcomes);
            GivenUp(poison, batches, outcomes[s := outcome]) ==
            if GivesUp(Judged(poison, outcomes), map[s := outcome], s) then earlier[s := ListedSlot(batches, s)] else earlier
  {
    JudgedGrows(poison, outcomes, s, outcome);
  }

  /** Everything judging `outcomes` leaves behind. */
  ghost predicate JudgedSoFar(
    before: Progress, batches: seq<AddressBatch>, outcomes: map<Signature, FetchOutcome>,
    poison: map<Signature, PoisonFailure>, recent: map<Signature, u64>, ready: seq<Update>, retrying: set<Signature>)
  {
    && outcomes.Keys <= Listed(batches)
    && poison == Judged(before.poison, outcomes)
    && recent == before.recent + GivenUp(before.poison, batches, outcomes)
    && retrying == Retrying(before.poison, outcomes)
    && Converted(ready, outcomes)
  }

  lemma JudgingOneMore(
      before: Progress, batches: seq<AddressBatch>, outcomes: map<Signature, FetchOutcome>,
      poison: map<Signature, PoisonFailure>, recent: map<Signature, u64>, ready: seq<Update>, retrying: set<Signature>,
      s: Signature, outcome: FetchOutcome)
    requires JudgedSoFar(before, batches, outcomes, poison, recent, ready, retrying)
    requires s !in outcomes && s in Listed(batches)
    ensures var single := map[s := outcome];
            JudgedSoFar(before, batches, outcomes[s := outcome],
                        Judged(poison, single),
                        if GivesUp(poison, single, s) then recent[s := ListedSlot(batches, s)] else recent,
                        if OutcomeOf(outcome).Succeeded? then ready + [Update(s, outcome.slot)] else ready,
                        if Retries(poison, single, s) then retrying + {s} else retrying)
  {
    JudgedGrows(before.poison, outcomes, s, outcome);
    GivenUpGrows(before.poison, batches, outcomes, s, outcome);
    ConvertedGrows(ready, outcomes, s, outcome);
    MergeThenUpdate(before.recent, GivenUp(before.poison, batches, outcomes), s, ListedSlot(batches, s));
  }

  lemma MergeThenUpdate(first: map<Signature, u64>, second: map<Signature, u64>, s: Signature, slot: u64)
    ensures first + second[s := slot] == (first + second)[s := slot]
  {
  }

  method JudgeOne(
      state: PollingState, signature: Signature, fetched: FetchOutcome, contexts: map<Signature, SignatureContext>,
      readySoFar: seq<Update>, retryingSoFar: set<Signature>,
      ghost before: Progress, ghost batches: seq<AddressBatch>, ghost outcomes: map<Signature, FetchOutcome>)
    returns (ready: seq<Update>, retrying: set<Signature>)
    requires signature in contexts && signature in Listed(batches) && signature !in outcomes
    requires contexts[signature].slot == ListedSlot(batches, signature)
    requires JudgedSoFar(before, batches, outcomes, state.poisonFailures, state.recentSignatures, readySoFar, retryingSoFar)
    modifies state`poisonFailures, state`recentSignatures
    ensures JudgedSoFar(before, batches, outcomes[signature := fetched],
                        state.poisonFailures, state.recentSignatures, ready, retrying)
  {
    JudgingOneMore(before, batches, outcomes, state.poisonFailures, state.recentSignatures,
                   readySoFar, retryingSoFar, signature, fetched);
    ready, retrying := readySoFar, retryingSoFar;
    var result := ProcessFetchedTransaction(state, signature, fetched);
    match result {
      case Ready(slot) =>
        ready := ready + [Update(signature, slot)];
      case FailedTransiently =>
        retrying := retrying + {signature};
      case FoundPoisoned(disposition) =>
        if disposition.quarantined {
          state.RecordRecentSignature(signature, contexts[signature].slot);
        } else {
          retrying := retrying + {signature};
        }
    }
  }

  ghost predicate AgreesOnSlots(contexts: map<Signature, SignatureContext>, batches: seq<AddressBatch>) {
    && contexts.Keys <= Listed(batches)
    && (forall s :: s in contexts ==> contexts[s].slot == ListedSlot(batches, s))
  }

  method JudgeAll(
      state: PollingState, fetched: seq<FetchedTransaction>, contexts: map<Signature, SignatureContext>, ghost batches: seq<AddressBatch>)
    returns (ready: seq<Update>, retrying: set<Signature>)
    requires FetchedOnce(fetched)
    requires AgreesOnSlots(contexts, batches)
    requires Answered(fetched).Keys <= contexts.Keys
    modifies state`poisonFailures, state`recentSignatures
    ensures JudgedSoFar(old(state.View()), batches, Answered(fetched),
                        state.poisonFailures, state.recentSignatures, ready, retrying)
  {
    ready, retrying := [], {};
    ghost var before := state.View();
    AnsweredKeys(fetched);
    JudgedNothingYet(before, batches);
    assert fetched[..0] == [];
    for i := 0 to |fetched|
      invariant JudgedSoFar(before, batches, Answered(fetched[..i]),
                            state.poisonFailures, state.recentSignatures, ready, retrying)
    {
      var (signature, outcome) := fetched[i];
      AnswersGrow(fetched, i);
      assert fetched[i] in fetched && signature in Answered(fetched);
      assert signature in contexts && signature in Listed(batches);
      ready, retrying := JudgeOne(state, signature, outcome, contexts, ready, retrying,
                                  before, batches, Answered(fetched[..i]));
    }
    assert fetched[..|fetched|] == fetched;
  }

  lemma JudgedNothingYet(before: Progress, batches: seq<AddressBatch>)
    ensures JudgedSoFar(before, batches, map[], before.poison, before.recent, [], {})
  {
    assert Judged(before.poison, map[]) == before.poison;
    assert before.recent + GivenUp(before.poison, batches, map[]) == before.recent;
  }

  lemma AnswersGrow(fetched: seq<FetchedTransaction>, i: nat)
    requires FetchedOnce(fetched) && i < |fetched|
    ensures fetched[i].0 !in Answered(fetched[..i])
    ensures Answered(fetched[..i + 1]) == Answered(fetched[..i])[fetched[i].0 := fetched[i].1]
  {
    AnsweredKeys(fetched[..i]);
    assert fetched[..i + 1][..i] == fetched[..i];
  }

  // ---------------------------------------------------------------------------
  // Selecting and sending
  // ---------------------------------------------------------------------------

  function BlockedAddresses(contexts: map<Signature, SignatureContext>, retrying: set<Signature>): set<Address>
    requires retrying <= contexts.Keys
  {
    set s, a | s in retrying && a in contexts[s].addresses :: a
  }

  lemma BlockedAddressesAreBlocked(contexts: map<Signature, SignatureContext>, batches: seq<AddressBatch>, retrying: set<Signature>)
    requires Describes(contexts, batches) && retrying <= contexts.Keys
    ensures BlockedAddresses(contexts, retrying) == Blocked(batches, retrying)
  {
    var left, right := BlockedAddresses(contexts, retrying), Blocked(batches, retrying);
    forall a | a in left ensures a in right {
      var s :| s in retrying && a in contexts[s].addresses;
      var b :| b in batches && Lists(b, s) && b.address == a;
      assert HoldsRetry(b, retrying);
    }
    forall a | a in right ensures a in left {
      var b :| b in batches && HoldsRetry(b, retrying) && b.address == a;
      var d :| d in b.signatures && d.signature in retrying;
      assert Lists(b, d.signature);
      assert a in contexts[d.signature].addresses;
    }
  }

  method RetainReady(updates: seq<Update>, contexts: map<Signature, SignatureContext>, blockedAddresses: set<Address>)
    returns (ready: seq<Update>)
    requires OncePerSignature(updates)
    ensures OncePerSignature(ready)
    ensures forall u :: u in ready <==> u in updates && SignatureIsReady(u.signature, contexts, blockedAddresses)
  {
    ready := [];
    for i := 0 to |updates|
      invariant OncePerSignature(ready)
      invariant forall u :: u in ready <==> u in updates[..i] && SignatureIsReady(u.signature, contexts, blockedAddresses)
    {
      assert updates[..i + 1] == updates[..i] + [updates[i]];
      if SignatureIsReady(updates[i].signature, contexts, blockedAddresses) {
        forall j | 0 <= j < |ready| ensures ready[j].signature != updates[i].signature {
          assert ready[j] in updates[..i];
        }
        ready := ready + [updates[i]];
      }
    }
    assert updates[..|updates|] == updates;
  }

  function SlotOf(update: Update): int {
    update.slot
  }

  lemma SortingKeepsSignaturesApart(updates: seq<Update>)
    requires OncePerSignature(updates)
    ensures var planned := Sorting.SortByKey(updates, SlotOf);
            && OncePerSignature(planned)
            && OldestFirst(planned)
            && (forall u :: u in planned <==> u in updates)
  {
    var planned := Sorting.SortByKey(updates, SlotOf);
    Sorting.SortByKeySorts(updates, SlotOf);
    Sorting.SortByKeyPermutes(updates, SlotOf);
    forall i, j | 0 <= i < j < |planned| ensures planned[i].slot <= planned[j].slot {
      assert SlotOf(planned[i]) <= SlotOf(planned[j]);
    }
    forall u ensures u in planned <==> u in updates {
      assert u in multiset(planned) <==> u in multiset(updates);
    }
    OncePerSignatureIsAboutTheMultiset(updates, planned);
  }

  lemma TwoPlacesAreTwoCopies(updates: seq<Update>, i: nat, j: nat)
    requires i < j < |updates| && updates[i] == updates[j]
    ensures multiset(updates)[updates[i]] >= 2
  {
    assert updates == updates[..i] + [updates[i]] + updates[i + 1..j] + [updates[j]] + updates[j + 1..];
  }

  lemma OncePerSignatureIsAboutTheMultiset(first: seq<Update>, second: seq<Update>)
    requires OncePerSignature(first)
    requires multiset(first) == multiset(second)
    ensures OncePerSignature(second)
  {
    OnceMeansNoCopies(first);
    forall i, j | 0 <= i < j < |second| ensures second[i].signature != second[j].signature {
      assert second[i] in multiset(first) && second[j] in multiset(first);
      if second[i] == second[j] {
        TwoPlacesAreTwoCopies(second, i, j);
      }
    }
  }

  function AsTransactions(updates: seq<Update>): seq<PipelineUpdate> {
    seq(|updates|, i requires 0 <= i < |updates| => Transaction(updates[i]))
  }

  /** Sends until done or until the channel closes, suppressing each signature only
      once its update is queued. */
  method SendAll(planned: seq<Update>, sender: UpdateChannel, state: PollingState) returns (count: nat)
    modifies sender, state`recentSignatures
    ensures count <= |planned|
    ensures count < |planned| <==> old(sender.room).Some? && old(sender.room).value < |planned|
    ensures sender.queue == old(sender.queue) + AsTransactions(planned[..count])
    ensures state.recentSignatures == Recorded(old(state.recentSignatures), planned[..count])
  {
    count := 0;
    while count < |planned|
      invariant count <= |planned|
      invariant sender.room.Some? == old(sender.room).Some?
      invariant sender.room.Some? ==> sender.room.value + count == old(sender.room).value
      invariant sender.queue == old(sender.queue) + AsTransactions(planned[..count])
      invariant state.recentSignatures == Recorded(old(state.recentSignatures), planned[..count])
    {
      var update := planned[count];
      var accepted := sender.Send(Transaction(update));
      if !accepted {
        return;
      }
      assert planned[..count + 1][..count] == planned[..count];
      assert AsTransactions(planned[..count + 1]) == AsTransactions(planned[..count]) + [Transaction(update)];
      state.RecordRecentSignature(update.signature, update.slot);
      count := count + 1;
    }
  }

  method FindMinimumCursor(cursors: map<Address, u64>, otherwise: u64) returns (minimum: u64)
    ensures minimum == MinimumCursor(cursors, otherwise)
  {
    if cursors == map[] {
      return otherwise;
    }
    var remaining := cursors.Keys;
    var first :| first in remaining;
    minimum := cursors[first];
    while remaining != {}
      invariant remaining <= cursors.Keys
      invariant exists a :: a in cursors && cursors[a] == minimum
      invariant forall a :: a in cursors.Keys - remaining ==> minimum <= cursors[a]
    {
      var a :| a in remaining;
      remaining := remaining - {a};
      minimum := if cursors[a] < minimum then cursors[a] else minimum;
    }
    assert IsMinimum(cursors, minimum);
  }

  // ---------------------------------------------------------------------------
  // The poll
  // ---------------------------------------------------------------------------

  /** The answers a poll acts on are the ones this endpoint gives. */
  ghost predicate AnsweredBy(
    endpoint: Endpoint, addresses: seq<Address>, window: Window, pre: Progress, answers: Answers)
  {
    && endpoint.head == Some(answers.head)
    && DiscoveredFrom(endpoint, addresses, Initialized(pre.cursors, AddressSet(addresses), answers.head, window),
                      answers.head, window, answers.batches)
    && answers.outcomes == Fetches(endpoint, Listed(answers.batches) - pre.recent.Keys)
  }

  lemma ReadyTransactionsArePlanned(
      poison: map<Signature, PoisonFailure>, a: Answers, contexts: map<Signature, SignatureContext>,
      converted: seq<Update>, ready: seq<Update>, planned: seq<Update>)
    requires Describes(contexts, a.batches) && a.outcomes.Keys <= contexts.Keys
    requires Converted(converted, a.outcomes)
    requires forall u :: u in ready <==>
               && u in converted
               && SignatureIsReady(u.signature, contexts, Blocked(a.batches, Retrying(poison, a.outcomes)))
    requires OncePerSignature(planned) && OldestFirst(planned)
    requires forall u :: u in planned <==> u in ready
    ensures Planned(poison, a, planned)
  {
    forall s | Sendable(poison, a, s) ensures exists u :: u in planned && u.signature == s {
      var u := Update(s, a.outcomes[s].slot);
      assert u in converted;
      assert SignatureIsReady(s, contexts, Blocked(a.batches, Retrying(poison, a.outcomes)));
      assert u in planned;
    }
    forall u | u in planned ensures Sendable(poison, a, u.signature) && u.slot == a.outcomes[u.signature].slot {
      assert u in ready;
    }
  }

  /** From discovery to the end of the sends. */
  method FetchAndSend(
      endpoint: Endpoint, sender: UpdateChannel, state: PollingState, head: u64, batches: seq<AddressBatch>,
      contexts: map<Signature, SignatureContext>)
    returns (retrying: set<Signature>, count: nat, planned: seq<Update>, ghost answers: Answers)
    requires Describes(contexts, batches)
    modifies sender, state`poisonFailures, state`recentSignatures
    ensures answers == Answers(head, batches, Fetches(endpoint, Listed(batches) - old(state.recentSignatures).Keys))
    ensures Planned(old(state.poisonFailures), answers, planned)
    ensures count <= |planned|
    ensures count < |planned| ==> old(sender.room).Some?
    ensures sender.queue == old(sender.queue) + AsTransactions(planned[..count])
    ensures retrying == Retrying(old(state.poisonFailures), answers.outcomes)
    ensures state.poisonFailures == Judged(old(state.poisonFailures), answers.outcomes)
    ensures state.recentSignatures == Remembered(old(state.View()), answers, planned[..count])
  {
    var toFetch := SignaturesToFetch(contexts, state.recentSignatures);
    var fetched := FetchAll(endpoint, toFetch);
    answers := Answers(head, batches, Fetches(endpoint, toFetch));
    var converted;
    converted, retrying := JudgeAll(state, fetched, contexts, batches);
    BlockedAddressesAreBlocked(contexts, batches, retrying);
    var ready := RetainReady(converted, contexts, BlockedAddresses(contexts, retrying));
    planned := Sorting.SortByKey(ready, SlotOf);
    SortingKeepsSignaturesApart(ready);
    ReadyTransactionsArePlanned(old(state.poisonFailures), answers, contexts, converted, ready, planned);
    count := SendAll(planned, sender, state);
  }

  method Absorb(delivered: DeliveredSignatures?, state: PollingState)
    modifies state`recentSignatures, (if delivered == null then {} else {delivered})`pending
    ensures delivered != null ==> delivered.pending == []
    ensures state.recentSignatures ==
            Recorded(old(state.recentSignatures), if delivered == null then [] else old(delivered.pending))
  {
    if delivered == null {
      return;
    }
    var deliveries := delivered.Drain();
    for i := 0 to |deliveries|
      invariant delivered.pending == []
      invariant state.recentSignatures == Recorded(old(state.recentSignatures), deliveries[..i])
    {
      assert deliveries[..i + 1][..i] == deliveries[..i];
      state.RecordRecentSignature(deliveries[i].signature, deliveries[i].slot);
    }
    assert deliveries[..|deliveries|] == deliveries;
  }

  method InstallCursors(state: PollingState, addresses: seq<Address>, head: u64, window: Window) returns (initialized: bool)
    modifies state`cursors
    ensures state.cursors == Initialized(old(state.cursors), AddressSet(addresses), head, window)
    ensures initialized <==> !(AddressSet(addresses) <= old(state.cursors).Keys)
  {
    initialized := false;
    for i := 0 to |addresses|
      invariant state.cursors == Initialized(old(state.cursors), AddressSet(addresses[..i]), head, window)
      invariant initialized <==> !(AddressSet(addresses[..i]) <= old(state.cursors).Keys)
    {
      assert AddressSet(addresses[..i + 1]) == AddressSet(addresses[..i]) + {addresses[i]};
      if addresses[i] !in state.cursors {
        state.cursors := state.cursors[addresses[i] := SaturatingSub(head, window)];
        initialized := true;
      }
    }
    assert addresses[..|addresses|] == addresses;
  }

  /** The periodic check that the endpoint still holds the history behind every cursor.
      `Ok(true)` means the boundary was verified. */
  ghost predicate ReachesBack(endpoint: Endpoint, cursors: map<Address, u64>) {
    endpoint.boundaryAtCheck.Some?
    && forall a :: a in cursors ==> endpoint.boundaryAtCheck.value <= SaturatingAdd(cursors[a], 1)
  }

  method CheckHistoryBoundary(endpoint: Endpoint, state: PollingState, now: nat) returns (verified: Result<bool, PollError>)
    modifies state`lastHistoryBoundaryCheck
    ensures verified.Err? && verified.error.HistoryUnavailable? ==>
              && endpoint.boundaryAtCheck == Some(verified.error.firstAvailableSlot)
              && state.cursors != map[]
              && IsMinimum(state.cursors, verified.error.checkpointSlot)
              && verified.error.firstAvailableSlot > SaturatingAdd(verified.error.checkpointSlot, 1)
    ensures verified.Err? ==> !verified.error.ChannelClosed? && !verified.error.CursorAhead?
    ensures verified.Err? ==> !ReachesBack(endpoint, state.cursors)
    ensures verified == Ok(true) ==> ReachesBack(endpoint, state.cursors)
    ensures verified == Ok(false) <==>
              || state.cursors == map[]
              || (old(state.lastHistoryBoundaryCheck).Some? && now - old(state.lastHistoryBoundaryCheck).value < 60)
    ensures verified != Ok(false) ==>
              && (endpoint.boundaryAtCheck.None? <==> verified == Err(PollError.RequestFailed))
              && (endpoint.boundaryAtCheck.Some? && endpoint.boundaryAtCheck.value > SaturatingAdd(MinimumCursor(state.cursors, 0), 1) <==>
                    verified.Err? && verified.error.HistoryUnavailable?)
    ensures state.lastHistoryBoundaryCheck ==
            if verified == Ok(false) || endpoint.boundaryAtCheck.None? then old(state.lastHistoryBoundaryCheck) else Some(now)
  {
    if !state.HistoryBoundaryCheckDue(now, HISTORY_BOUNDARY_CHECK_INTERVAL) || state.cursors == map[] {
      return Ok(false);
    }
    var minimum := FindMinimumCursor(state.cursors, 0);
    if endpoint.boundaryAtCheck.None? {
      return Err(PollError.RequestFailed);
    }
    state.RecordHistoryBoundaryCheck(now);
    if endpoint.boundaryAtCheck.value > SaturatingAdd(minimum, 1) {
      return Err(HistoryUnavailable(endpoint.boundaryAtCheck.value, minimum));
    }
    return Ok(true);
  }

  /** What a poll that started from `pre` reports, and what it leaves behind. */
  ghost predicate Reports(
    endpoint: Endpoint, window: Window, addresses: seq<Address>, pre: Progress, post: Progress,
    result: Result<PollOutcome, PollError>, answers: Answers, planned: seq<Update>, sent: seq<Update>)
  {
    match result
    case Ok(outcome) =>
      && PollSucceeds(window, addresses, pre, post, answers, sent)
      && AnsweredBy(endpoint, addresses, window, pre, answers)
      && outcome.queuedTransactions == |sent|
      && (outcome.checkpointUrgent <==>
            || !(AddressSet(addresses) <= pre.cursors.Keys)
            || AdvancesWithActivity(answers.batches, Retrying(pre.poison, answers.outcomes)))
    case Err(error) =>
      && PollFails(window, addresses, pre, post, answers, planned, sent)
      && (NothingAnswered(answers) || AnsweredBy(endpoint, addresses, window, pre, answers))
      && Warrants(endpoint, addresses, error)
      && (error.ChannelClosed? ==> sent < planned)
      && (error.CursorAhead? ==> CursorAheadOfHead(pre.cursors, answers.head, window) && post == pre)
      && (error.HistoryUnavailable? ==>
            && error.firstAvailableSlot > SaturatingAdd(error.checkpointSlot, 1)
            && Some(error.firstAvailableSlot) in {endpoint.boundaryAtCheck, endpoint.boundaryAtScan}
            && exists a :: a in post.cursors && post.cursors[a] == error.checkpointSlot)
  }

  /** Nothing stands in a poll's way. */
  ghost predicate Healthy(endpoint: Endpoint, window: Window, addresses: seq<Address>, pre: Progress) {
    && endpoint.head.Some?
    && !CursorAheadOfHead(pre.cursors, endpoint.head.value, window)
    && var cursors := Initialized(pre.cursors, AddressSet(addresses), endpoint.head.value, window);
    && ReachesBack(endpoint, cursors)
    && Answering(endpoint, addresses, cursors, window)
  }

  ghost predicate NothingAnswered(answers: Answers) {
    answers.batches == [] && answers.outcomes == map[]
  }

  ghost predicate AdvancesWithActivity(batches: seq<AddressBatch>, retrying: set<Signature>) {
    exists b :: b in batches && b.signatures != [] && !HoldsRetry(b, retrying)
  }

  lemma BatchesFollowAddresses(
      endpoint: Endpoint, window: Window, addresses: seq<Address>, cursors: map<Address, u64>, head: u64, batches: seq<AddressBatch>)
    requires |batches| == |addresses|
    requires DiscoveredFrom(endpoint, addresses, cursors, head, window, batches)
    ensures forall i :: 0 <= i < |addresses| ==> batches[i].address == addresses[i]
  {
  }

  /** Everything sent: cursors advance, and suppression is trimmed to their reach. */
  method Conclude(
      window: Window, addresses: seq<Address>, state: PollingState, head: u64, batches: seq<AddressBatch>, retrying: set<Signature>,
      ghost pre: Progress, ghost answers: Answers, ghost sent: seq<Update>)
    returns (advancedWithActivity: bool)
    requires answers.head == head && answers.batches == batches
    requires !CursorAheadOfHead(pre.cursors, head, window)
    requires Asked(addresses, pre.recent, answers) && Planned(pre.poison, answers, sent)
    requires retrying == Retrying(pre.poison, answers.outcomes)
    requires state.View() == Progress(
               Initialized(pre.cursors, AddressSet(addresses), head, window), Remembered(pre, answers, sent), Judged(pre.poison, answers.outcomes))
    modifies state`cursors, state`recentSignatures
    ensures PollSucceeds(window, addresses, pre, state.View(), answers, sent)
    ensures advancedWithActivity <==> AdvancesWithActivity(batches, retrying)
  {
    advancedWithActivity := state.AdvanceReadyCursors(batches, retrying);
    var minimumScannedSlot := FindMinimumCursor(state.cursors, head);
    state.RetainSignaturesAfter(UnreachableBelow(minimumScannedSlot, window));
  }

  /** What a poll that asked everything, and sent `sent` of what it planned, knows. */
  ghost predicate AskedAndJudged(
    endpoint: Endpoint, window: Window, addresses: seq<Address>, pre: Progress, answers: Answers, planned: seq<Update>)
  {
    && AnsweredBy(endpoint, addresses, window, pre, answers)
    && !CursorAheadOfHead(pre.cursors, answers.head, window)
    && Asked(addresses, pre.recent, answers) && Planned(pre.poison, answers, planned)
  }

  lemma FetchedIsAskedAndJudged(
      endpoint: Endpoint, window: Window, addresses: seq<Address>, pre: Progress, answers: Answers, planned: seq<Update>,
      contexts: map<Signature, SignatureContext>)
    requires endpoint.head == Some(answers.head) && !CursorAheadOfHead(pre.cursors, answers.head, window)
    requires |answers.batches| == |addresses| && Describes(contexts, answers.batches)
    requires DiscoveredFrom(endpoint, addresses, Initialized(pre.cursors, AddressSet(addresses), answers.head, window),
                            answers.head, window, answers.batches)
    requires answers.outcomes == Fetches(endpoint, Listed(answers.batches) - pre.recent.Keys)
    requires Planned(pre.poison, answers, planned)
    ensures AskedAndJudged(endpoint, window, addresses, pre, answers, planned)
  {
    BatchesFollowAddresses(
      endpoint, window, addresses, Initialized(pre.cursors, AddressSet(addresses), answers.head, window), answers.head, answers.batches);
  }

  lemma InterruptionIsReported(
      endpoint: Endpoint, window: Window, addresses: seq<Address>, pre: Progress, post: Progress, answers: Answers,
      planned: seq<Update>, sent: seq<Update>)
    requires AskedAndJudged(endpoint, window, addresses, pre, answers, planned) && sent < planned
    requires post == Progress(
               Initialized(pre.cursors, AddressSet(addresses), answers.head, window), Remembered(pre, answers, sent),
               Judged(pre.poison, answers.outcomes))
    ensures Reports(endpoint, window, addresses, pre, post, Err(ChannelClosed), answers, planned, sent)
  {
  }

  /** The poll from the first fetch on. */
  method SendDiscovered(
      endpoint: Endpoint, window: Window, addresses: seq<Address>, sender: UpdateChannel, state: PollingState, head: u64,
      batches: seq<AddressBatch>, contexts: map<Signature, SignatureContext>, initialized: bool, boundaryVerified: bool, ghost pre: Progress)
    returns (result: Result<PollOutcome, PollError>, ghost answers: Answers, ghost planned: seq<Update>, ghost sent: seq<Update>)
    requires endpoint.head == Some(head)
    requires !CursorAheadOfHead(pre.cursors, head, window)
    requires initialized <==> !(AddressSet(addresses) <= pre.cursors.Keys)
    requires state.View() == pre.(cursors := Initialized(pre.cursors, AddressSet(addresses), head, window))
    requires |batches| == |addresses| && Describes(contexts, batches)
    requires DiscoveredFrom(endpoint, addresses, state.cursors, head, window, batches)
    modifies state, sender
    ensures sender.queue == old(sender.queue) + AsTransactions(sent)
    ensures Reports(endpoint, window, addresses, pre, state.View(), result, answers, planned, sent)
    ensures result.Err? ==> old(sender.room).Some?
    ensures answers.head == head && answers.batches == batches
    ensures result.Ok? ==> result.value.historyBoundaryVerified == boundaryVerified
    ensures state.lastHistoryBoundaryCheck == old(state.lastHistoryBoundaryCheck)
  {
    var retrying, count, queued;
    retrying, count, queued, answers := FetchAndSend(endpoint, sender, state, head, batches, contexts);
    planned, sent := queued, queued[..count];
    FetchedIsAskedAndJudged(endpoint, window, addresses, pre, answers, planned, contexts);
    if count < |queued| {
      InterruptionIsReported(endpoint, window, addresses, pre, state.View(), answers, planned, sent);
      return Err(ChannelClosed), answers, planned, sent;
    }
    assert sent == planned;

    var advancedWithActivity := Conclude(window, addresses, state, head, batches, retrying, pre, answers, sent);
    return Ok(PollOutcome(count, initialized || advancedWithActivity, boundaryVerified)), answers, planned, sent;
  }

  /** The poll from discovery on, with every cursor installed. */
  method ScanAndSend(
      endpoint: Endpoint, window: Window, addresses: seq<Address>, sender: UpdateChannel, state: PollingState,
      head: u64, initialized: bool, boundaryVerified: bool, ghost pre: Progress)
    returns (result: Result<PollOutcome, PollError>, ghost answers: Answers, ghost planned: seq<Update>, ghost sent: seq<Update>)
    requires ServesDistinct(endpoint)
    requires endpoint.head == Some(head)
    requires !CursorAheadOfHead(pre.cursors, head, window)
    requires initialized <==> !(AddressSet(addresses) <= pre.cursors.Keys)
    requires state.View() == pre.(cursors := Initialized(pre.cursors, AddressSet(addresses), head, window))
    modifies state, sender
    ensures sender.queue == old(sender.queue) + AsTransactions(sent)
    ensures Reports(endpoint, window, addresses, pre, state.View(), result, answers, planned, sent)
    ensures result.Err? && old(sender.room).None? ==> !Answering(endpoint, addresses, old(state.cursors), window)
    ensures answers.head == head
    ensures result.Ok? ==> (result.value.historyBoundaryVerified <==> boundaryVerified || StopsShort(answers.batches))
    ensures state.lastHistoryBoundaryCheck == old(state.lastHistoryBoundaryCheck)
  {
    answers, planned, sent := Answers(head, [], map[]), [], [];
    var error, batches, contexts, scanVerified := DiscoverAll(endpoint, addresses, state.cursors, head, window);
    if error.Some? {
      return Err(error.value), answers, planned, sent;
    }
    result, answers, planned, sent :=
      SendDiscovered(endpoint, window, addresses, sender, state, head, batches, contexts, initialized, boundaryVerified || scanVerified, pre);
  }

  /** The poll from a plausible head on. */
  method PollFrom(
      endpoint: Endpoint, window: Window, addresses: seq<Address>, sender: UpdateChannel, state: PollingState, now: nat, head: u64)
    returns (result: Result<PollOutcome, PollError>, ghost answers: Answers, ghost planned: seq<Update>, ghost sent: seq<Update>)
    requires ServesDistinct(endpoint)
    requires endpoint.head == Some(head) && !CursorAheadOfHead(state.cursors, head, window)
    modifies state, sender
    ensures sender.queue == old(sender.queue) + AsTransactions(sent)
    ensures Reports(endpoint, window, addresses, old(state.View()), state.View(), result, answers, planned, sent)
    ensures Healthy(endpoint, window, addresses, old(state.View())) && old(sender.room).None? ==> result.Ok?
    ensures answers.head == head
    ensures result != Err(CursorAhead)
    ensures result.Ok? ==>
              (result.value.historyBoundaryVerified <==>
                 || (&& (|| old(state.lastHistoryBoundaryCheck).None?
                         || now - old(state.lastHistoryBoundaryCheck).value >= 60)
                     && Initialized(old(state.cursors), AddressSet(addresses), head, window) != map[])
                 || StopsShort(answers.batches))
  {
    answers, planned, sent := Answers(head, [], map[]), [], [];
    ghost var pre := state.View();
    var initialized := InstallCursors(state, addresses, head, window);
    var verified := CheckHistoryBoundary(endpoint, state, now);
    if verified.Err? {
      return Err(verified.error), answers, planned, sent;
    }
    result, answers, planned, sent :=
      ScanAndSend(endpoint, window, addresses, sender, state, head, initialized, verified.value, pre);
  }

  /** One poll. Deliveries are absorbed before anything can fail; after that the poll
      either does all of PollSucceeds or stops as PollFails describes. */
  method Poll(
      endpoint: Endpoint, window: Window, addresses: seq<Address>, delivered: DeliveredSignatures?,
      sender: UpdateChannel, state: PollingState, now: nat)
    returns (result: Result<PollOutcome, PollError>, ghost answers: Answers, ghost planned: seq<Update>, ghost sent: seq<Update>)
    requires ServesDistinct(endpoint)
    modifies state, sender, (if delivered == null then {} else {delivered})`pending
    ensures delivered != null ==> delivered.pending == []
    ensures sender.queue == old(sender.queue) + AsTransactions(sent)
    ensures var pre := Absorbed(old(state.View()), if delivered == null then [] else old(delivered.pending));
            && Reports(endpoint, window, addresses, pre, state.View(), result, answers, planned, sent)
            && (Healthy(endpoint, window, addresses, pre) && old(sender.room).None? ==> result.Ok?)
            && (result == Err(CursorAhead) <==>
                  endpoint.head.Some? && exists a :: a in pre.cursors && pre.cursors[a] > endpoint.head.value + window)
    ensures result.Ok? ==>
              (result.value.historyBoundaryVerified <==>
                 || (&& (|| old(state.lastHistoryBoundaryCheck).None?
                         || now - old(state.lastHistoryBoundaryCheck).value >= 60)
                     && Initialized(old(state.cursors), AddressSet(addresses), answers.head, window) != map[])
                 || StopsShort(answers.batches))
  {
    answers, planned, sent := Answers(0, [], map[]), [], [];
    Absorb(delivered, state);
    if endpoint.head.None? {
      return Err(PollError.RequestFailed), answers, planned, sent;
    }
    var head := endpoint.head.value;
    answers := Answers(head, [], map[]);
    if CursorAheadOfHead(state.cursors, head, window) {
      return Err(CursorAhead), answers, planned, sent;
    }
    result, answers, planned, sent := PollFrom(endpoint, window, addresses, sender, state, now, head);
  }
}
