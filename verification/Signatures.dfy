/** Paged discovery of the signatures that touch one address
    (rpc_polling/signatures.rs). */
module Signatures {
  import opened Primitives

  const SIGNATURE_PAGE_LIMIT: nat := 1_000
  const REPLICA_SKEW_SLOTS: u64 := 32

  /** One line of an address index. `None` is a text that is not a signature. */
  datatype IndexEntry = IndexEntry(slot: u64, signature: Option<Signature>)

  /** What the endpoint serves for one address: its whole index, and the number of
      the page request that fails, if one does. */
  datatype IndexService = IndexService(entries: seq<IndexEntry>, outage: Option<nat>)

  datatype Discovered = Discovered(signature: Signature, slot: u64)

  datatype AddressBatch = AddressBatch(
    address: Address,
    signatures: seq<Discovered>,
    nextCursor: u64,
    reachedReplayFloor: bool)

  datatype DiscoveryError = RequestFailed | InvalidSignature

  // ---------------------------------------------------------------------------
  // Slot arithmetic
  // ---------------------------------------------------------------------------

  function Floor(cursor: u64, window: u64): u64 {
    SaturatingSub(cursor, window)
  }

  function MinContextSlot(head: u64, window: u64): u64 {
    SaturatingSub(head, Min(REPLICA_SKEW_SLOTS, window))
  }

  function NextCursor(head: u64, newest: Option<u64>, cursor: u64): u64 {
    Max(head, if newest.Some? then newest.value else cursor)
  }

  /** What a batch commits: never less than the head or than anything it lists, and, if
      it lists nothing, never less than the old cursor; and nothing made up. */
  ghost predicate Commits(batch: AddressBatch, cursor: u64, head: u64) {
    && batch.nextCursor >= head
    && (batch.signatures != [] ==>
          batch.nextCursor >= batch.signatures[0].slot && batch.nextCursor in {head, batch.signatures[0].slot})
    && (batch.signatures == [] ==> batch.nextCursor >= cursor && batch.nextCursor in {head, cursor})
  }

  /** A replica may answer exactly if it trails the head by at most 32 slots and by at
      most one window. */
  lemma LaggingReplicasMayAnswer(head: u64, window: u64, context: u64)
    ensures context >= MinContextSlot(head, window) <==> context + 32 >= head && context + window >= head
  {
  }

  /** A poll that got past the plausibility guard never commits behind the head, and
      never rewinds a cursor by more than one window. */
  lemma NextCursorRewindsAtMostOneWindow(head: u64, newest: Option<u64>, cursor: u64, window: u64)
    requires cursor <= SaturatingAdd(head, window)
    ensures NextCursor(head, newest, cursor) >= head
    ensures NextCursor(head, newest, cursor) >= SaturatingSub(cursor, window)
  {
  }

  /** Whatever a replica trailing the head omits stays above the floor of the next
      poll. A cursor that did not move keeps its old floor instead. */
  lemma OmittedSlotStaysAboveNextFloor(
      head: u64, newest: Option<u64>, cursor: u64, window: u64, context: u64, slot: u64)
    requires context >= MinContextSlot(head, window)
    requires newest.Some? ==> newest.value <= context
    requires slot > context
    ensures var next := NextCursor(head, newest, cursor);
            next != cursor ==> slot > Floor(next, window)
  {
  }

  // ---------------------------------------------------------------------------
  // The index as one list
  // ---------------------------------------------------------------------------

  ghost predicate NewestFirst(entries: seq<IndexEntry>) {
    forall i, j :: 0 <= i < j < |entries| ==> entries[i].slot >= entries[j].slot
  }

  ghost predicate DistinctSignatures(entries: seq<IndexEntry>) {
    forall i, j :: 0 <= i < j < |entries| && entries[i].signature.Some? ==>
      entries[i].signature != entries[j].signature
  }

  /** The unpaged form of discovery: read the list from its newest entry down to the
      first one at or below the floor. */
  function Scan(entries: seq<IndexEntry>, floor: u64): Result<seq<Discovered>, DiscoveryError> {
    if entries == [] || entries[0].slot <= floor then
      Ok([])
    else if entries[0].signature.None? then
      Err(InvalidSignature)
    else
      match Scan(entries[1..], floor)
      case Err(error) => Err(error)
      case Ok(rest) => Ok([Discovered(entries[0].signature.value, entries[0].slot)] + rest)
  }

  function Newest(signatures: seq<Discovered>): Option<u64> {
    if signatures == [] then None else Some(signatures[0].slot)
  }

  function BatchOf(address: Address, signatures: seq<Discovered>, reached: bool, cursor: u64, head: u64): AddressBatch {
    AddressBatch(address, signatures, NextCursor(head, Newest(signatures), cursor), reached)
  }

  ghost predicate ReachesFloor(entries: seq<IndexEntry>, floor: u64) {
    exists i :: 0 <= i < |entries| && entries[i].slot <= floor
  }

  function Prepend(earlier: seq<Discovered>, later: Result<seq<Discovered>, DiscoveryError>): Result<seq<Discovered>, DiscoveryError> {
    match later
    case Err(error) => Err(error)
    case Ok(found) => Ok(earlier + found)
  }

  lemma PrependNothing(later: Result<seq<Discovered>, DiscoveryError>)
    ensures Prepend([], later) == later
  {
    if later.Ok? {
      assert [] + later.value == later.value;
    }
  }

  /** Scanning a split list: the first part settles the scan when it fails or reaches
      the floor, and otherwise the scan continues into the second. */
  lemma {:induction false} ScanSplits(first: seq<IndexEntry>, second: seq<IndexEntry>, floor: u64)
    ensures Scan(first + second, floor) ==
            if Scan(first, floor).Err? || ReachesFloor(first, floor) then Scan(first, floor)
            else Prepend(Scan(first, floor).value, Scan(second, floor))
  {
    if first == [] {
      assert first + second == second;
      PrependNothing(Scan(second, floor));
    } else {
      assert (first + second)[1..] == first[1..] + second;
      ScanSplits(first[1..], second, floor);
      if first[0].slot > floor {
        if ReachesFloor(first, floor) {
          var i :| 0 <= i < |first| && first[i].slot <= floor;
          assert first[1..][i - 1] == first[i];
        }
        if ReachesFloor(first[1..], floor) {
          var i :| 0 <= i < |first[1..]| && first[1..][i].slot <= floor;
          assert first[i + 1] == first[1..][i];
        }
        if first[0].signature.Some? && Scan(first[1..], floor).Ok? && Scan(second, floor).Ok? {
          var head := [Discovered(first[0].signature.value, first[0].slot)];
          assert (head + Scan(first[1..], floor).value) + Scan(second, floor).value
              == head + (Scan(first[1..], floor).value + Scan(second, floor).value);
        }
      }
    }
  }

  /** On a newest-first index the simple form finds exactly the entries above the
      floor, in order; the first one found is the newest slot, and the floor was
      reached exactly when some entry lies at or below it. */
  lemma {:induction false} ScanFindsExactlyWhatIsAboveTheFloor(entries: seq<IndexEntry>, floor: u64)
    requires NewestFirst(entries)
    requires Scan(entries, floor).Ok?
    ensures var found := Scan(entries, floor).value;
            && |found| <= |entries|
            && (forall i :: 0 <= i < |found| ==>
                  entries[i] == IndexEntry(found[i].slot, Some(found[i].signature)) && found[i].slot > floor)
            && (forall i :: |found| <= i < |entries| ==> entries[i].slot <= floor)
            && (forall i :: 0 <= i < |found| ==> found[i].slot <= found[0].slot)
  {
    if entries == [] {
    } else if entries[0].slot <= floor {
      assert forall i :: 0 <= i < |entries| ==> entries[i].slot <= entries[0].slot;
    } else {
      ScanFindsExactlyWhatIsAboveTheFloor(entries[1..], floor);
      var rest := Scan(entries[1..], floor).value;
      var found := Scan(entries, floor).value;
      assert found[1..] == rest;
      forall i | 0 <= i < |found|
        ensures entries[i] == IndexEntry(found[i].slot, Some(found[i].signature)) && found[i].slot > floor
        ensures found[i].slot <= found[0].slot
      {
        if i > 0 {
          assert found[i] == rest[i - 1] && entries[i] == entries[1..][i - 1];
        }
      }
      forall i | |found| <= i < |entries| ensures entries[i].slot <= floor {
        assert entries[i] == entries[1..][i - 1];
      }
    }
  }

  /** In whatever order it is served, a scan lists only what the index holds. */
  lemma {:induction false} ScannedIsIndexed(entries: seq<IndexEntry>, floor: u64, d: Discovered)
    requires Scan(entries, floor).Ok? && d in Scan(entries, floor).value
    ensures IndexEntry(d.slot, Some(d.signature)) in entries
  {
    if d != Discovered(entries[0].signature.value, entries[0].slot) {
      ScannedIsIndexed(entries[1..], floor, d);
    }
  }

  /** The only thing wrong with an index is a text above the floor that is no signature. */
  lemma {:induction false} ScansFailOnTexts(entries: seq<IndexEntry>, floor: u64)
    ensures Scan(entries, floor).Err? ==>
              Scan(entries, floor).error == InvalidSignature && exists e :: e in entries && e.signature.None? && e.slot > floor
  {
    if entries != [] && Scan(entries, floor).Err? {
      if entries[0].signature.Some? {
        ScansFailOnTexts(entries[1..], floor);
        var e :| e in entries[1..] && e.signature.None? && e.slot > floor;
        assert e in entries;
      } else {
        assert entries[0] in entries;
      }
    }
  }

  // ---------------------------------------------------------------------------
  // Pages
  // ---------------------------------------------------------------------------

  function PositionAfter(entries: seq<IndexEntry>, before: Signature): (p: nat)
    ensures p <= |entries|
  {
    if entries == [] then 0
    else if entries[0].signature == Some(before) then 1
    else 1 + PositionAfter(entries[1..], before)
  }

  /** How the endpoint answers: up to one page of entries older than `before`. */
  function Page(entries: seq<IndexEntry>, before: Option<Signature>): seq<IndexEntry> {
    var start := if before.None? then 0 else PositionAfter(entries, before.value);
    entries[start..Min(start + SIGNATURE_PAGE_LIMIT, |entries|)]
  }

  /** A page holds a thousand entries, unless fewer are left. */
  lemma PagesAreFull(entries: seq<IndexEntry>, before: Option<Signature>)
    ensures var start := if before.None? then 0 else PositionAfter(entries, before.value);
            |Page(entries, before)| == if |entries| - start >= 1000 then 1000 else |entries| - start
  {
  }

  lemma {:induction false} PositionAfterFindsTheOnlyOccurrence(entries: seq<IndexEntry>, k: nat)
    requires DistinctSignatures(entries)
    requires k < |entries| && entries[k].signature.Some?
    ensures PositionAfter(entries, entries[k].signature.value) == k + 1
  {
    if k > 0 {
      assert entries[0].signature != entries[k].signature;
      assert entries[k] == entries[1..][k - 1];
      PositionAfterFindsTheOnlyOccurrence(entries[1..], k - 1);
    }
  }

  /** Appends one page, stopping at the floor. `reached` is the Rust function's
      success value; an unparsable text above the floor fails the whole poll. */
  method AppendSignaturePage(page: seq<IndexEntry>, floor: u64, found: seq<Discovered>, newestSoFar: Option<u64>)
    returns (reached: Result<bool, DiscoveryError>, signatures: seq<Discovered>, newest: Option<u64>)
    requires newestSoFar == Newest(found)
    ensures newest == Newest(signatures)
    ensures reached.Err? ==> Scan(page, floor) == Err(reached.error)
    ensures reached.Ok? ==> Prepend(found, Scan(page, floor)) == Ok(signatures)
    ensures reached.Ok? ==> (reached.value <==> ReachesFloor(page, floor))
  {
    signatures, newest := found, newestSoFar;
    ghost var added := [];
    assert page[0..] == page;
    PrependNothing(Scan(page, floor));
    for i := 0 to |page|
      invariant newest == Newest(signatures)
      invariant signatures == found + added
      invariant forall j :: 0 <= j < i ==> page[j].slot > floor
      invariant Scan(page, floor) == Prepend(added, Scan(page[i..], floor))
    {
      var entry := page[i];
      ReadsOneMore(page, i, added, floor);
      if entry.slot <= floor {
        return Ok(true), signatures, newest;
      }
      if entry.signature.None? {
        return Err(InvalidSignature), signatures, newest;
      }
      if newest.None? {
        newest := Some(entry.slot);
      }
      var discovered := Discovered(entry.signature.value, entry.slot);
      signatures := signatures + [discovered];
      added := added + [discovered];
    }
    assert added + [] == added;
    return Ok(false), signatures, newest;
  }

  lemma ReadsOneMore(page: seq<IndexEntry>, i: nat, added: seq<Discovered>, floor: u64)
    requires i < |page| && Scan(page, floor) == Prepend(added, Scan(page[i..], floor))
    ensures page[i].slot <= floor ==> Scan(page, floor) == Ok(added)
    ensures page[i].slot > floor && page[i].signature.None? ==> Scan(page, floor) == Err(InvalidSignature)
    ensures page[i].slot > floor && page[i].signature.Some? ==>
              Scan(page, floor)
              == Prepend(added + [Discovered(page[i].signature.value, page[i].slot)], Scan(page[i + 1..], floor))
  {
    assert page[i..][0] == page[i] && page[i..][1..] == page[i + 1..];
    assert added + [] == added;
    if page[i].slot > floor && page[i].signature.Some? && Scan(page[i + 1..], floor).Ok? {
      var d, rest := Discovered(page[i].signature.value, page[i].slot), Scan(page[i + 1..], floor).value;
      assert added + ([d] + rest) == added + [d] + rest;
    }
  }

  /** What reading entries [read, end) adds to a scan that has come as far as `read`. */
  lemma ScanAdvances(entries: seq<IndexEntry>, read: nat, end: nat, earlier: seq<Discovered>, floor: u64)
    requires read <= end <= |entries|
    requires Scan(entries, floor) == Prepend(earlier, Scan(entries[read..], floor))
    ensures var page := entries[read..end];
            if Scan(page, floor).Err? || ReachesFloor(page, floor) then
              Scan(entries, floor) == Prepend(earlier, Scan(page, floor))
            else
              Scan(entries, floor) == Prepend(earlier + Scan(page, floor).value, Scan(entries[end..], floor))
  {
    var page := entries[read..end];
    assert entries[read..] == page + entries[end..];
    ScanSplits(page, entries[end..], floor);
    if Scan(page, floor).Ok? && !ReachesFloor(page, floor) && Scan(entries[end..], floor).Ok? {
      var rest := Scan(entries[end..], floor).value;
      assert earlier + (Scan(page, floor).value + rest) == earlier + Scan(page, floor).value + rest;
    }
  }

  lemma ReachesFloorInPart(entries: seq<IndexEntry>, read: nat, end: nat, floor: u64)
    requires read <= end <= |entries|
    ensures ReachesFloor(entries[read..end], floor) ==> ReachesFloor(entries, floor)
    ensures !ReachesFloor(entries[..read], floor) && !ReachesFloor(entries[read..end], floor) ==>
              !ReachesFloor(entries[..end], floor)
  {
    if ReachesFloor(entries[read..end], floor) {
      var i :| 0 <= i < end - read && entries[read..end][i].slot <= floor;
      assert entries[read + i].slot <= floor;
    } else if !ReachesFloor(entries[..read], floor) {
      forall i | 0 <= i < end ensures entries[..end][i].slot > floor {
        if i < read {
          assert entries[..end][i] == entries[..read][i];
        } else {
          assert entries[..end][i] == entries[read..end][i - read];
        }
      }
    }
  }

  lemma {:induction false} ScanKeepsTheLast(above: seq<IndexEntry>, floor: u64)
    requires above != []
    requires !ReachesFloor(above, floor)
    requires Scan(above, floor).Ok?
    ensures var found := Scan(above, floor).value;
            |found| == |above| && above[|above| - 1].signature == Some(found[|found| - 1].signature)
  {
    if |above| > 1 {
      forall i | 0 <= i < |above[1..]| ensures above[1..][i].slot > floor {
        assert above[1..][i] == above[i + 1];
      }
      ScanKeepsTheLast(above[1..], floor);
    }
  }

  /** The scan has come as far as `read`, all of it above the floor, and found
      `signatures`. */
  ghost predicate HasRead(entries: seq<IndexEntry>, read: nat, signatures: seq<Discovered>, floor: u64) {
    && read <= |entries|
    && !ReachesFloor(entries[..read], floor)
    && Scan(entries, floor) == Prepend(signatures, Scan(entries[read..], floor))
  }

  lemma PageContinues(entries: seq<IndexEntry>, read: nat, end: nat, earlier: seq<Discovered>, later: seq<Discovered>, floor: u64)
    requires HasRead(entries, read, earlier, floor) && read < end <= |entries|
    requires !ReachesFloor(entries[read..end], floor)
    requires Prepend(earlier, Scan(entries[read..end], floor)) == Ok(later)
    ensures HasRead(entries, end, later, floor)
    ensures later != [] && entries[end - 1].signature == Some(later[|later| - 1].signature)
  {
    ScanAdvances(entries, read, end, earlier, floor);
    ReachesFloorInPart(entries, read, end, floor);
    ScanKeepsTheLast(entries[read..end], floor);
  }

  lemma PageSettles(entries: seq<IndexEntry>, read: nat, end: nat, earlier: seq<Discovered>, floor: u64)
    requires HasRead(entries, read, earlier, floor) && read <= end <= |entries|
    requires var page := entries[read..end]; Scan(page, floor).Err? || ReachesFloor(page, floor)
    ensures Scan(entries, floor) == Prepend(earlier, Scan(entries[read..end], floor))
    ensures ReachesFloor(entries[read..end], floor) ==> ReachesFloor(entries, floor)
  {
    ScanAdvances(entries, read, end, earlier, floor);
    ReachesFloorInPart(entries, read, end, floor);
  }

  lemma EndSettles(entries: seq<IndexEntry>, signatures: seq<Discovered>, floor: u64)
    requires HasRead(entries, |entries|, signatures, floor)
    ensures Scan(entries, floor) == Ok(signatures) && !ReachesFloor(entries, floor)
  {
    assert entries[|entries|..] == [] && entries[..|entries|] == entries;
    assert signatures + [] == signatures;
  }

  lemma PageIsTheNextPart(entries: seq<IndexEntry>, before: Option<Signature>, read: nat)
    requires DistinctSignatures(entries) && read <= |entries|
    requires if before.None? then read == 0 else read > 0 && entries[read - 1].signature == before
    ensures Page(entries, before) == entries[read..Min(read + SIGNATURE_PAGE_LIMIT, |entries|)]
  {
    if before.Some? {
      PositionAfterFindsTheOnlyOccurrence(entries, read - 1);
    }
  }

  ghost predicate IsWholeScan(batch: AddressBatch, address: Address, entries: seq<IndexEntry>, cursor: u64, head: u64, window: u64) {
    var floor := Floor(cursor, window);
    && Scan(entries, floor).Ok?
    && batch == BatchOf(address, Scan(entries, floor).value, ReachesFloor(entries, floor), cursor, head)
  }

  /** The batch is this address's, and says whether the index goes back to the floor. */
  ghost predicate TellsOf(batch: AddressBatch, address: Address, entries: seq<IndexEntry>, cursor: u64, window: u64) {
    && batch.address == address
    && (batch.reachedReplayFloor <==> exists i :: 0 <= i < |entries| && entries[i].slot <= SaturatingSub(cursor, window))
  }

  lemma WholeScansCommit(batch: AddressBatch, address: Address, entries: seq<IndexEntry>, cursor: u64, head: u64, window: u64)
    requires IsWholeScan(batch, address, entries, cursor, head, window)
    ensures Commits(batch, cursor, head) && TellsOf(batch, address, entries, cursor, window)
    ensures NewestFirst(entries) ==> forall d :: d in batch.signatures ==> cursor < d.slot + window && d.slot <= batch.nextCursor
  {
    if NewestFirst(entries) {
      ScanFindsExactlyWhatIsAboveTheFloor(entries, Floor(cursor, window));
    }
  }

  /** The page loop refines the unpaged form: without an outage it returns exactly
      what one scan of the whole index would, whatever the page boundaries. */
  method DiscoverSignatures(address: Address, service: IndexService, cursor: u64, head: u64, window: u64)
    returns (batch: Result<AddressBatch, DiscoveryError>)
    requires DistinctSignatures(service.entries)
    ensures batch.Ok? ==> IsWholeScan(batch.value, address, service.entries, cursor, head, window)
    ensures batch.Ok? ==> Commits(batch.value, cursor, head) && TellsOf(batch.value, address, service.entries, cursor, window)
    ensures batch.Err? ==>
              || (batch.error.RequestFailed? && service.outage.Some?)
              || Scan(service.entries, Floor(cursor, window)) == Err(batch.error)
  {
    var floor := Floor(cursor, window);
    var before := None;
    var signatures := [];
    var newestSlot := None;
    var reachedReplayFloor := false;
    var requests := 0;
    ghost var entries := service.entries;
    ghost var read: nat := 0;
    assert entries[0..] == entries && entries[..0] == [];
    PrependNothing(Scan(entries, floor));

    while true
      invariant HasRead(entries, read, signatures, floor)
      invariant newestSlot == Newest(signatures)
      invariant if before.None? then read == 0 else read > 0 && entries[read - 1].signature == before
      decreases |entries| - read
    {
      if service.outage == Some(requests) {
        return Err(RequestFailed);
      }
      requests := requests + 1;
      var page := Page(service.entries, before);
      PageIsTheNextPart(entries, before, read);
      ghost var end := read + |page|;
      if page == [] {
        break;
      }

      ghost var earlier := signatures;
      var reached;
      reached, signatures, newestSlot := AppendSignaturePage(page, floor, signatures, newestSlot);
      if reached.Err? {
        PageSettles(entries, read, end, earlier, floor);
        return Err(reached.error);
      }
      if reached.value {
        PageSettles(entries, read, end, earlier, floor);
        reachedReplayFloor := true;
        break;
      }

      PageContinues(entries, read, end, earlier, signatures, floor);
      read := end;
      if |page| < SIGNATURE_PAGE_LIMIT {
        break;
      }
      if signatures == [] {
        break;
      }
      before := Some(signatures[|signatures| - 1].signature);
    }
    if !reachedReplayFloor {
      EndSettles(entries, signatures, floor);
    }
    var whole := BatchOf(address, signatures, reachedReplayFloor, cursor, head);
    WholeScansCommit(whole, address, entries, cursor, head, window);
    return Ok(whole);
  }
}
