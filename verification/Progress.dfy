/** The poller's in-memory progress (rpc_polling/progress.rs): cursors, suppressed
    signatures and the failure counts that lead to quarantine. */
module Progress {
  import opened Primitives
  import opened Signatures

  const MAX_TRANSACTION_FAILURE_ATTEMPTS: u32 := 5

  datatype PoisonFailure = PoisonFailure(attempts: u32, quarantined: bool)

  datatype FailureDisposition = FailureDisposition(attempts: u32, quarantined: bool, newlyQuarantined: bool)

  datatype SignatureContext = SignatureContext(slot: u64, addresses: set<Address>)

  /** A transaction handed to the pipeline, or delivered by the stream. */
  datatype Update = Update(signature: Signature, slot: u64)

  /** The value a PollingState holds; what the protocol reasons about. */
  datatype Progress = Progress(
    cursors: map<Address, u64>,
    recent: map<Signature, u64>,
    poison: map<Signature, PoisonFailure>)

  // ---------------------------------------------------------------------------
  // Recent signatures
  // ---------------------------------------------------------------------------

  function Recorded(recent: map<Signature, u64>, updates: seq<Update>): map<Signature, u64> {
    if updates == [] then recent
    else
      var last := updates[|updates| - 1];
      Recorded(recent, updates[..|updates| - 1])[last.signature := last.slot]
  }

  function Retained(recent: map<Signature, u64>, minimumSlot: u64): map<Signature, u64> {
    map s | s in recent && recent[s] > minimumSlot :: recent[s]
  }

  // ---------------------------------------------------------------------------
  // Cursors
  // ---------------------------------------------------------------------------

  predicate Lists(batch: AddressBatch, signature: Signature) {
    exists d :: d in batch.signatures && d.signature == signature
  }

  predicate HoldsRetry(batch: AddressBatch, retrying: set<Signature>) {
    exists d :: d in batch.signatures && d.signature in retrying
  }

  function Advanced(cursors: map<Address, u64>, batches: seq<AddressBatch>, retrying: set<Signature>): map<Address, u64> {
    if batches == [] then cursors
    else
      var last := batches[|batches| - 1];
      var earlier := Advanced(cursors, batches[..|batches| - 1], retrying);
      if HoldsRetry(last, retrying) then earlier else earlier[last.address := last.nextCursor]
  }

  ghost predicate DistinctAddresses(batches: seq<AddressBatch>) {
    forall i, j :: 0 <= i < j < |batches| ==> batches[i].address != batches[j].address
  }

  /** Each address is decided by its own batch alone: held where a retry is pending,
      committed to that batch's next cursor otherwise. */
  lemma {:induction false} AdvancedPointwise(cursors: map<Address, u64>, batches: seq<AddressBatch>, retrying: set<Signature>, address: Address)
    requires DistinctAddresses(batches)
    requires forall b :: b in batches ==> b.address in cursors
    ensures Advanced(cursors, batches, retrying).Keys == cursors.Keys
    ensures address in cursors && (forall b :: b in batches ==> b.address != address) ==>
              Advanced(cursors, batches, retrying)[address] == cursors[address]
    ensures forall b :: b in batches && b.address == address ==>
              Advanced(cursors, batches, retrying)[address]
              == if HoldsRetry(b, retrying) then cursors[address] else b.nextCursor
  {
    if batches != [] {
      var n := |batches| - 1;
      AdvancedPointwise(cursors, batches[..n], retrying, address);
      forall b | b in batches && b.address == address
        ensures Advanced(cursors, batches, retrying)[address]
             == if HoldsRetry(b, retrying) then cursors[address] else b.nextCursor
      {
        var i :| 0 <= i < |batches| && batches[i] == b;
        if i == n {
          forall c | c in batches[..n] ensures c.address != address {
            var j :| 0 <= j < n && batches[j] == c;
          }
        } else {
          assert b in batches[..n];
          assert batches[n].address != address;
        }
      }
    }
  }

  predicate SignatureIsReady(
    signature: Signature, contexts: map<Signature, SignatureContext>, blockedAddresses: set<Address>)
  {
    signature in contexts && contexts[signature].addresses !! blockedAddresses
  }

  // ---------------------------------------------------------------------------
  // Poison and quarantine
  // ---------------------------------------------------------------------------

  function Lookup(poison: map<Signature, PoisonFailure>, signature: Signature): Option<PoisonFailure> {
    if signature in poison then Some(poison[signature]) else None
  }

  function Quarantined(poison: map<Signature, PoisonFailure>): set<Signature> {
    set s | s in poison && poison[s].quarantined
  }

  function AfterPoison(failure: Option<PoisonFailure>, maximumAttempts: u32): PoisonFailure {
    var known := if failure.Some? then failure.value else PoisonFailure(0, false);
    if known.quarantined then known
    else
      var attempts: u32 := if known.attempts == MAX_U32 then MAX_U32 else known.attempts + 1;
      PoisonFailure(attempts, attempts >= maximumAttempts)
  }

  function NewlyQuarantined(failure: Option<PoisonFailure>, maximumAttempts: u32): bool {
    (failure.Some? ==> !failure.value.quarantined) && AfterPoison(failure, maximumAttempts).quarantined
  }

  const RESTORED: PoisonFailure := PoisonFailure(MAX_U32, true)

  /** What can happen to one signature's failure record. */
  datatype Outcome = Poisoned | TransientFailure | Succeeded | Restored

  function AfterOutcome(failure: Option<PoisonFailure>, outcome: Outcome, maximumAttempts: u32): Option<PoisonFailure> {
    match outcome
    case Poisoned => Some(AfterPoison(failure, maximumAttempts))
    case TransientFailure => failure
    case Succeeded => None
    case Restored => Some(RESTORED)
  }

  function AfterTrace(trace: seq<Outcome>, maximumAttempts: u32): Option<PoisonFailure> {
    if trace == [] then None
    else AfterOutcome(AfterTrace(trace[..|trace| - 1], maximumAttempts), trace[|trace| - 1], maximumAttempts)
  }

  /** How often the trace reported a new quarantine since its last success. */
  function Reports(trace: seq<Outcome>, maximumAttempts: u32): nat {
    if trace == [] then 0
    else
      var earlier := trace[..|trace| - 1];
      match trace[|trace| - 1]
      case Succeeded => 0
      case Poisoned =>
        Reports(earlier, maximumAttempts)
        + if NewlyQuarantined(AfterTrace(earlier, maximumAttempts), maximumAttempts) then 1 else 0
      case _ => Reports(earlier, maximumAttempts)
  }

  function SinceSuccess(trace: seq<Outcome>): seq<Outcome> {
    if trace == [] || trace[|trace| - 1].Succeeded? then []
    else SinceSuccess(trace[..|trace| - 1]) + [trace[|trace| - 1]]
  }

  function Count(trace: seq<Outcome>): nat {
    if trace == [] then 0
    else Count(trace[..|trace| - 1]) + if trace[|trace| - 1].Poisoned? then 1 else 0
  }

  function UntilRestored(trace: seq<Outcome>): seq<Outcome> {
    if trace == [] || trace[0].Restored? then [] else [trace[0]] + UntilRestored(trace[1..])
  }

  lemma {:induction false} UntilRestoredGrows(trace: seq<Outcome>, next: Outcome)
    ensures UntilRestored(trace + [next]) ==
            if Restored in trace || next.Restored? then UntilRestored(trace) else trace + [next]
    ensures Restored !in trace ==> UntilRestored(trace) == trace
  {
    if trace == [] {
      assert [] + [next] == [next] && [next][1..] == [];
      assert [next] + [] == [next];
    } else {
      assert (trace + [next])[1..] == trace[1..] + [next];
      UntilRestoredGrows(trace[1..], next);
      assert trace == [trace[0]] + trace[1..];
      if !trace[0].Restored? && Restored !in trace && !next.Restored? {
        assert [trace[0]] + (trace[1..] + [next]) == trace + [next];
      }
    }
  }

  /** The record of a stretch without a success: whether anything was restored in it, and
      how many outcomes were poisoned. */
  ghost predicate Reflects(failure: Option<PoisonFailure>, restored: bool, poisoned: nat, maximumAttempts: u32) {
    && (failure.None? <==> !restored && poisoned == 0)
    && (failure.Some? ==>
          && (failure.value.quarantined <==> restored || poisoned >= maximumAttempts)
          && failure.value.attempts == if restored then MAX_U32 else Min(poisoned, maximumAttempts))
  }

  lemma OutcomeIsReflected(failure: Option<PoisonFailure>, restored: bool, poisoned: nat, outcome: Outcome, maximumAttempts: u32)
    requires maximumAttempts >= 1 && Reflects(failure, restored, poisoned, maximumAttempts) && !outcome.Succeeded?
    ensures Reflects(AfterOutcome(failure, outcome, maximumAttempts), restored || outcome.Restored?,
                     poisoned + if outcome.Poisoned? then 1 else 0, maximumAttempts)
  {
  }

  /** Over any trace, the record depends only on what happened since the last success:
      quarantined exactly when it was restored or poisoned often enough, and attempts
      counts the poison outcomes up to the maximum, whatever transient failures came
      between. */
  lemma {:induction false} QuarantineOverTraces(trace: seq<Outcome>, maximumAttempts: u32)
    requires maximumAttempts >= 1
    ensures var stretch := SinceSuccess(trace);
            Reflects(AfterTrace(trace, maximumAttempts), Restored in stretch, Count(stretch), maximumAttempts)
  {
    if trace != [] {
      var earlier, last := SinceSuccess(trace[..|trace| - 1]), trace[|trace| - 1];
      QuarantineOverTraces(trace[..|trace| - 1], maximumAttempts);
      if !last.Succeeded? {
        OutcomeIsReflected(AfterTrace(trace[..|trace| - 1], maximumAttempts), Restored in earlier, Count(earlier), last, maximumAttempts);
        assert (earlier + [last])[..|earlier|] == earlier;
      }
    }
  }

  /** A new quarantine is reported exactly once per stretch if the poison outcomes
      before any restore reach the maximum, and never otherwise. */
  lemma {:induction false} QuarantineIsReportedOnce(trace: seq<Outcome>, maximumAttempts: u32)
    requires maximumAttempts >= 1
    ensures Reports(trace, maximumAttempts) ==
            if Count(UntilRestored(SinceSuccess(trace))) >= maximumAttempts then 1 else 0
  {
    if trace != [] && !trace[|trace| - 1].Succeeded? {
      var earlier, last := SinceSuccess(trace[..|trace| - 1]), trace[|trace| - 1];
      QuarantineIsReportedOnce(trace[..|trace| - 1], maximumAttempts);
      QuarantineOverTraces(trace[..|trace| - 1], maximumAttempts);
      UntilRestoredGrows(earlier, last);
      assert (earlier + [last])[..|earlier|] == earlier;
    }
  }

  // ---------------------------------------------------------------------------
  // The state the poller mutates
  // ---------------------------------------------------------------------------

  class PollingState {
    var cursors: map<Address, u64>
    var recentSignatures: map<Signature, u64>
    var poisonFailures: map<Signature, PoisonFailure>
    var lastHistoryBoundaryCheck: Option<nat>

    constructor ()
      ensures View() == Progress(map[], map[], map[])
      ensures lastHistoryBoundaryCheck == None
    {
      cursors, recentSignatures, poisonFailures := map[], map[], map[];
      lastHistoryBoundaryCheck := None;
    }

    function View(): Progress
      reads this
    {
      Progress(cursors, recentSignatures, poisonFailures)
    }

    method RecordRecentSignature(signature: Signature, slot: u64)
      modifies this`recentSignatures
      ensures recentSignatures == old(recentSignatures)[signature := slot]
    {
      recentSignatures := recentSignatures[signature := slot];
    }

    method RetainSignaturesAfter(minimumSlot: u64)
      modifies this`recentSignatures
      ensures recentSignatures == Retained(old(recentSignatures), minimumSlot)
    {
      recentSignatures := map s | s in recentSignatures && recentSignatures[s] > minimumSlot :: recentSignatures[s];
    }

    predicate HistoryBoundaryCheckDue(now: nat, interval: nat)
      reads this
    {
      lastHistoryBoundaryCheck.None?
      || (if now < lastHistoryBoundaryCheck.value then 0 else now - lastHistoryBoundaryCheck.value) >= interval
    }

    method RecordHistoryBoundaryCheck(checkedAt: nat)
      modifies this`lastHistoryBoundaryCheck
      ensures lastHistoryBoundaryCheck == Some(checkedAt)
    {
      lastHistoryBoundaryCheck := Some(checkedAt);
    }

    method RecordPoisonFailure(signature: Signature, maximumAttempts: u32) returns (disposition: FailureDisposition)
      modifies this`poisonFailures
      ensures var before := Lookup(old(poisonFailures), signature);
              var after := AfterPoison(before, maximumAttempts);
              && poisonFailures == old(poisonFailures)[signature := after]
              && disposition == FailureDisposition(
                                  after.attempts, after.quarantined, NewlyQuarantined(before, maximumAttempts))
    {
      var failure := if signature in poisonFailures then poisonFailures[signature] else PoisonFailure(0, false);
      var newlyQuarantined := false;
      if !failure.quarantined {
        var attempts: u32 := if failure.attempts == MAX_U32 then MAX_U32 else failure.attempts + 1;
        failure := PoisonFailure(attempts, attempts >= maximumAttempts);
        newlyQuarantined := failure.quarantined;
      }
      poisonFailures := poisonFailures[signature := failure];
      disposition := FailureDisposition(failure.attempts, failure.quarantined, newlyQuarantined);
    }

    method ClearPoisonFailure(signature: Signature)
      modifies this`poisonFailures
      ensures poisonFailures == old(poisonFailures) - {signature}
    {
      poisonFailures := poisonFailures - {signature};
    }

    method RestoreQuarantined(signatures: set<Signature>)
      modifies this`poisonFailures
      ensures poisonFailures == old(poisonFailures) + map s | s in signatures :: RESTORED
    {
      var remaining := signatures;
      while remaining != {}
        invariant remaining <= signatures
        invariant poisonFailures == old(poisonFailures) + map s | s in signatures - remaining :: RESTORED
      {
        var signature :| signature in remaining;
        remaining := remaining - {signature};
        poisonFailures := poisonFailures[signature := PoisonFailure(MAX_U32, true)];
      }
      assert signatures - remaining == signatures;
    }

    method AdvanceReadyCursors(batches: seq<AddressBatch>, retryingSignatures: set<Signature>)
      returns (advancedWithActivity: bool)
      modifies this`cursors
      ensures cursors == Advanced(old(cursors), batches, retryingSignatures)
      ensures advancedWithActivity <==>
              exists b :: b in batches && !HoldsRetry(b, retryingSignatures) && b.signatures != []
    {
      advancedWithActivity := false;
      for i := 0 to |batches|
        invariant cursors == Advanced(old(cursors), batches[..i], retryingSignatures)
        invariant advancedWithActivity <==>
                  exists b :: b in batches[..i] && !HoldsRetry(b, retryingSignatures) && b.signatures != []
      {
        assert batches[..i + 1] == batches[..i] + [batches[i]];
        assert batches[..i + 1][..i] == batches[..i];
        if HoldsRetry(batches[i], retryingSignatures) {
          continue;
        }
        advancedWithActivity := advancedWithActivity || batches[i].signatures != [];
        cursors := cursors[batches[i].address := batches[i].nextCursor];
      }
      assert batches[..|batches|] == batches;
    }
  }
}
