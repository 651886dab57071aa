/** The bounded memory that counts each transaction once (processor.rs). */
module Processor {
  import opened Primitives

  const RECENT_SIGNATURE_CAPACITY: nat := 4_096

  /** The last signatures of a list, as many as the memory holds. */
  function Recent(admitted: seq<Signature>): seq<Signature> {
    if |admitted| <= RECENT_SIGNATURE_CAPACITY then admitted
    else admitted[|admitted| - RECENT_SIGNATURE_CAPACITY..]
  }

  /** The simple form: a signature is admitted unless it is among the last ones that
      were. */
  function Admitted(seen: seq<Signature>): seq<Signature> {
    if seen == [] then []
    else
      var before := Admitted(seen[..|seen| - 1]);
      var signature := seen[|seen| - 1];
      if signature in Recent(before) then before else before + [signature]
  }

  ghost predicate Distinct(signatures: seq<Signature>) {
    forall i, j :: 0 <= i < j < |signatures| ==> signatures[i] != signatures[j]
  }

  lemma AdmittedGrows(seen: seq<Signature>, signature: Signature)
    ensures Admitted(seen + [signature]) ==
            if signature in Recent(Admitted(seen)) then Admitted(seen) else Admitted(seen) + [signature]
  {
    assert (seen + [signature])[..|seen|] == seen;
  }

  function Elements(signatures: seq<Signature>): set<Signature> {
    set s | s in signatures
  }

  /** Among the last 4096. */
  ghost predicate Lately(admitted: seq<Signature>, signature: Signature) {
    exists i :: 0 <= i < |admitted| <= i + 4096 && admitted[i] == signature
  }

  /** What the memory holds are the last 4096 admitted. */
  lemma RecentAreTheLast(admitted: seq<Signature>, signature: Signature)
    ensures signature in Recent(admitted) <==> Lately(admitted, signature)
  {
    var recent := Recent(admitted);
    var start := |admitted| - |recent|;
    assert forall i :: 0 <= i < |recent| ==> recent[i] == admitted[start + i];
    if signature in recent {
      var i :| 0 <= i < |recent| && recent[i] == signature;
      assert admitted[start + i] == signature;
    } else {
      forall i | 0 <= i < |admitted| <= i + 4096 ensures admitted[i] != signature {
        assert recent[i - start] == admitted[i] && recent[i - start] in recent;
      }
    }
  }

  lemma RecentSlides(admitted: seq<Signature>, signature: Signature)
    ensures var longer := Recent(admitted) + [signature];
            Recent(admitted + [signature]) == if |longer| > RECENT_SIGNATURE_CAPACITY then longer[1..] else longer
  {
  }

  lemma ElementsSlide(signatures: seq<Signature>, signature: Signature)
    requires Distinct(signatures) && signature !in signatures
    ensures var longer := signatures + [signature];
            && Distinct(longer) && Distinct(longer[1..])
            && Elements(longer) == Elements(signatures) + {signature}
            && Elements(longer[1..]) == Elements(longer) - {longer[0]}
  {
    var longer := signatures + [signature];
    assert longer == [longer[0]] + longer[1..];
  }

  class EventProcessor {
    var recentSignatures: set<Signature>
    var signatureOrder: seq<Signature>
    ghost var seen: seq<Signature>

    /** The queue and the set are the last admitted signatures, each once. */
    ghost predicate Valid()
      reads this
    {
      && signatureOrder == Recent(Admitted(seen))
      && recentSignatures == Elements(signatureOrder)
      && Distinct(signatureOrder)
    }

    constructor ()
      ensures Valid() && seen == []
    {
      recentSignatures, signatureOrder, seen := {}, [], [];
    }

    method RememberTransaction(signature: Signature) returns (first: bool)
      requires Valid()
      modifies this
      ensures Valid()
      ensures seen == old(seen) + [signature]
      ensures first <==> signature !in Recent(Admitted(old(seen)))
      ensures Admitted(seen) == Admitted(old(seen)) + if first then [signature] else []
    {
      AdmittedGrows(seen, signature);
      seen := seen + [signature];
      if signature in recentSignatures {
        return false;
      }
      RecentSlides(Admitted(old(seen)), signature);
      ElementsSlide(signatureOrder, signature);
      recentSignatures := recentSignatures + {signature};
      signatureOrder := signatureOrder + [signature];
      if |signatureOrder| > RECENT_SIGNATURE_CAPACITY {
        var expired := signatureOrder[0];
        signatureOrder := signatureOrder[1..];
        recentSignatures := recentSignatures - {expired};
      }
      return true;
    }
  }

  lemma RecentReachesBack(admitted: seq<Signature>, i: nat)
    requires i < |admitted| <= i + RECENT_SIGNATURE_CAPACITY
    ensures admitted[i] in Recent(admitted)
  {
    var start := |admitted| - |Recent(admitted)|;
    assert Recent(admitted)[i - start] == admitted[i];
  }

  /** A signature is admitted again only after more others than the memory holds. */
  lemma {:induction false} RepeatsAreFarApart(seen: seq<Signature>, i: nat, j: nat)
    requires i < j < |Admitted(seen)| && Admitted(seen)[i] == Admitted(seen)[j]
    ensures j - i > 4096
  {
    var n := |seen| - 1;
    var before := Admitted(seen[..n]);
    if j < |before| {
      RepeatsAreFarApart(seen[..n], i, j);
    } else if |before| <= i + RECENT_SIGNATURE_CAPACITY {
      RecentReachesBack(before, i);
    }
  }

  lemma AdmittedIsPart(before: seq<Signature>, last: Signature, signature: Signature)
    ensures signature == last || signature in before <==>
              signature in if last in Recent(before) then before else before + [last]
  {
  }

  lemma LastOrEarlier(seen: seq<Signature>, signature: Signature)
    requires seen != []
    ensures signature in seen <==> signature == seen[|seen| - 1] || signature in seen[..|seen| - 1]
  {
    assert seen == seen[..|seen| - 1] + [seen[|seen| - 1]];
  }

  /** Nothing is dropped for good: what was seen was admitted at least once. */
  lemma {:induction false} EverythingIsAdmitted(seen: seq<Signature>, signature: Signature)
    ensures signature in seen <==> signature in Admitted(seen)
  {
    if seen != [] {
      var n := |seen| - 1;
      EverythingIsAdmitted(seen[..n], signature);
      LastOrEarlier(seen, signature);
      AdmittedIsPart(Admitted(seen[..n]), seen[n], signature);
    }
  }
}
