/** Regenerating the alert provisioning file (alerting.rs): what a newer file no longer
    declares it lists for deletion, and keeps listing. */
module Tombstones {
  import opened Primitives

  const RULE_PREFIX: string := "ms-"
  const CONTACT_POINT_PREFIX: string := "microscope-"

  /** A rule, receiver or deletion, of which only its uid matters; it may lack one. */
  datatype Resource = Resource(uid: Option<string>)

  datatype Group = Group(resources: seq<Resource>)

  /** The uids of a document's groups, as the collectors read them. */
  function Uids(groups: seq<Group>): set<string> {
    set g, r | g in groups && r in g.resources && r.uid.Some? :: r.uid.value
  }

  function DeletionUids(deletions: seq<Resource>): set<string> {
    set r | r in deletions && r.uid.Some? :: r.uid.value
  }

  predicate Managed(prefix: string, uid: string) {
    prefix <= uid
  }

  /** Some resource of the groups has this uid. */
  ghost predicate Declares(groups: seq<Group>, uid: string) {
    exists g, r :: g in groups && r in g.resources && r.uid == Some(uid)
  }

  ghost predicate Lists(deletions: seq<Resource>, uid: string) {
    exists r :: r in deletions && r.uid == Some(uid)
  }

  lemma UidsAreDeclared(groups: seq<Group>, uid: string)
    ensures uid in Uids(groups) <==> Declares(groups, uid)
  {
    if uid in Uids(groups) {
      var g, r :| g in groups && r in g.resources && r.uid.Some? && r.uid.value == uid;
      assert r.uid == Some(uid);
    }
  }

  lemma DeletionUidsAreListed(deletions: seq<Resource>, uid: string)
    ensures uid in DeletionUids(deletions) <==> Lists(deletions, uid)
  {
    if uid in DeletionUids(deletions) {
      var r :| r in deletions && r.uid.Some? && r.uid.value == uid;
      assert r.uid == Some(uid);
    }
  }

  /** What must be deleted: everything managed that was there or already being deleted,
      and is not wanted now. */
  function Gone(prefix: string, desired: set<string>, previous: set<string>, deleted: set<string>): set<string> {
    set uid | uid in previous + deleted && uid !in desired && Managed(prefix, uid)
  }

  lemma GoneIsListed(prefix: string, desired: seq<Group>, previous: seq<Group>, deleted: seq<Resource>, deletions: seq<Resource>)
    requires DeletionUids(deletions) == Gone(prefix, Uids(desired), Uids(previous), DeletionUids(deleted))
    ensures forall uid :: Lists(deletions, uid) <==>
              (Declares(previous, uid) || Lists(deleted, uid)) && !Declares(desired, uid) && prefix <= uid
  {
    forall uid
      ensures Lists(deletions, uid) <==>
                (Declares(previous, uid) || Lists(deleted, uid)) && !Declares(desired, uid) && prefix <= uid
    {
      DeletionUidsAreListed(deletions, uid);
      DeletionUidsAreListed(deleted, uid);
      UidsAreDeclared(desired, uid);
      UidsAreDeclared(previous, uid);
    }
  }

  // ---------------------------------------------------------------------------
  // The document
  // ---------------------------------------------------------------------------

  /** The provisioning document; an empty list of deletions is left out of the file. */
  class Document {
    var groups: seq<Group>
    var contactPoints: seq<Group>
    var deleteRules: seq<Resource>
    var deleteContactPoints: seq<Resource>

    constructor (groups: seq<Group>, contactPoints: seq<Group>)
      ensures this.groups == groups && this.contactPoints == contactPoints
      ensures deleteRules == [] && deleteContactPoints == []
    {
      this.groups, this.contactPoints := groups, contactPoints;
      deleteRules, deleteContactPoints := [], [];
    }
  }

  lemma Lengthens(deletions: seq<Resource>, uid: string)
    ensures DeletionUids(deletions + [Resource(Some(uid))]) == DeletionUids(deletions) + {uid}
  {
    assert forall r :: r in deletions + [Resource(Some(uid))] <==> r in deletions || r == Resource(Some(uid));
    assert Resource(Some(uid)) in deletions + [Resource(Some(uid))];
  }

  /** A list of deletions for a set of uids. */
  method Deletions(uids: set<string>) returns (deletions: seq<Resource>)
    ensures DeletionUids(deletions) == uids
    ensures deletions == [] <==> uids == {}
  {
    deletions := [];
    var remaining := uids;
    while remaining != {}
      invariant remaining <= uids
      invariant DeletionUids(deletions) == uids - remaining
      invariant deletions == [] <==> remaining == uids
    {
      var uid :| uid in remaining;
      remaining := remaining - {uid};
      Lengthens(deletions, uid);
      deletions := deletions + [Resource(Some(uid))];
    }
  }

  method AddResourceDeletions(document: Document, previous: Document)
    requires document != previous
    modifies document`deleteRules, document`deleteContactPoints
    ensures old(document.deleteRules) == [] ==> forall uid :: Lists(document.deleteRules, uid) <==>
              && (Declares(previous.groups, uid) || Lists(previous.deleteRules, uid))
              && !Declares(document.groups, uid) && "ms-" <= uid
    ensures old(document.deleteContactPoints) == [] ==> forall uid :: Lists(document.deleteContactPoints, uid) <==>
              && (Declares(previous.contactPoints, uid) || Lists(previous.deleteContactPoints, uid))
              && !Declares(document.contactPoints, uid) && "microscope-" <= uid
    ensures DeletionUids(document.deleteRules) ==
            var gone := Gone(RULE_PREFIX, Uids(document.groups), Uids(previous.groups), DeletionUids(previous.deleteRules));
            if gone == {} then DeletionUids(old(document.deleteRules)) else gone
    ensures DeletionUids(document.deleteContactPoints) ==
            var gone := Gone(CONTACT_POINT_PREFIX, Uids(document.contactPoints), Uids(previous.contactPoints),
                             DeletionUids(previous.deleteContactPoints));
            if gone == {} then DeletionUids(old(document.deleteContactPoints)) else gone
  {
    var previousRules := Uids(previous.groups);
    previousRules := previousRules + DeletionUids(previous.deleteRules);
    var desiredRules := Uids(document.groups);
    var rules := set uid | uid in previousRules && uid !in desiredRules && Managed(RULE_PREFIX, uid);
    if rules != {} {
      document.deleteRules := Deletions(rules);
    }

    var previousContactPoints := Uids(previous.contactPoints);
    previousContactPoints := previousContactPoints + DeletionUids(previous.deleteContactPoints);
    var desiredContactPoints := Uids(document.contactPoints);
    var contactPoints := set uid | uid in previousContactPoints && uid !in desiredContactPoints && Managed(CONTACT_POINT_PREFIX, uid);
    if contactPoints != {} {
      document.deleteContactPoints := Deletions(contactPoints);
    }
    if old(document.deleteRules) == [] {
      GoneIsListed("ms-", document.groups, previous.groups, previous.deleteRules, document.deleteRules);
    }
    if old(document.deleteContactPoints) == [] {
      GoneIsListed("microscope-", document.contactPoints, previous.contactPoints, previous.deleteContactPoints, document.deleteContactPoints);
    }
  }

  /** `generate`: the wanted document, with the deletions the existing file calls for. */
  method Generate(groups: seq<Group>, contactPoints: seq<Group>, existing: Document?) returns (document: Document)
    ensures fresh(document)
    ensures document.groups == groups && document.contactPoints == contactPoints
    ensures forall uid :: Lists(document.deleteRules, uid) <==>
              && existing != null && (Declares(existing.groups, uid) || Lists(existing.deleteRules, uid))
              && !Declares(groups, uid) && "ms-" <= uid
    ensures DeletionUids(document.deleteRules) ==
            if existing == null then {}
            else Gone(RULE_PREFIX, Uids(groups), Uids(existing.groups), DeletionUids(existing.deleteRules))
    ensures DeletionUids(document.deleteContactPoints) ==
            if existing == null then {}
            else Gone(CONTACT_POINT_PREFIX, Uids(contactPoints), Uids(existing.contactPoints),
                      DeletionUids(existing.deleteContactPoints))
  {
    document := new Document(groups, contactPoints);
    if existing != null {
      AddResourceDeletions(document, existing);
    }
  }

  // ---------------------------------------------------------------------------
  // Any number of regenerations
  // ---------------------------------------------------------------------------

  /** The deletions in the file after the successful regenerations with these uids. */
  function DeletedAfter(prefix: string, generations: seq<set<string>>): set<string> {
    if |generations| <= 1 then {}
    else
      var n := |generations| - 1;
      Gone(prefix, generations[n], generations[n - 1], DeletedAfter(prefix, generations[..n]))
  }

  /** Every managed uid any file ever declared. */
  function EverDeclared(prefix: string, generations: seq<set<string>>): set<string> {
    set g, uid | g in generations && uid in g && prefix <= uid :: uid
  }

  /** Nothing declared is ever forgotten: what the current file does not declare it
      deletes, and it deletes nothing else. */
  lemma {:induction false} NothingIsForgotten(prefix: string, generations: seq<set<string>>)
    requires generations != []
    ensures DeletedAfter(prefix, generations) == EverDeclared(prefix, generations) - generations[|generations| - 1]
  {
    var n := |generations| - 1;
    if n > 0 {
      var before := generations[..n];
      NothingIsForgotten(prefix, before);
      assert generations == before + [generations[n]];
      assert before[n - 1] in before;
      assert EverDeclared(prefix, generations) ==
             EverDeclared(prefix, before) + set uid | uid in generations[n] && prefix <= uid;
    } else {
      assert generations == [generations[0]];
    }
  }

  /** So every managed uid is declared or deleted, never both. */
  lemma DeclaredOrDeleted(prefix: string, generations: seq<set<string>>, uid: string)
    requires generations != [] && uid in EverDeclared(prefix, generations)
    ensures uid in generations[|generations| - 1] <==> uid !in DeletedAfter(prefix, generations)
  {
    NothingIsForgotten(prefix, generations);
  }
}
