/** The durable checkpoint (checkpoint.rs): what a document says, how it is replaced on
    disk without ever leaving a broken one behind, and how it is loaded again with
    every cursor one replay window back. */
module Checkpoint {
  import opened Primitives
  import opened Text
  import opened PollSpec
  import opened Protocol

  const SCHEMA_VERSION: u32 := 1
  const WRITE_INTERVAL: nat := 60
  const ACTIVITY_WRITE_INTERVAL: nat := 10

  // ---------------------------------------------------------------------------
  // Documents
  // ---------------------------------------------------------------------------

  /** The deployment a checkpoint belongs to; addresses sorted, without repeats. */
  datatype Identity = Identity(genesisHash: string, programId: string, addresses: seq<Address>)

  /** The JSON object; signatures are keys and elements in their text form. */
  datatype Document = Document(
    schemaVersion: u32, genesisHash: string, programId: string, addresses: seq<Address>,
    cursors: map<Address, u64>, recent: map<string, u64>, quarantined: set<string>)

  /** What a file holds, seen through the JSON parser. */
  datatype Content = Unreadable | Encoded(document: Document)

  predicate Complete(identity: Identity, cursors: map<Address, u64>) {
    cursors.Keys == AddressSet(identity.addresses)
  }

  lemma TextsAreUnique(codec: Codec, s: Signature, t: Signature)
    requires Lawful(codec) && codec.show(s) == codec.show(t)
    ensures s == t
  {
    assert ParsesOnly(codec, codec.show(s), s) && ParsesOnly(codec, codec.show(t), t);
  }

  lemma ValuesAreUnique(codec: Codec, text: string, other: string)
    requires Lawful(codec)
    requires codec.parse(text).Some? && codec.parse(text) == codec.parse(other)
    ensures text == other
  {
    assert ParsesOnly(codec, text, codec.parse(text).value) && ParsesOnly(codec, other, codec.parse(text).value);
  }

  function ShownKeys(codec: Codec, slots: map<Signature, u64>): map<string, u64>
    requires Lawful(codec)
  {
    assert forall s, t :: codec.show(s) == codec.show(t) ==> s == t by {
      forall s, t | codec.show(s) == codec.show(t) ensures s == t {
        TextsAreUnique(codec, s, t);
      }
    }
    map s | s in slots :: codec.show(s) := slots[s]
  }

  function ParsedKeys(codec: Codec, slots: map<string, u64>): map<Signature, u64>
    requires Lawful(codec)
    requires forall text :: text in slots ==> codec.parse(text).Some?
  {
    assert forall s, t :: s in slots && t in slots && codec.parse(s) == codec.parse(t) ==> s == t by {
      forall s, t | s in slots && t in slots && codec.parse(s) == codec.parse(t) ensures s == t {
        ValuesAreUnique(codec, s, t);
      }
    }
    map text | text in slots :: codec.parse(text).value := slots[text]
  }

  function DocumentOf(codec: Codec, identity: Identity, snapshot: Snapshot): Document
    requires Lawful(codec)
  {
    Document(SCHEMA_VERSION, identity.genesisHash, identity.programId, identity.addresses,
             snapshot.cursors, ShownKeys(codec, snapshot.recent),
             set s | s in snapshot.quarantined :: codec.show(s))
  }

  // ---------------------------------------------------------------------------
  // Loading
  // ---------------------------------------------------------------------------

  datatype LoadOutcome = Missing | Loaded(snapshot: Snapshot) | Corrupt

  datatype LoadError = Mismatch | IoFailed

  function Rewound(cursors: map<Address, u64>, window: u64): map<Address, u64> {
    map a | a in cursors :: SaturatingSub(cursors[a], window)
  }

  predicate Matches(identity: Identity, document: Document) {
    && document.schemaVersion == SCHEMA_VERSION
    && document.genesisHash == identity.genesisHash
    && document.programId == identity.programId
    && document.addresses == identity.addresses
  }

  predicate Decodes(codec: Codec, document: Document) {
    && (forall text :: text in document.recent ==> codec.parse(text).Some?)
    && (forall text :: text in document.quarantined ==> codec.parse(text).Some?)
  }

  /** What loading yields from a file, in the source's order of checks. */
  function LoadedFrom(codec: Codec, identity: Identity, window: u64, file: Option<Content>): Result<LoadOutcome, LoadError>
    requires Lawful(codec)
  {
    if file.None? then Ok(Missing)
    else if file.value.Unreadable? then Ok(Corrupt)
    else
      var document := file.value.document;
      if !Matches(identity, document) then Err(Mismatch)
      else if !Complete(identity, document.cursors) || !Decodes(codec, document) then Ok(Corrupt)
      else
        Ok(Loaded(Snapshot(
          Rewound(document.cursors, window),
          ParsedKeys(codec, document.recent),
          set text | text in document.quarantined :: codec.parse(text).value)))
  }

  /** What loading makes of any readable document: a mismatch if any of four fields is
      another's, corrupt if only what it holds is out of order, and otherwise its cursors
      one window back. */
  lemma AnyDocumentLoads(codec: Codec, identity: Identity, window: u64, document: Document)
    requires Lawful(codec)
    ensures var loaded := LoadedFrom(codec, identity, window, Some(Encoded(document)));
            var ours := document.schemaVersion == 1 && document.genesisHash == identity.genesisHash
                        && document.programId == identity.programId && document.addresses == identity.addresses;
            var sound := && (forall a :: a in document.cursors <==> a in identity.addresses)
                         && (forall text :: text in document.recent.Keys + document.quarantined ==> codec.parse(text).Some?);
            && (loaded == Err(Mismatch) <==> !ours)
            && (loaded == Ok(Corrupt) <==> ours && !sound)
            && (loaded.Ok? && loaded.value.Loaded? <==> ours && sound)
  {
  }

  lemma UnreadableFilesAreCorrupt(codec: Codec, identity: Identity, window: u64)
    requires Lawful(codec)
    ensures LoadedFrom(codec, identity, window, Some(Unreadable)) == Ok(Corrupt)
    ensures LoadedFrom(codec, identity, window, None) == Ok(Missing)
  {
  }

  lemma KeysReadBack(codec: Codec, slots: map<Signature, u64>)
    requires Lawful(codec)
    ensures forall text :: text in ShownKeys(codec, slots) ==> codec.parse(text).Some?
    ensures ParsedKeys(codec, ShownKeys(codec, slots)) == slots
  {
    var shown := ShownKeys(codec, slots);
    forall text | text in shown ensures codec.parse(text).Some? && codec.parse(text).value in slots {
      var s :| s in slots && codec.show(s) == text;
      assert ParsesOnly(codec, text, s);
    }
    forall s | s in slots
      ensures codec.show(s) in shown && codec.parse(codec.show(s)) == Some(s)
    {
      assert ParsesOnly(codec, codec.show(s), s);
    }
    forall s | s in slots
      ensures s in ParsedKeys(codec, shown) && ParsedKeys(codec, shown)[s] == slots[s]
    {
      assert codec.parse(codec.show(s)).value == s;
    }
  }

  lemma TextsReadBack(codec: Codec, signatures: set<Signature>)
    requires Lawful(codec)
    ensures var shown := set s | s in signatures :: codec.show(s);
            && (forall text :: text in shown ==> codec.parse(text).Some?)
            && (set text | text in shown :: codec.parse(text).value) == signatures
  {
    var shown := set s | s in signatures :: codec.show(s);
    forall s ensures codec.parse(codec.show(s)) == Some(s) {
      assert ParsesOnly(codec, codec.show(s), s);
    }
    forall s | s in signatures ensures codec.show(s) in shown && codec.parse(codec.show(s)).value == s {
    }
  }

  /** A written document loads under the same identity, never as corrupt and never as
      another deployment's: recent and quarantined signatures as they were, every
      cursor exactly one window back. */
  lemma WrittenDocumentLoads(codec: Codec, identity: Identity, window: u64, snapshot: Snapshot)
    requires Lawful(codec) && Complete(identity, snapshot.cursors)
    ensures LoadedFrom(codec, identity, window, Some(Encoded(DocumentOf(codec, identity, snapshot))))
         == Ok(Loaded(snapshot.(cursors := Rewound(snapshot.cursors, window))))
  {
    KeysReadBack(codec, snapshot.recent);
    TextsReadBack(codec, snapshot.quarantined);
  }

  /** A document written for one deployment is refused by every other. */
  lemma OtherDeploymentsAreRefused(codec: Codec, identity: Identity, other: Identity, window: u64, snapshot: Snapshot)
    requires Lawful(codec) && Complete(identity, snapshot.cursors)
    ensures LoadedFrom(codec, other, window, Some(Encoded(DocumentOf(codec, identity, snapshot)))) == Err(Mismatch)
        <==> other != identity
  {
    if other == identity {
      WrittenDocumentLoads(codec, identity, window, snapshot);
    }
  }

  /** Restarting `k` times and saving each time, with no poll in between. */
  function Cycled(window: u64, snapshot: Snapshot, k: nat): Snapshot {
    if k == 0 then snapshot
    else
      var before := Cycled(window, snapshot, k - 1);
      before.(cursors := Rewound(before.cursors, window))
  }

  lemma {:induction false} CyclesRewindByTheirNumber(window: u64, snapshot: Snapshot, k: nat, a: Address)
    requires a in snapshot.cursors
    ensures var after := Cycled(window, snapshot, k);
            && after.cursors.Keys == snapshot.cursors.Keys
            && after.recent == snapshot.recent && after.quarantined == snapshot.quarantined
            && after.cursors[a] as int == if k * window <= snapshot.cursors[a] then snapshot.cursors[a] - k * window else 0
  {
    if k > 0 {
      CyclesRewindByTheirNumber(window, snapshot, k - 1, a);
      assert k * window == (k - 1) * window + window;
    }
  }

  // ---------------------------------------------------------------------------
  // The disk
  // ---------------------------------------------------------------------------

  /** A file's bytes as programs read them, and whether they have reached the medium. */
  datatype Inode = Inode(content: Content, synced: bool)

  /** The two names involved, and what the checkpoint's name stands for on the medium. */
  datatype Disk = Disk(temporary: Option<Inode>, path: Option<Inode>, durable: Option<Inode>)

  datatype Operation =
    | OpenTruncated
    | WritePart
    | WriteAll(document: Document)
    | SyncFile
    | Rename
    | SyncDirectory

  /** `save_if_due`'s file operations; a write may be cut short half way. */
  function Saving(document: Document): (operations: seq<Operation>)
    ensures |operations| == 6
  {
    [OpenTruncated, WritePart, WriteAll(document), SyncFile, Rename, SyncDirectory]
  }

  function Applied(disk: Disk, operation: Operation): Disk {
    match operation
    case OpenTruncated => disk.(temporary := Some(Inode(Unreadable, false)))
    case WritePart => disk.(temporary := Some(Inode(Unreadable, false)))
    case WriteAll(document) => disk.(temporary := Some(Inode(Encoded(document), false)))
    case SyncFile => if disk.temporary.Some? then disk.(temporary := Some(disk.temporary.value.(synced := true))) else disk
    case Rename => if disk.temporary.Some? then disk.(path := disk.temporary, temporary := None) else disk
    case SyncDirectory => disk.(durable := disk.path)
  }

  function AppliedAll(disk: Disk, operations: seq<Operation>): Disk {
    if operations == [] then disk
    else Applied(AppliedAll(disk, operations[..|operations| - 1]), operations[|operations| - 1])
  }

  /** What a file is found to hold after the host went down: bytes that were never
      synced may be anything. */
  ghost predicate MayHold(before: Option<Inode>, after: Option<Inode>) {
    match before
    case None => after == None
    case Some(inode) => after.Some? && after.value.synced && (inode.synced ==> after.value.content == inode.content)
  }

  /** The host goes down: the name stands for what it did on the medium, or for what
      programs saw, whichever the directory's own writes reached. */
  ghost predicate CanCrashInto(disk: Disk, after: Disk) {
    && (MayHold(disk.path, after.path) || MayHold(disk.durable, after.path))
    && after.durable == after.path
  }

  function Contents(inode: Option<Inode>): Option<Content> {
    match inode
    case None => None
    case Some(inode) => Some(inode.content)
  }

  ghost predicate Settled(disk: Disk) {
    disk.durable == disk.path && (disk.path.Some? ==> disk.path.value.synced)
  }

  lemma SavedSoFar(disk: Disk, document: Document, k: nat)
    requires k <= 6
    ensures var after := AppliedAll(disk, Saving(document)[..k]);
            && after.path == (if k < 5 then disk.path else Some(Inode(Encoded(document), true)))
            && after.durable == (if k < 6 then disk.durable else Some(Inode(Encoded(document), true)))
            && (k == 4 ==> after.temporary == Some(Inode(Encoded(document), true)))
            && (k == 3 ==> after.temporary.Some? && after.temporary.value.content == Encoded(document))
  {
    if k > 0 {
      SavedSoFar(disk, document, k - 1);
      assert Saving(document)[..k][..k - 1] == Saving(document)[..k - 1];
    }
  }

  /** Wherever a save is cut short, by a kill or by the host going down, the checkpoint
      is the old one or the new one: the old until the rename, the new once the
      directory is synced. */
  lemma CrashedSaveLeavesOldOrNew(disk: Disk, document: Document, k: nat, after: Disk)
    requires Settled(disk) && k <= 6
    requires CanCrashInto(AppliedAll(disk, Saving(document)[..k]), after)
    ensures Settled(after)
    ensures Contents(after.path) == Contents(disk.path) || Contents(after.path) == Some(Encoded(document))
    ensures k < 5 ==> Contents(after.path) == Contents(disk.path)
    ensures k == 6 ==> Contents(after.path) == Some(Encoded(document))
  {
    SavedSoFar(disk, document, k);
  }

  // ---------------------------------------------------------------------------
  // Every save, crash and load of a deployment
  // ---------------------------------------------------------------------------

  datatype DiskEvent =
    | Save(snapshot: Snapshot, completed: nat)  // how many of the operations took effect
    | HostCrash
    | Load

  /** What is fixed for the deployment. */
  datatype Deployment = Deployment(codec: Codec, identity: Identity, window: u64)

  function Written(d: Deployment, snapshot: Snapshot): Content
    requires Lawful(d.codec)
  {
    Encoded(DocumentOf(d.codec, d.identity, snapshot))
  }

  function LoadedBy(d: Deployment, disk: Disk): Result<LoadOutcome, LoadError>
    requires Lawful(d.codec)
  {
    LoadedFrom(d.codec, d.identity, d.window, Contents(disk.path))
  }

  ghost predicate DiskNext(d: Deployment, disk: Disk, disk': Disk, event: DiskEvent)
    requires Lawful(d.codec)
  {
    match event
    case Save(snapshot, completed) =>
      && Complete(d.identity, snapshot.cursors) && completed <= 6
      && disk' == AppliedAll(disk, Saving(DocumentOf(d.codec, d.identity, snapshot))[..completed])
    case HostCrash => CanCrashInto(disk, disk')
    case Load => disk' == if LoadedBy(d, disk) == Ok(Corrupt) then disk.(path := None, durable := None) else disk
  }

  /** A deployment starts with no checkpoint. */
  ghost predicate IsDiskRun(d: Deployment, disks: seq<Disk>, events: seq<DiskEvent>)
    requires Lawful(d.codec)
  {
    && |disks| == |events| + 1
    && disks[0].path == None && disks[0].durable == None
    && forall i :: 0 <= i < |events| ==> DiskNext(d, disks[i], disks[i + 1], events[i])
  }

  predicate Completes(event: DiskEvent) {
    event.Save? && event.completed == 6
  }

  predicate NoneCompletesAfter(events: seq<DiskEvent>, from: nat) {
    forall j :: from <= j < |events| ==> !Completes(events[j])
  }

  /** The content is that of the `i`-th event's save, which reached the rename and which
      no later save replaced for good. */
  ghost predicate SavedAt(d: Deployment, events: seq<DiskEvent>, content: Content, i: nat)
    requires Lawful(d.codec)
  {
    && i < |events| && events[i].Save? && events[i].completed >= 5
    && Complete(d.identity, events[i].snapshot.cursors)
    && content == Written(d, events[i].snapshot)
    && NoneCompletesAfter(events, i + 1)
  }

  ghost predicate Vouched(d: Deployment, events: seq<DiskEvent>, file: Option<Inode>)
    requires Lawful(d.codec)
  {
    match file
    case None => NoneCompletesAfter(events, 0)
    case Some(inode) => inode.synced && exists i: nat :: SavedAt(d, events, inode.content, i)
  }

  lemma StillVouched(d: Deployment, events: seq<DiskEvent>, event: DiskEvent, file: Option<Inode>)
    requires Lawful(d.codec) && Vouched(d, events, file) && !Completes(event)
    ensures Vouched(d, events + [event], file)
  {
    if file.Some? {
      var i: nat :| SavedAt(d, events, file.value.content, i);
      assert SavedAt(d, events + [event], file.value.content, i);
    }
  }

  lemma NewlyVouched(d: Deployment, events: seq<DiskEvent>, event: DiskEvent)
    requires Lawful(d.codec)
    requires event.Save? && event.completed >= 5 && Complete(d.identity, event.snapshot.cursors)
    ensures Vouched(d, events + [event], Some(Inode(Written(d, event.snapshot), true)))
  {
    assert SavedAt(d, events + [event], Written(d, event.snapshot), |events|);
  }

  lemma VouchedLoads(d: Deployment, events: seq<DiskEvent>, disk: Disk)
    requires Lawful(d.codec) && Vouched(d, events, disk.path)
    ensures LoadedBy(d, disk) != Ok(Corrupt)
  {
    if disk.path.Some? {
      var i: nat :| SavedAt(d, events, disk.path.value.content, i);
      WrittenDocumentLoads(d.codec, d.identity, d.window, events[i].snapshot);
    }
  }

  lemma EventKeepsVouched(d: Deployment, events: seq<DiskEvent>, event: DiskEvent, disk: Disk, disk': Disk)
    requires Lawful(d.codec)
    requires Vouched(d, events, disk.path) && Vouched(d, events, disk.durable)
    requires DiskNext(d, disk, disk', event)
    ensures Vouched(d, events + [event], disk'.path) && Vouched(d, events + [event], disk'.durable)
  {
    match event
    case Save(snapshot, completed) =>
      SavedSoFar(disk, DocumentOf(d.codec, d.identity, snapshot), completed);
      if completed >= 5 {
        NewlyVouched(d, events, event);
      }
      if completed < 6 {
        StillVouched(d, events, event, disk.path);
        StillVouched(d, events, event, disk.durable);
      }
    case HostCrash =>
      StillVouched(d, events, event, disk'.path);
    case Load =>
      VouchedLoads(d, events, disk);
      StillVouched(d, events, event, disk.path);
      StillVouched(d, events, event, disk.durable);
  }

  lemma {:induction false} RunsStayVouched(d: Deployment, disks: seq<Disk>, events: seq<DiskEvent>)
    requires Lawful(d.codec) && IsDiskRun(d, disks, events)
    ensures var last := disks[|events|];
            Vouched(d, events, last.path) && Vouched(d, events, last.durable)
  {
    if events != [] {
      var m := |events| - 1;
      RunsStayVouched(d, disks[..m + 1], events[..m]);
      assert events == events[..m] + [events[m]];
      EventKeepsVouched(d, events[..m], events[m], disks[m], disks[m + 1]);
    }
  }

  /** After any history of saves cut short anywhere, host crashes and loads, loading
      gives the last completed save or a later one, each cursor one window back; it
      finds nothing only if no save ever completed, and it never finds a corrupt or
      foreign document. */
  lemma LoadYieldsTheLatestSave(d: Deployment, disks: seq<Disk>, events: seq<DiskEvent>)
    requires Lawful(d.codec) && IsDiskRun(d, disks, events)
    ensures match LoadedBy(d, disks[|events|])
            case Ok(Missing) => NoneCompletesAfter(events, 0)
            case Ok(Loaded(snapshot)) =>
              exists i: nat ::
                && i < |events| && events[i].Save? && NoneCompletesAfter(events, i + 1)
                && snapshot == events[i].snapshot.(cursors := Rewound(events[i].snapshot.cursors, d.window))
            case _ => false
  {
    RunsStayVouched(d, disks, events);
    var path := disks[|events|].path;
    if path.Some? {
      var i: nat :| SavedAt(d, events, path.value.content, i);
      WrittenDocumentLoads(d.codec, d.identity, d.window, events[i].snapshot);
    }
  }

  // ---------------------------------------------------------------------------
  // The store
  // ---------------------------------------------------------------------------

  class CheckpointStore {
    const codec: Codec
    const identity: Identity
    const window: u64
    var lastWriteCompletedAt: Option<nat>
    var disk: Disk

    constructor (codec: Codec, identity: Identity, window: u64, disk: Disk)
      ensures this.codec == codec && this.identity == identity && this.window == window
      ensures this.disk == disk && lastWriteCompletedAt == None
    {
      this.codec, this.identity, this.window, this.disk := codec, identity, window, disk;
      lastWriteCompletedAt := None;
    }

    predicate Due(activity: bool, now: nat)
      reads this`lastWriteCompletedAt
    {
      match lastWriteCompletedAt
      case None => true
      case Some(saved) => now - saved >= if activity then ACTIVITY_WRITE_INTERVAL else WRITE_INTERVAL
    }

    lemma DueExactly(activity: bool, now: nat)
      ensures Due(activity, now) <==>
                || lastWriteCompletedAt.None? || now - lastWriteCompletedAt.value >= 60
                || (activity && now - lastWriteCompletedAt.value >= 10)
    {
    }

    /** `completed` says which file operation fails, if any of the six does. */
    method SaveIfDue(snapshot: Snapshot, activity: bool, now: nat, completed: nat) returns (saved: Result<bool, LoadError>)
      requires Lawful(codec)
      modifies this
      ensures var document := DocumentOf(codec, identity, snapshot);
              if !Complete(identity, snapshot.cursors) || !old(Due(activity, now)) then
                saved == Ok(false) && disk == old(disk) && lastWriteCompletedAt == old(lastWriteCompletedAt)
              else if completed < 6 then
                && saved == Err(IoFailed) && lastWriteCompletedAt == old(lastWriteCompletedAt)
                && disk == AppliedAll(old(disk), Saving(document)[..completed])
              else
                && saved == Ok(true) && lastWriteCompletedAt == Some(now)
                && disk == AppliedAll(old(disk), Saving(document))
      ensures snapshot.cursors.Keys == AddressSet(identity.addresses) ==>
                match old(lastWriteCompletedAt)
                case None => saved != Ok(false)
                case Some(written) => saved != Ok(false) <==> now - written >= 60 || (activity && now - written >= 10)
    {
      if !Complete(identity, snapshot.cursors) || !Due(activity, now) {
        return Ok(false);
      }
      var document := DocumentOf(codec, identity, snapshot);
      Steps(disk, document);
      if completed == 0 {
        return Err(IoFailed);
      }
      disk := Applied(disk, OpenTruncated);
      if completed == 1 {
        return Err(IoFailed);
      }
      disk := Applied(disk, WritePart);
      if completed == 2 {
        return Err(IoFailed);
      }
      disk := Applied(disk, WriteAll(document));
      if completed == 3 {
        return Err(IoFailed);
      }
      disk := Applied(disk, SyncFile);
      if completed == 4 {
        return Err(IoFailed);
      }
      disk := Applied(disk, Rename);
      if completed == 5 {
        return Err(IoFailed);
      }
      disk := Applied(disk, SyncDirectory);
      lastWriteCompletedAt := Some(now);
      return Ok(true);
    }

    /** A corrupt file is moved aside, out of the checkpoint's name. */
    method Load(readFails: bool, moveFails: bool) returns (outcome: Result<LoadOutcome, LoadError>)
      requires Lawful(codec)
      modifies this`disk
      ensures var file := Contents(old(disk).path);
              var loaded := LoadedFrom(codec, identity, window, file);
              && outcome == (if file.Some? && readFails then Err(IoFailed)
                             else if loaded == Ok(Corrupt) && moveFails then Err(IoFailed)
                             else loaded)
              && disk == if outcome == Ok(Corrupt) then old(disk).(path := None, durable := None) else old(disk)
    {
      if disk.path.None? {
        return Ok(Missing);
      }
      if readFails {
        return Err(IoFailed);
      }
      var content := disk.path.value.content;
      if content.Encoded? && !Matches(identity, content.document) {
        return Err(Mismatch);
      }
      if content.Unreadable? || !Complete(identity, content.document.cursors) || !Decodes(codec, content.document) {
        if moveFails {
          return Err(IoFailed);
        }
        disk := disk.(path := None, durable := None);
        return Ok(Corrupt);
      }
      var document := content.document;
      return Ok(Loaded(Snapshot(
        Rewound(document.cursors, window),
        ParsedKeys(codec, document.recent),
        set text | text in document.quarantined :: codec.parse(text).value)));
    }
  }

  lemma Steps(disk: Disk, document: Document)
    ensures var all := Saving(document);
            && AppliedAll(disk, all[..0]) == disk
            && (forall k :: 0 <= k < 6 ==> AppliedAll(disk, all[..k + 1]) == Applied(AppliedAll(disk, all[..k]), all[k]))
            && all[..6] == all
  {
    var all := Saving(document);
    forall k | 0 <= k < 6 ensures AppliedAll(disk, all[..k + 1]) == Applied(AppliedAll(disk, all[..k]), all[k]) {
      assert all[..k + 1][..k] == all[..k];
    }
  }
}
