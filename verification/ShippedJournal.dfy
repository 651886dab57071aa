/** The shipped journal as an object (shipped.rs): it appends one line for each
    processed transaction, restores them after a restart, and drops what the replay
    window no longer reaches. Over any run its file reads back as the transactions
    recorded, less those a later compaction or removal dropped. */
module ShippedJournal {
  import opened Primitives
  import opened Filtering
  import opened Text
  import opened Shipped

  // ---------------------------------------------------------------------------
  // What one call does
  // ---------------------------------------------------------------------------

  /** The first I/O call that fails while an entry is appended. */
  datatype AppendFault = CannotOpen | CannotStamp | CannotWrite

  /** Removing the file; failing that, truncating it; failing both, it stays. */
  datatype Removal = Gone | Kept

  /** What the file reads back as, with the state kept beside it. */
  datatype View = View(contents: Contents, open: bool, written: set<Signature>, identity: Option<string>)

  const EMPTY: Contents := Contents(None, [])

  function SignaturesIn(entries: seq<Entry>): set<Signature> {
    set e | e in entries :: e.signature
  }

  function Stamped(v: View): Contents {
    if v.contents == EMPTY then v.contents.(header := v.identity) else v.contents
  }

  /** Opening an empty file stamps it before any entry reaches it. */
  function Opened(v: View, fault: Option<AppendFault>): View {
    if v.open || fault == Some(CannotOpen) || (fault == Some(CannotStamp) && Stamped(v) != v.contents) then v
    else v.(contents := Stamped(v), open := true)
  }

  predicate Appends(v: View, fault: Option<AppendFault>) {
    Opened(v, fault).open && fault != Some(CannotWrite)
  }

  function Appended(v: View, entry: Entry, fault: Option<AppendFault>): View {
    var ready := Opened(v, fault);
    if Appends(v, fault) then ready.(contents := ready.contents.(entries := ready.contents.entries + [entry]))
    else ready
  }

  /** Whether recording `entry` puts it in the file. */
  predicate Admits(v: View, entry: Entry, fault: Option<AppendFault>) {
    entry.signature !in v.written && Appends(v, fault)
  }

  function Recorded(v: View, entry: Entry, fault: Option<AppendFault>): View {
    if entry.signature in v.written then v
    else Appended(v, entry, fault).(written := if Appends(v, fault) then v.written + {entry.signature} else v.written)
  }

  /** Which faults matter: an append fails if its write does, or if the file must be opened
      and cannot be, or is new and cannot be stamped; nothing else stops it. */
  lemma AppendsUnlessItFails(v: View, fault: Option<AppendFault>)
    ensures Appends(v, fault) <==>
              match fault
              case None => true
              case Some(CannotOpen) => v.open
              case Some(CannotStamp) => v.open || v.contents.header.Some? || v.contents.entries != [] || v.identity.None?
              case Some(CannotWrite) => false
  {
  }

  /** Recording without a fault puts a new entry last, behind the identity if the file was
      empty. */
  lemma RecordedIsInTheFile(v: View, entry: Entry)
    requires entry.signature !in v.written
    ensures var after := Recorded(v, entry, None);
            && after.contents.entries == v.contents.entries + [entry]
            && after.contents.header == (if !v.open && v.contents == Contents(None, []) then v.identity else v.contents.header)
            && after.written == v.written + {entry.signature} && after.open
  {
  }

  function Above(entries: seq<Entry>, floor: u64): seq<Entry> {
    Filter(entries, (e: Entry) => e.slot > floor)
  }

  function Compacted(v: View, floor: u64): View {
    var retained := Above(v.contents.entries, floor);
    if |retained| == |v.contents.entries| then v
    else v.(contents := v.contents.(entries := retained), open := false, written := SignaturesIn(retained))
  }

  function Purged(v: View, removal: Removal): View {
    v.(contents := if removal == Gone then EMPTY else v.contents, open := false, written := {})
  }

  function Discarded(v: View, identity: string, removal: Removal): View {
    Purged(v, removal).(identity := Some(identity))
  }

  function Restored(v: View, identity: string, removal: Removal): View {
    if v.contents.header == Some(identity) then
      v.(written := SignaturesIn(v.contents.entries), identity := Some(identity))
    else
      Discarded(v, identity, removal)
  }

  /** A new process over the same file. */
  function Crashed(v: View): View {
    v.(open := false, written := {}, identity := None)
  }

  /** No handle outlives the file it was opened on. */
  lemma ReplacedFilesAreClosed(v: View, floor: u64, removal: Removal, identity: string)
    ensures Compacted(v, floor).contents != v.contents ==> !Compacted(v, floor).open
    ensures !Purged(v, removal).open && !Discarded(v, identity, removal).open
    ensures v.contents.header != Some(identity) ==> !Restored(v, identity, removal).open
  {
    FilterIsNoLonger(v.contents.entries, (e: Entry) => e.slot > floor);
  }

  // ---------------------------------------------------------------------------
  // The object
  // ---------------------------------------------------------------------------

  /** `form` is the contents' one rendering, with a header that fits on its line. */
  ghost predicate IsForm(codec: Codec, contents: Contents, form: string) {
    form == Render(codec, contents.header, contents.entries)
  }

  ghost predicate Proper(contents: Contents) {
    contents.header.Some? ==> OneLine(contents.header.value)
  }

  /** The text is a header and whole entries, nothing torn. Said through the form, so
      that the characters only come into a proof that asks for them. */
  ghost predicate Holds(codec: Codec, text: string, contents: Contents) {
    forall form :: IsForm(codec, contents, form) ==> text == form && Proper(contents)
  }

  lemma HeldText(codec: Codec, text: string, contents: Contents)
    requires Holds(codec, text, contents)
    ensures text == Render(codec, contents.header, contents.entries) && Proper(contents)
  {
    assert IsForm(codec, contents, Render(codec, contents.header, contents.entries));
  }

  lemma {:induction false} RenderAppends(codec: Codec, entries: seq<Entry>, entry: Entry)
    ensures RenderEntries(codec, entries + [entry]) == RenderEntries(codec, entries) + EntryLine(codec, entry) + "\n"
  {
    if entries == [] {
      assert [entry][1..] == [];
      assert [] + [entry] == [entry];
    } else {
      RenderAppends(codec, entries[1..], entry);
      assert (entries + [entry])[1..] == entries[1..] + [entry];
    }
  }

  lemma AppendedHolds(codec: Codec, text: string, contents: Contents, entry: Entry)
    requires Holds(codec, text, contents)
    ensures Holds(codec, text + EntryLine(codec, entry) + "\n", contents.(entries := contents.entries + [entry]))
  {
    HeldText(codec, text, contents);
    RenderAppends(codec, contents.entries, entry);
  }

  lemma EmptyHolds(codec: Codec)
    ensures Holds(codec, "", EMPTY)
  {
  }

  lemma OnlyTheEmptyFileIsEmpty(codec: Codec, text: string, contents: Contents)
    requires Holds(codec, text, contents)
    ensures text == "" <==> contents == EMPTY
  {
    HeldText(codec, text, contents);
  }

  lemma StampHolds(codec: Codec, identity: string)
    requires OneLine(identity)
    ensures Holds(codec, HeaderLine(identity) + "\n", Contents(Some(identity), []))
  {
  }

  lemma AppendingIgnoresWritten(v: View, entry: Entry, fault: Option<AppendFault>)
    requires entry.signature !in v.written
    ensures var inserted := v.(written := v.written + {entry.signature});
            && Appends(inserted, fault) == Appends(v, fault)
            && Recorded(v, entry, fault) ==
               Appended(inserted, entry, fault).(written := if Appends(v, fault) then inserted.written else v.written)
  {
  }

  lemma InsertedThenRemoved(written: set<Signature>, s: Signature)
    requires s !in written
    ensures written + {s} - {s} == written
  {
  }

  lemma WritesOneMore(codec: Codec, text: string, contents: Contents, i: nat)
    requires i < |contents.entries|
    requires Holds(codec, text, contents.(entries := contents.entries[..i]))
    ensures Holds(codec, text + EntryLine(codec, contents.entries[i]) + "\n", contents.(entries := contents.entries[..i + 1]))
  {
    AppendedHolds(codec, text, contents.(entries := contents.entries[..i]), contents.entries[i]);
    assert contents.entries[..i + 1] == contents.entries[..i] + [contents.entries[i]];
  }

  /** The loop that writes a compacted journal. */
  method WriteAll(codec: Codec, contents: Contents) returns (text: string)
    requires Proper(contents)
    ensures Holds(codec, text, contents)
  {
    text := if contents.header.Some? then HeaderLine(contents.header.value) + "\n" else "";
    var entries := contents.entries;
    for i := 0 to |entries|
      invariant Holds(codec, text, contents.(entries := entries[..i]))
    {
      WritesOneMore(codec, text, contents, i);
      text := text + EntryLine(codec, entries[i]) + "\n";
    }
    assert entries[..|entries|] == entries;
  }

  class Journal {
    const codec: Codec
    var file: Option<string>
    var open: bool
    var written: set<Signature>
    var identity: Option<string>
    ghost var contents: Contents

    ghost predicate Valid()
      reads this
    {
      && Lawful(codec)
      && Untorn()
      && (open ==> file.Some?)
      && (identity.Some? ==> OneLine(identity.value))
    }

    ghost predicate Untorn()
      reads this`file, this`contents
    {
      Holds(codec, Text(), contents)
    }

    function Text(): string
      reads this`file
    {
      if file.Some? then file.value else ""
    }

    ghost function Abstract(): View
      reads this
    {
      View(contents, open, written, identity)
    }

    lemma ReadsBack()
      requires Valid()
      ensures Read(codec, Text()) == Abstract().contents
    {
      HeldText(codec, Text(), contents);
      JournalReadsBack(codec, contents.header, contents.entries);
    }

    constructor (codec: Codec, file: Option<string>, ghost contents: Contents)
      requires Lawful(codec)
      requires Holds(codec, if file.Some? then file.value else "", contents)
      ensures Valid()
      ensures this.codec == codec && this.file == file
      ensures Abstract() == View(contents, false, {}, None)
    {
      this.codec, this.file, this.contents := codec, file, contents;
      open, written, identity := false, {}, None;
    }

    method Open(fault: Option<AppendFault>)
      requires Valid()
      modifies this`file, this`open, this`contents
      ensures Valid()
      ensures Abstract() == Opened(old(Abstract()), fault)
    {
      OnlyTheEmptyFileIsEmpty(codec, Text(), contents);
      if open || fault == Some(CannotOpen) {
        return;
      }
      file := Some(Text());
      if file.value == "" && identity.Some? {
        if fault == Some(CannotStamp) {
          return;
        }
        StampHolds(codec, identity.value);
        file := Some(HeaderLine(identity.value) + "\n");
        contents := Contents(identity, []);
      }
      open := true;
    }

    method Append(entry: Entry, fault: Option<AppendFault>) returns (ok: bool)
      requires Valid()
      modifies this`file, this`open, this`contents
      ensures Valid()
      ensures ok == Appends(old(Abstract()), fault)
      ensures Abstract() == Appended(old(Abstract()), entry, fault)
    {
      Open(fault);
      if !open || fault == Some(CannotWrite) {
        return false;
      }
      AppendedHolds(codec, Text(), contents, entry);
      file := Some(file.value + EntryLine(codec, entry) + "\n");
      contents := contents.(entries := contents.entries + [entry]);
      return true;
    }

    method Record(entry: Entry, fault: Option<AppendFault>)
      requires Valid()
      modifies this
      ensures Valid()
      ensures Abstract() == Recorded(old(Abstract()), entry, fault)
    {
      if entry.signature in written {
        return;
      }
      AppendingIgnoresWritten(Abstract(), entry, fault);
      written := written + {entry.signature};
      var appended := Append(entry, fault);
      if !appended {
        InsertedThenRemoved(old(written), entry.signature);
        written := written - {entry.signature};
      }
    }

    method Purge(removal: Removal)
      requires Valid()
      modifies this
      ensures Valid()
      ensures Abstract() == Purged(old(Abstract()), removal)
    {
      open := false;
      written := {};
      if removal == Gone {
        EmptyHolds(codec);
        file := None;
        contents := EMPTY;
      }
    }

    method Restore(expected: string, removal: Removal) returns (entries: seq<Entry>)
      requires Valid() && OneLine(expected)
      modifies this
      ensures Valid()
      ensures Abstract() == Restored(old(Abstract()), expected, removal)
      ensures entries == if old(Abstract()).contents.header == Some(expected) then old(Abstract()).contents.entries else []
    {
      ReadsBack();
      var read := ReadJournal(codec, Text());
      if read.header == Some(expected) {
        entries := read.entries;
      } else {
        Purge(removal);
        entries := [];
      }
      written := SignaturesIn(entries);
      identity := Some(expected);
    }

    method Discard(expected: string, removal: Removal)
      requires Valid() && OneLine(expected)
      modifies this
      ensures Valid()
      ensures Abstract() == Discarded(old(Abstract()), expected, removal)
    {
      Purge(removal);
      identity := Some(expected);
    }

    /** Writes the survivors to a temporary file and renames it over the journal; any
        failure on the way leaves the journal and the state as they were. */
    method Compact(minimumSlot: u64, fails: bool)
      requires Valid()
      modifies this
      ensures Valid()
      ensures Abstract() == if fails then old(Abstract()) else Compacted(old(Abstract()), minimumSlot)
    {
      ReadsBack();
      var read := ReadJournal(codec, Text());
      var retained := Above(read.entries, minimumSlot);
      if |retained| == |read.entries| {
        return;
      }
      HeldText(codec, Text(), contents);
      var temporary := WriteAll(codec, read.(entries := retained));
      if fails {
        return;
      }
      file := Some(temporary);
      contents := read.(entries := retained);
      open := false;
      written := SignaturesIn(retained);
    }
  }

  // ---------------------------------------------------------------------------
  // Whole runs
  // ---------------------------------------------------------------------------

  /** What happens to the journal of one deployment, over any number of processes. A
      failed compaction changes nothing and is no event. */
  datatype Event =
    | Recording(entry: Entry, fault: Option<AppendFault>)
    | Compacting(floor: u64)
    | Restarting(identity: string, removal: Removal)  // a crash, then `Restore`
    | Resetting(identity: string, removal: Removal)   // a crash, then `Discard`

  function After(v: View, event: Event): View {
    match event
    case Recording(entry, fault) => Recorded(v, entry, fault)
    case Compacting(floor) => Compacted(v, floor)
    case Restarting(identity, removal) => Restored(Crashed(v), identity, removal)
    case Resetting(identity, removal) => Discarded(Crashed(v), identity, removal)
  }

  function Run(v: View, events: seq<Event>): View {
    if events == [] then v else After(Run(v, events[..|events| - 1]), events[|events| - 1])
  }

  /** Whether `event` drops `e` from the file. */
  predicate Erases(v: View, event: Event, e: Entry) {
    match event
    case Recording(_, _) => false
    case Compacting(floor) => e.slot <= floor
    case Restarting(identity, removal) => removal == Gone && v.contents.header != Some(identity)
    case Resetting(_, removal) => removal == Gone
  }

  function Added(v: View, event: Event): seq<Entry> {
    if event.Recording? && Admits(v, event.entry, event.fault) then [event.entry] else []
  }

  /** No event from the `from`-th on drops `e`. */
  predicate Lasts(v: View, events: seq<Event>, from: nat, e: Entry) {
    forall j :: from <= j < |events| ==> !Erases(Run(v, events[..j]), events[j], e)
  }

  function Spares(v: View, event: Event): Entry -> bool {
    e => !Erases(v, event, e)
  }

  /** An entry that was added, and the first event that could drop it. */
  datatype Logged = Logged(from: nat, entry: Entry)

  /** Everything ever added, in order. */
  function Log(v: View, events: seq<Event>): seq<Logged> {
    if events == [] then Tagged(0, v.contents.entries)
    else
      var m := |events| - 1;
      Log(v, events[..m]) + Tagged(m + 1, Added(Run(v, events[..m]), events[m]))
  }

  function Tagged(from: nat, entries: seq<Entry>): seq<Logged> {
    seq(|entries|, i requires 0 <= i < |entries| => Logged(from, entries[i]))
  }

  function Untagged(log: seq<Logged>): seq<Entry> {
    seq(|log|, i requires 0 <= i < |log| => log[i].entry)
  }

  function LastsIn(v: View, events: seq<Event>): Logged -> bool {
    (l: Logged) => Lasts(v, events, l.from, l.entry)
  }

  /** Everything ever added, less what some later event drops: each entry's fate is
      decided on its own. */
  function Lasting(v: View, events: seq<Event>): seq<Entry> {
    Untagged(Filter(Log(v, events), LastsIn(v, events)))
  }

  /** One event's effect on the file, entry by entry. */
  lemma EntriesAfter(v: View, event: Event)
    ensures After(v, event).contents.entries
         == Filter(v.contents.entries, Spares(v, event)) + Added(v, event)
  {
    match event
    case Recording(_, _) => FilterTrue(v.contents.entries, Spares(v, event));
    case Compacting(floor) => EntriesAfterCompacting(v, floor);
    case _ => EntriesAfterStarting(v, event);
  }

  lemma EntriesAfterCompacting(v: View, floor: u64)
    ensures Compacted(v, floor).contents.entries == Filter(v.contents.entries, Spares(v, Compacting(floor)))
  {
    var above := (e: Entry) => e.slot > floor;
    FilterAgrees(v.contents.entries, Spares(v, Compacting(floor)), above);
    FilterIsNoLonger(v.contents.entries, above);
  }

  lemma EntriesAfterStarting(v: View, event: Event)
    requires event.Restarting? || event.Resetting?
    ensures After(v, event).contents.entries == Filter(v.contents.entries, Spares(v, event))
  {
    if event.removal == Gone && (event.Resetting? || v.contents.header != Some(event.identity)) {
      FilterFalse(v.contents.entries, Spares(v, event));
    } else {
      FilterTrue(v.contents.entries, Spares(v, event));
    }
  }

  lemma LastsOneMore(v: View, events: seq<Event>, from: nat, e: Entry)
    requires events != [] && from < |events|
    ensures var m := |events| - 1;
            Lasts(v, events, from, e) <==> Lasts(v, events[..m], from, e) && !Erases(Run(v, events[..m]), events[m], e)
  {
    var m := |events| - 1;
    forall j | from <= j < m ensures events[..m][..j] == events[..j] {
    }
    if Lasts(v, events[..m], from, e) && !Erases(Run(v, events[..m]), events[m], e) {
      forall j | from <= j < |events| ensures !Erases(Run(v, events[..j]), events[j], e) {
        if j < m {
          assert !Erases(Run(v, events[..m][..j]), events[..m][j], e);
        }
      }
    }
    if Lasts(v, events, from, e) {
      forall j | from <= j < m ensures !Erases(Run(v, events[..m][..j]), events[..m][j], e) {
        assert !Erases(Run(v, events[..j]), events[j], e);
      }
    }
  }

  lemma {:induction false} TagsAreBounded(v: View, events: seq<Event>)
    ensures forall l :: l in Log(v, events) ==> l.from <= |events|
  {
    if events != [] {
      TagsAreBounded(v, events[..|events| - 1]);
    }
  }

  function OfEntry(p: Entry -> bool): Logged -> bool {
    (l: Logged) => p(l.entry)
  }

  lemma {:induction false} UntaggingCommutes(log: seq<Logged>, p: Entry -> bool)
    ensures Untagged(Filter(log, OfEntry(p))) == Filter(Untagged(log), p)
  {
    if log != [] {
      var n := |log| - 1;
      UntaggingCommutes(log[..n], p);
      assert Untagged(log)[..n] == Untagged(log[..n]);
    }
  }

  lemma UntaggedJoin(first: seq<Logged>, second: seq<Logged>)
    ensures Untagged(first + second) == Untagged(first) + Untagged(second)
  {
  }

  lemma UntaggedTagged(from: nat, entries: seq<Entry>)
    ensures Untagged(Tagged(from, entries)) == entries
  {
  }

  lemma Refilter(log: seq<Logged>, lasts: Logged -> bool, lasted: Logged -> bool, spares: Entry -> bool)
    requires forall l :: l in log ==> lasts(l) == (lasted(l) && spares(l.entry))
    ensures Untagged(Filter(log, lasts)) == Filter(Untagged(Filter(log, lasted)), spares)
  {
    FilterTwice(log, lasted, OfEntry(spares));
    FilterAgrees(log, lasts, Both(lasted, OfEntry(spares)));
    UntaggingCommutes(Filter(log, lasted), spares);
  }

  /** One more event drops its share of what had lasted until then. */
  lemma LastingOneMore(v: View, events: seq<Event>, log: seq<Logged>)
    requires events != []
    requires forall l :: l in log ==> l.from < |events|
    ensures var m := |events| - 1;
            Untagged(Filter(log, LastsIn(v, events)))
            == Filter(Untagged(Filter(log, LastsIn(v, events[..m]))), Spares(Run(v, events[..m]), events[m]))
  {
    var m := |events| - 1;
    var lasts, lasted, spares := LastsIn(v, events), LastsIn(v, events[..m]), Spares(Run(v, events[..m]), events[m]);
    forall l | l in log ensures lasts(l) == (lasted(l) && spares(l.entry)) {
      LastsOneMore(v, events, l.from, l.entry);
    }
    Refilter(log, lasts, lasted, spares);
  }

  lemma NewestLast(v: View, events: seq<Event>, entries: seq<Entry>)
    ensures Untagged(Filter(Tagged(|events|, entries), LastsIn(v, events))) == entries
  {
    FilterTrue(Tagged(|events|, entries), LastsIn(v, events));
    UntaggedTagged(|events|, entries);
  }

  lemma LastingSplits(v: View, events: seq<Event>, log: seq<Logged>, added: seq<Entry>)
    ensures Untagged(Filter(log + Tagged(|events|, added), LastsIn(v, events)))
         == Untagged(Filter(log, LastsIn(v, events))) + added
  {
    FilterJoins(log, Tagged(|events|, added), LastsIn(v, events));
    UntaggedJoin(Filter(log, LastsIn(v, events)), Filter(Tagged(|events|, added), LastsIn(v, events)));
    NewestLast(v, events, added);
  }

  /** The file reads back as everything ever recorded, in order, less exactly what a
      later compaction or removal dropped. */
  lemma {:induction false} JournalIsWhatLasts(v: View, events: seq<Event>)
    ensures Run(v, events).contents.entries == Lasting(v, events)
  {
    if events == [] {
      NewestLast(v, events, v.contents.entries);
    } else {
      var m := |events| - 1;
      var before := events[..m];
      JournalIsWhatLasts(v, before);
      TagsAreBounded(v, before);
      LastingOneMore(v, events, Log(v, before));
      LastingSplits(v, events, Log(v, before), Added(Run(v, before), events[m]));
      EntriesAfter(Run(v, before), events[m]);
    }
  }

  /** Some recording put `e` in the file and nothing since dropped it. */
  predicate AddedAndLasting(v: View, events: seq<Event>, e: Entry, n: nat) {
    n < |events| && e in Added(Run(v, events[..n]), events[n]) && Lasts(v, events, n + 1, e)
  }

  lemma {:induction false} LogHolds(v: View, events: seq<Event>, l: Logged)
    requires v.contents.entries == []
    ensures l in Log(v, events) <==>
              0 < l.from <= |events| && l.entry in Added(Run(v, events[..l.from - 1]), events[l.from - 1])
  {
    if events != [] {
      var m := |events| - 1;
      LogHolds(v, events[..m], l);
      TaggedHolds(m + 1, Added(Run(v, events[..m]), events[m]), l);
      if 0 < l.from <= m {
        assert events[..m][..l.from - 1] == events[..l.from - 1];
      }
    }
  }

  lemma TaggedHolds(from: nat, entries: seq<Entry>, l: Logged)
    ensures l in Tagged(from, entries) <==> l.from == from && l.entry in entries
  {
    if l.from == from && l.entry in entries {
      var i :| 0 <= i < |entries| && entries[i] == l.entry;
      assert Tagged(from, entries)[i] == l;
    }
  }

  lemma UntaggedHolds(log: seq<Logged>, e: Entry)
    ensures e in Untagged(log) <==> exists l :: l in log && l.entry == e
  {
    if l :| l in log && l.entry == e {
      var i :| 0 <= i < |log| && log[i] == l;
      assert Untagged(log)[i] == e;
    }
  }

  lemma EntryIsReadBackIffItLasts(v: View, events: seq<Event>, e: Entry)
    requires v.contents.entries == []
    ensures e in Run(v, events).contents.entries <==> exists n: nat :: AddedAndLasting(v, events, e, n)
  {
    JournalIsWhatLasts(v, events);
    var lasting := Filter(Log(v, events), LastsIn(v, events));
    UntaggedHolds(lasting, e);
    if l :| l in lasting && l.entry == e {
      FilterKeepsExactly(Log(v, events), LastsIn(v, events), l);
      LogHolds(v, events, l);
      assert AddedAndLasting(v, events, e, l.from - 1);
    }
    if n: nat :| AddedAndLasting(v, events, e, n) {
      LogHolds(v, events, Logged(n + 1, e));
      FilterKeepsExactly(Log(v, events), LastsIn(v, events), Logged(n + 1, e));
    }
  }

  // ---------------------------------------------------------------------------
  // Agreement between the file and the state beside it
  // ---------------------------------------------------------------------------

  ghost predicate Once(entries: seq<Entry>) {
    forall i, j :: 0 <= i < j < |entries| ==> entries[i].signature != entries[j].signature
  }

  /** The set of written signatures is the file's, each is there once, and a file that
      holds anything starts with the current identity. */
  ghost predicate Agrees(v: View) {
    && v.identity.Some?
    && v.written == SignaturesIn(v.contents.entries)
    && Once(v.contents.entries)
    && (v.open || v.contents != EMPTY ==> v.contents.header == v.identity)
  }

  /** The event left behind a file that belongs to another deployment, or that nothing
      vouches for: neither removing nor truncating it worked. */
  predicate LeavesStaleFile(v: View, event: Event) {
    match event
    case Restarting(identity, removal) => removal == Kept && v.contents != EMPTY && v.contents.header != Some(identity)
    case Resetting(identity, removal) => removal == Kept && v.contents != EMPTY && v.contents != Contents(Some(identity), [])
    case _ => false
  }

  lemma {:induction false} FilterStaysOnce(entries: seq<Entry>, p: Entry -> bool)
    requires Once(entries)
    ensures Once(Filter(entries, p))
  {
    if entries != [] {
      var n := |entries| - 1;
      FilterStaysOnce(entries[..n], p);
      forall e | e in Filter(entries[..n], p) ensures e.signature != entries[n].signature {
        FilterKeepsExactly(entries[..n], p, e);
      }
    }
  }

  lemma AppendingStaysOnce(entries: seq<Entry>, entry: Entry)
    requires Once(entries) && entry.signature !in SignaturesIn(entries)
    ensures Once(entries + [entry])
    ensures SignaturesIn(entries + [entry]) == SignaturesIn(entries) + {entry.signature}
  {
    forall e | e in entries ensures e.signature in SignaturesIn(entries) {
    }
    assert entry in entries + [entry];
    assert forall e :: e in entries ==> e in entries + [entry];
  }

  lemma RecordingAgrees(v: View, entry: Entry, fault: Option<AppendFault>)
    requires Agrees(v)
    ensures Agrees(Recorded(v, entry, fault))
  {
    if entry.signature !in v.written {
      AppendingStaysOnce(v.contents.entries, entry);
    }
  }

  /** Every event keeps the agreement, except exactly the removals that fail outright. */
  lemma AgreementIsKept(v: View, event: Event)
    requires Agrees(v)
    ensures Agrees(After(v, event)) <==> !LeavesStaleFile(v, event)
  {
    match event
    case Recording(entry, fault) =>
      RecordingAgrees(v, entry, fault);
    case Compacting(floor) =>
      FilterStaysOnce(v.contents.entries, (e: Entry) => e.slot > floor);
    case Restarting(_, _) =>
    case Resetting(_, _) =>
      if v.contents.entries != [] {
        assert v.contents.entries[0].signature in SignaturesIn(v.contents.entries);
      }
  }

  lemma {:induction false} RunsAgree(v: View, events: seq<Event>)
    requires Agrees(v)
    requires forall j :: 0 <= j < |events| ==> !LeavesStaleFile(Run(v, events[..j]), events[j])
    ensures Agrees(Run(v, events))
  {
    if events != [] {
      var m := |events| - 1;
      forall j | 0 <= j < m ensures !LeavesStaleFile(Run(v, events[..m][..j]), events[..m][j]) {
        assert events[..m][..j] == events[..j];
      }
      RunsAgree(v, events[..m]);
      AgreementIsKept(Run(v, events[..m]), events[m]);
    }
  }
}
