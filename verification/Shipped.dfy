/** The shipped journal (shipped.rs): its text format, what a torn file yields, and
    the object that appends to it, compacts it and restores from it. */
module Shipped {
  import opened Primitives
  import opened Text

  const IDENTITY_PREFIX: string := "identity "

  datatype Entry = Entry(signature: Signature, slot: u64)

  // ---------------------------------------------------------------------------
  // Writing
  // ---------------------------------------------------------------------------

  function HeaderLine(identity: string): string {
    IDENTITY_PREFIX + identity
  }

  function EntryLine(codec: Codec, entry: Entry): string {
    codec.show(entry.signature) + " " + ShowNat(entry.slot)
  }

  function RenderEntries(codec: Codec, entries: seq<Entry>): string {
    if entries == [] then "" else EntryLine(codec, entries[0]) + "\n" + RenderEntries(codec, entries[1..])
  }

  function Render(codec: Codec, header: Option<string>, entries: seq<Entry>): string {
    (if header.Some? then HeaderLine(header.value) + "\n" else "") + RenderEntries(codec, entries)
  }

  // ---------------------------------------------------------------------------
  // Reading
  // ---------------------------------------------------------------------------

  function ParseEntry(codec: Codec, line: string): Option<Entry> {
    match SplitOnce(line, ' ')
    case None => None
    case Some((signature, slot)) =>
      if codec.parse(signature).Some? && ParseU64(slot).Some? then
        Some(Entry(codec.parse(signature).value, ParseU64(slot).value))
      else None
  }

  function HeaderOf(line: string): Option<string> {
    if IDENTITY_PREFIX <= line then Some(line[|IDENTITY_PREFIX|..]) else None
  }

  function ParseLines(codec: Codec, lines: seq<string>): seq<Entry> {
    if lines == [] then []
    else
      var last := ParseEntry(codec, lines[|lines| - 1]);
      ParseLines(codec, lines[..|lines| - 1]) + if last.Some? then [last.value] else []
  }

  datatype Contents = Contents(header: Option<string>, entries: seq<Entry>)

  function Read(codec: Codec, text: string): Contents {
    var lines := Lines(text);
    if lines != [] && HeaderOf(lines[0]).Some? then
      Contents(HeaderOf(lines[0]), ParseLines(codec, lines[1..]))
    else
      Contents(None, ParseLines(codec, lines))
  }

  /** Reads line by line, skipping what does not parse. */
  method ReadJournal(codec: Codec, text: string) returns (contents: Contents)
    ensures contents == Read(codec, text)
  {
    var lines := Lines(text);
    var header := if lines != [] then HeaderOf(lines[0]) else None;
    if header.Some? {
      lines := lines[1..];
    }
    var entries := [];
    for i := 0 to |lines|
      invariant entries == ParseLines(codec, lines[..i])
    {
      assert lines[..i + 1][..i] == lines[..i];
      var entry := ParseEntry(codec, lines[i]);
      if entry.Some? {
        entries := entries + [entry.value];
      }
    }
    assert lines[..|lines|] == lines;
    return Contents(header, entries);
  }

  /** A line is an entry exactly if it is a signature's text, a blank and a number. */
  lemma LinesThatAreEntries(codec: Codec, line: string, entry: Entry)
    requires Lawful(codec)
    ensures ParseEntry(codec, line) == Some(entry) <==>
              exists digits :: line == codec.show(entry.signature) + " " + digits && ParseU64(digits) == Some(entry.slot)
  {
    var shown := codec.show(entry.signature);
    assert ShowsOneWord(codec, entry.signature) && ' ' !in shown;
    if ParseEntry(codec, line) == Some(entry) {
      var (signature, slot) := SplitOnce(line, ' ').value;
      assert ParsesOnly(codec, signature, entry.signature);
      assert line == shown + " " + slot;
    }
    if digits :| line == shown + " " + digits && ParseU64(digits) == Some(entry.slot) {
      assert line == shown + [' '] + digits;
      SplitsAtTheFirst(shown, ' ', digits);
      assert ParsesOnly(codec, shown, entry.signature);
    }
  }

  /** Each line stands for itself: one that is no entry costs no other. */
  lemma {:induction false} LinesAreReadApart(codec: Codec, before: seq<string>, after: seq<string>)
    ensures ParseLines(codec, before + after) == ParseLines(codec, before) + ParseLines(codec, after)
  {
    if after == [] {
      assert before + after == before;
    } else {
      var n := |after| - 1;
      LinesAreReadApart(codec, before, after[..n]);
      assert (before + after)[..|before| + n] == before + after[..n];
    }
  }

  /** A header is what follows the word `identity` and a blank on the first line. */
  lemma LinesThatAreHeaders(line: string, identity: string)
    ensures HeaderOf(line) == Some(identity) <==> line == "identity " + identity
  {
  }

  // ---------------------------------------------------------------------------
  // Round trip
  // ---------------------------------------------------------------------------

  lemma EntryLineIsOneLine(codec: Codec, entry: Entry)
    requires Lawful(codec)
    ensures OneLine(EntryLine(codec, entry))
    ensures HeaderOf(EntryLine(codec, entry)) == None
  {
    var shown, digits := codec.show(entry.signature), ShowNat(entry.slot);
    var line := EntryLine(codec, entry);
    assert ShowsOneWord(codec, entry.signature);
    assert line == shown + " " + digits;
    forall i | 0 <= i < |line| ensures line[i] != '\n' && (i != |shown| ==> line[i] != ' ') {
      if i < |shown| {
        assert line[i] == shown[i];
      } else if i > |shown| {
        assert line[i] == digits[i - |shown| - 1];
        assert IsDigit(line[i]);
      }
    }
    assert line[|line| - 1] == digits[|digits| - 1] && IsDigit(digits[|digits| - 1]);
    NotAHeader(line);
  }

  lemma NotAHeader(line: string)
    requires |line| <= 8 || line[8] != ' '
    ensures HeaderOf(line) == None
  {
    assert IDENTITY_PREFIX[8] == ' ';
  }

  lemma EntryParsesBack(codec: Codec, entry: Entry)
    requires Lawful(codec)
    ensures ParseEntry(codec, EntryLine(codec, entry)) == Some(entry)
  {
    var shown, digits := codec.show(entry.signature), ShowNat(entry.slot);
    assert ParsesOnly(codec, shown, entry.signature) && ShowsOneWord(codec, entry.signature);
    assert ' ' !in shown;
    assert shown + " " + digits == shown + [' '] + digits;
    SplitsAtTheFirst(shown, ' ', digits);
    ParsesWhatIsShown(entry.slot);
  }

  lemma {:induction false} ParseLinesPrepends(codec: Codec, first: string, rest: seq<string>)
    ensures ParseLines(codec, [first] + rest) ==
            (match ParseEntry(codec, first) case Some(entry) => [entry] case None => []) + ParseLines(codec, rest)
  {
    if rest == [] {
      assert [first] + rest == [first];
      assert [first][..0] == [];
    } else {
      var n := |rest| - 1;
      ParseLinesPrepends(codec, first, rest[..n]);
      assert ([first] + rest)[..n + 1] == [first] + rest[..n];
    }
  }

  /** Reading one rendered entry and then whatever follows it. */
  lemma ReadsOneEntry(codec: Codec, entry: Entry, rest: string)
    requires Lawful(codec)
    ensures ParseLines(codec, Lines(EntryLine(codec, entry) + "\n" + rest)) == [entry] + ParseLines(codec, Lines(rest))
  {
    EntryLineIsOneLine(codec, entry);
    EntryParsesBack(codec, entry);
    FirstLine(EntryLine(codec, entry), rest);
    ParseLinesPrepends(codec, EntryLine(codec, entry), Lines(rest));
  }

  lemma {:induction false} EntriesReadBack(codec: Codec, entries: seq<Entry>)
    requires Lawful(codec)
    ensures ParseLines(codec, Lines(RenderEntries(codec, entries))) == entries
  {
    if entries == [] {
      LastLine("");
    } else {
      EntriesReadBack(codec, entries[1..]);
      ReadsOneEntry(codec, entries[0], RenderEntries(codec, entries[1..]));
      assert entries == [entries[0]] + entries[1..];
    }
  }

  /** No line of entries is mistaken for a header. */
  lemma EntriesHaveNoHeader(codec: Codec, entries: seq<Entry>)
    requires Lawful(codec)
    ensures var lines := Lines(RenderEntries(codec, entries)); lines != [] ==> HeaderOf(lines[0]) == None
  {
    if entries == [] {
      LastLine("");
    } else {
      EntryLineIsOneLine(codec, entries[0]);
      FirstLine(EntryLine(codec, entries[0]), RenderEntries(codec, entries[1..]));
    }
  }

  /** A header and entries read back exactly as they were written. */
  lemma JournalReadsBack(codec: Codec, header: Option<string>, entries: seq<Entry>)
    requires Lawful(codec)
    requires header.Some? ==> OneLine(header.value)
    ensures Read(codec, Render(codec, header, entries)) == Contents(header, entries)
  {
    EntriesReadBack(codec, entries);
    if header.Some? {
      HeaderReadsBack(codec, header.value, RenderEntries(codec, entries));
    } else {
      assert Render(codec, header, entries) == RenderEntries(codec, entries);
      EntriesHaveNoHeader(codec, entries);
    }
  }

  lemma HeaderReadsBack(codec: Codec, identity: string, rest: string)
    requires OneLine(identity)
    ensures Read(codec, HeaderLine(identity) + "\n" + rest) == Contents(Some(identity), ParseLines(codec, Lines(rest)))
  {
    var line := HeaderLine(identity);
    assert '\n' !in IDENTITY_PREFIX;
    assert line[|line| - 1] != '\r' by {
      if identity != "" {
        assert line[|line| - 1] == identity[|identity| - 1];
      } else {
        assert line == IDENTITY_PREFIX;
      }
    }
    FirstLine(line, rest);
    assert line[|IDENTITY_PREFIX|..] == identity;
  }

  // ---------------------------------------------------------------------------
  // Torn files
  // ---------------------------------------------------------------------------

  /** What the first `k` characters of rendered entries should yield: the entries whose
      lines are whole, and one more if the cut falls inside its slot digits, with the
      digits before the cut for its slot. */
  function Surviving(codec: Codec, entries: seq<Entry>, k: nat): seq<Entry> {
    if entries == [] then []
    else if k <= |EntryLine(codec, entries[0])| then CutShort(codec, entries[0], k)
    else [entries[0]] + Surviving(codec, entries[1..], k - |EntryLine(codec, entries[0])| - 1)
  }

  function CutShort(codec: Codec, entry: Entry, k: nat): seq<Entry>
    requires k <= |EntryLine(codec, entry)|
  {
    var start := |codec.show(entry.signature)| + 1;
    if k <= start then []
    else
      SlotPrefixFits(entry, k - start);
      [Entry(entry.signature, Value(ShowNat(entry.slot)[..k - start]))]
  }

  lemma SlotPrefixFits(entry: Entry, m: nat)
    requires m <= |ShowNat(entry.slot)|
    ensures Value(ShowNat(entry.slot)[..m]) <= entry.slot
  {
    PrefixIsSmaller(ShowNat(entry.slot), m);
    ValueOfShown(entry.slot);
  }

  /** How many characters the first `kept` entries take, line ends included. */
  function Length(codec: Codec, entries: seq<Entry>, kept: nat): nat
    requires kept <= |entries|
  {
    if kept == 0 then 0 else |EntryLine(codec, entries[0])| + 1 + Length(codec, entries[1..], kept - 1)
  }

  lemma {:induction false} LengthIsRendered(codec: Codec, entries: seq<Entry>, kept: nat)
    requires kept <= |entries|
    ensures Length(codec, entries, kept) == |RenderEntries(codec, entries[..kept])|
  {
    if kept > 0 {
      LengthIsRendered(codec, entries[1..], kept - 1);
      assert entries[..kept][1..] == entries[1..][..kept - 1];
    }
  }

  /** The first `kept` entries are exactly those whose lines are whole. */
  ghost predicate Whole(codec: Codec, entries: seq<Entry>, k: nat, kept: nat) {
    && kept <= |entries|
    && Length(codec, entries, kept) <= k
    && (kept < |entries| ==> k < Length(codec, entries, kept + 1))
  }

  /** So every entry whose line is whole survives as it was, and at most one more, really
      being written, with a slot no larger than its own. */
  lemma {:induction false} WholeEntriesSurvive(codec: Codec, entries: seq<Entry>, k: nat) returns (kept: nat)
    requires k <= Length(codec, entries, |entries|)
    ensures Whole(codec, entries, k, kept)
    ensures var read := Surviving(codec, entries, k);
            && kept <= |read| <= kept + 1
            && read[..kept] == entries[..kept]
            && (|read| > kept ==>
                  && kept < |entries|
                  && read[kept].signature == entries[kept].signature && read[kept].slot <= entries[kept].slot)
  {
    if entries == [] {
      return 0;
    }
    if k <= |EntryLine(codec, entries[0])| {
      var start := |codec.show(entries[0].signature)| + 1;
      if k > start {
        SlotPrefixFits(entries[0], k - start);
      }
      return 0;
    }
    var later := k - |EntryLine(codec, entries[0])| - 1;
    var inner := WholeEntriesSurvive(codec, entries[1..], later);
    kept := inner + 1;
    var read := Surviving(codec, entries[1..], later);
    assert entries[..kept] == [entries[0]] + entries[1..][..inner];
    assert ([entries[0]] + read)[..kept] == [entries[0]] + read[..inner];
  }

  /** A piece of an entry's line is one line, and no header. */
  lemma PieceIsPlain(codec: Codec, entry: Entry, k: nat)
    requires Lawful(codec)
    requires k <= |EntryLine(codec, entry)|
    ensures '\n' !in EntryLine(codec, entry)[..k]
    ensures HeaderOf(EntryLine(codec, entry)[..k]) == None
  {
    var shown, line := codec.show(entry.signature), EntryLine(codec, entry);
    EntryLineIsOneLine(codec, entry);
    assert ShowsOneWord(codec, entry.signature);
    assert line[8] == shown[8];
    NotAHeader(line[..k]);
  }

  lemma CutBeforeTheSlot(codec: Codec, entry: Entry, k: nat)
    requires Lawful(codec) && k <= |codec.show(entry.signature)|
    ensures ParseEntry(codec, EntryLine(codec, entry)[..k]) == None
  {
    var shown := codec.show(entry.signature);
    assert ShowsOneWord(codec, entry.signature);
    assert EntryLine(codec, entry)[..k] == shown[..k];
    SplitsNowhere(shown[..k], ' ');
  }

  lemma CutInTheSlot(codec: Codec, entry: Entry, m: nat)
    requires Lawful(codec) && m <= |ShowNat(entry.slot)|
    ensures Value(ShowNat(entry.slot)[..m]) <= entry.slot
    ensures ParseEntry(codec, codec.show(entry.signature) + [' '] + ShowNat(entry.slot)[..m]) ==
            if m == 0 then None else Some(Entry(entry.signature, Value(ShowNat(entry.slot)[..m])))
  {
    var shown, part := codec.show(entry.signature), ShowNat(entry.slot)[..m];
    assert ParsesOnly(codec, shown, entry.signature) && ShowsOneWord(codec, entry.signature);
    SplitsAtTheFirst(shown, ' ', part);
    SlotPrefixFits(entry, m);
    if m > 0 {
      assert IsDigit(part[0]);
    }
  }

  /** What is left of one entry's line when only its first `k` characters were written:
      it still parses exactly when the cut falls inside the slot digits. */
  lemma TornLine(codec: Codec, entry: Entry, k: nat)
    requires Lawful(codec)
    requires k <= |EntryLine(codec, entry)|
    ensures ParseEntry(codec, EntryLine(codec, entry)[..k]) ==
            if CutShort(codec, entry, k) == [] then None else Some(CutShort(codec, entry, k)[0])
  {
    var shown, digits := codec.show(entry.signature), ShowNat(entry.slot);
    if k <= |shown| {
      CutBeforeTheSlot(codec, entry, k);
    } else {
      var m := k - |shown| - 1;
      assert EntryLine(codec, entry)[..k] == shown + [' '] + digits[..m];
      CutInTheSlot(codec, entry, m);
    }
  }

  /** Entries that `text` reads as, in the sense of `Same`. */
  ghost predicate ReadsAs(codec: Codec, text: string, read: seq<Entry>) {
    forall same :: Same(text, same) ==> ParseLines(codec, Lines(same)) == read
  }

  lemma ReadingIsParsing(codec: Codec, text: string, read: seq<Entry>)
    requires ReadsAs(codec, text, read)
    ensures ParseLines(codec, Lines(text)) == read
  {
    assert Same(text, text);
  }

  /** What the first `k` characters of rendered entries read as. */
  ghost predicate Yields(codec: Codec, entries: seq<Entry>, k: nat, read: seq<Entry>) {
    forall same :: Same(entries, same) ==> k <= |RenderEntries(codec, same)| && ReadsAs(codec, RenderEntries(codec, same)[..k], read)
  }

  lemma YieldedIsRead(codec: Codec, entries: seq<Entry>, k: nat, read: seq<Entry>)
    requires Yields(codec, entries, k, read)
    ensures k <= |RenderEntries(codec, entries)| && ReadsAs(codec, RenderEntries(codec, entries)[..k], read)
  {
    assert Same(entries, entries);
  }

  /** Reading a prefix that reaches past the first line. */
  lemma YieldsLater(codec: Codec, entries: seq<Entry>, later: nat, read: seq<Entry>)
    requires Lawful(codec)
    requires entries != [] && Yields(codec, entries[1..], later, read)
    ensures Yields(codec, entries, |EntryLine(codec, entries[0])| + 1 + later, [entries[0]] + read)
  {
    YieldedIsRead(codec, entries[1..], later, read);
    ReadsPastOne(codec, entries[0], RenderEntries(codec, entries), RenderEntries(codec, entries[1..]), later, read);
  }

  lemma ReadsPastOne(codec: Codec, entry: Entry, text: string, rest: string, later: nat, read: seq<Entry>)
    requires Lawful(codec) && later <= |rest|
    requires text == EntryLine(codec, entry) + "\n" + rest
    requires ReadsAs(codec, rest[..later], read)
    ensures ReadsAs(codec, text[..|EntryLine(codec, entry)| + 1 + later], [entry] + read)
  {
    PrefixSplits(EntryLine(codec, entry), rest, later);
    ReadingIsParsing(codec, rest[..later], read);
    ReadsOneEntry(codec, entry, rest[..later]);
  }

  lemma PrefixSplits(line: string, rest: string, later: nat)
    requires later <= |rest|
    ensures (line + "\n" + rest)[..|line| + 1 + later] == line + "\n" + rest[..later]
  {
  }

  lemma ReadsFirstPiece(codec: Codec, entries: seq<Entry>, k: nat)
    requires Lawful(codec)
    requires entries != [] && k <= |EntryLine(codec, entries[0])|
    ensures Yields(codec, entries, k, CutShort(codec, entries[0], k))
  {
    var piece := EntryLine(codec, entries[0])[..k];
    assert RenderEntries(codec, entries)[..k] == piece;
    PieceIsPlain(codec, entries[0], k);
    TornLine(codec, entries[0], k);
    LastLine(piece);
    assert [piece][..0] == [];
    if piece != "" {
      assert ParseLines(codec, [piece]) == CutShort(codec, entries[0], k);
    }
  }

  lemma NothingIsRead(codec: Codec)
    ensures Yields(codec, [], 0, [])
  {
    LastLine("");
    assert RenderEntries(codec, [])[..0] == "";
  }

  lemma SurvivesLater(codec: Codec, entries: seq<Entry>, later: nat)
    requires entries != []
    ensures Surviving(codec, entries, |EntryLine(codec, entries[0])| + 1 + later) ==
            [entries[0]] + Surviving(codec, entries[1..], later)
  {
  }

  lemma PrefixGoesOn(codec: Codec, entries: seq<Entry>, k: nat) returns (later: nat)
    requires entries != [] && |EntryLine(codec, entries[0])| < k <= |RenderEntries(codec, entries)|
    ensures k == |EntryLine(codec, entries[0])| + 1 + later && later <= |RenderEntries(codec, entries[1..])|
  {
    later := k - |EntryLine(codec, entries[0])| - 1;
  }

  lemma SurvivesFirst(codec: Codec, entries: seq<Entry>, k: nat)
    requires entries != [] && k <= |EntryLine(codec, entries[0])|
    ensures Surviving(codec, entries, k) == CutShort(codec, entries[0], k)
  {
  }

  lemma {:induction false} PrefixYieldsWhatSurvives(codec: Codec, entries: seq<Entry>, k: nat)
    requires Lawful(codec)
    requires k <= |RenderEntries(codec, entries)|
    ensures Yields(codec, entries, k, Surviving(codec, entries, k))
  {
    if entries == [] {
      NothingIsRead(codec);
    } else if k <= |EntryLine(codec, entries[0])| {
      ReadsFirstPiece(codec, entries, k);
      SurvivesFirst(codec, entries, k);
    } else {
      var later := PrefixGoesOn(codec, entries, k);
      PrefixYieldsWhatSurvives(codec, entries[1..], later);
      YieldsLater(codec, entries, later, Surviving(codec, entries[1..], later));
      SurvivesLater(codec, entries, later);
    }
  }

  /** A prefix that reaches past the header's line. */
  lemma ReadsPastHeader(codec: Codec, identity: string, text: string, rest: string, later: nat)
    requires OneLine(identity) && later <= |rest|
    requires text == HeaderLine(identity) + "\n" + rest
    ensures Read(codec, text[..|HeaderLine(identity)| + 1 + later]) == Contents(Some(identity), ParseLines(codec, Lines(rest[..later])))
  {
    PrefixSplits(HeaderLine(identity), rest, later);
    HeaderReadsBack(codec, identity, rest[..later]);
  }

  lemma CutInHeader(codec: Codec, identity: string, text: string, rest: string, k: nat)
    requires Lawful(codec) && OneLine(identity)
    requires text == HeaderLine(identity) + "\n" + rest
    requires k <= |HeaderLine(identity)|
    ensures Read(codec, text[..k]).entries == []
  {
    assert text[..k] == HeaderLine(identity)[..k];
    TornHeader(codec, identity, k);
  }

  /** Nothing is read from a journal whose header is not whole. */
  lemma TornHeaderYieldsNothing(codec: Codec, identity: string, entries: seq<Entry>, k: nat)
    requires Lawful(codec) && OneLine(identity)
    requires k <= |HeaderLine(identity)|
    ensures k <= |Render(codec, Some(identity), entries)|
    ensures Read(codec, Render(codec, Some(identity), entries)[..k]).entries == []
  {
    CutInHeader(codec, identity, Render(codec, Some(identity), entries), RenderEntries(codec, entries), k);
  }

  /** Whatever longer prefix reaches the disk, reading it yields the header and exactly
      what survives of the entries. */
  lemma TornJournalYieldsWhatSurvives(codec: Codec, identity: string, entries: seq<Entry>, k: nat)
    requires Lawful(codec) && OneLine(identity)
    requires k <= |RenderEntries(codec, entries)|
    ensures |HeaderLine(identity)| + 1 + k <= |Render(codec, Some(identity), entries)|
    ensures Read(codec, Render(codec, Some(identity), entries)[..|HeaderLine(identity)| + 1 + k]) ==
            Contents(Some(identity), Surviving(codec, entries, k))
  {
    ReadsPastHeader(codec, identity, Render(codec, Some(identity), entries), RenderEntries(codec, entries), k);
    PrefixYieldsWhatSurvives(codec, entries, k);
    YieldedIsRead(codec, entries, k, Surviving(codec, entries, k));
    ReadingIsParsing(codec, RenderEntries(codec, entries)[..k], Surviving(codec, entries, k));
  }

  /** So a torn journal yields every entry whose line is whole, and at most one more,
      whose signature was really being written and whose slot is no larger. */
  lemma TornJournalIsSafe(codec: Codec, identity: string, entries: seq<Entry>, k: nat) returns (kept: nat)
    requires Lawful(codec) && OneLine(identity)
    requires k <= |RenderEntries(codec, entries)|
    ensures |HeaderLine(identity)| + 1 + k <= |Render(codec, Some(identity), entries)|
    ensures Whole(codec, entries, k, kept)
    ensures var read := Read(codec, Render(codec, Some(identity), entries)[..|HeaderLine(identity)| + 1 + k]).entries;
            && kept <= |read| <= kept + 1
            && read[..kept] == entries[..kept]
            && (|read| > kept ==>
                  && kept < |entries|
                  && read[kept].signature == entries[kept].signature && read[kept].slot <= entries[kept].slot)
  {
    TornJournalYieldsWhatSurvives(codec, identity, entries, k);
    LengthIsRendered(codec, entries, |entries|);
    assert entries[..|entries|] == entries;
    kept := WholeEntriesSurvive(codec, entries, k);
  }

  lemma TornHeader(codec: Codec, identity: string, k: nat)
    requires Lawful(codec) && OneLine(identity)
    requires k <= |HeaderLine(identity)|
    ensures Read(codec, HeaderLine(identity)[..k]).entries == []
  {
    var line := HeaderLine(identity);
    var piece := line[..k];
    assert '\n' !in IDENTITY_PREFIX;
    assert forall i :: 0 <= i < k ==> piece[i] == line[i];
    if |piece| < |IDENTITY_PREFIX| {
      NotAHeader(piece);
      TooShortForASignature(codec, piece);
    } else {
      assert piece[..|IDENTITY_PREFIX|] == IDENTITY_PREFIX;
    }
    ReadsNothing(codec, piece);
  }

  lemma ReadsNothing(codec: Codec, piece: string)
    requires '\n' !in piece
    requires HeaderOf(piece).Some? || ParseEntry(codec, piece) == None
    ensures Read(codec, piece).entries == []
  {
    LastLine(piece);
    assert [piece][1..] == [] && [piece][..0] == [];
    if HeaderOf(piece) == None {
      assert ParseLines(codec, [piece]) == [];
    }
  }

  lemma TooShortForASignature(codec: Codec, piece: string)
    requires Lawful(codec) && |piece| < SHORTEST_SIGNATURE
    ensures ParseEntry(codec, piece) == None
  {
    forall text | codec.parse(text).Some? ensures |text| >= SHORTEST_SIGNATURE {
      var s := codec.parse(text).value;
      assert ParsesOnly(codec, text, s) && ShowsOneWord(codec, s);
    }
  }
}
