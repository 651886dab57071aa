/** Backfilling (backfill.rs): parsing how far back to go, and pushing the records that
    were crawled, oldest first. */
module Backfill {
  import opened Primitives
  import opened Text
  import opened Sorting

  // ---------------------------------------------------------------------------
  // Durations
  // ---------------------------------------------------------------------------

  /** `Overflow` stands for arithmetic that ends the program. */
  datatype DurationError = ExpectedNumber | UnsupportedUnit | Unfinished | Overflow

  /** A debug build checks every product; a release build keeps its low 64 bits. Adding
      durations is checked in both. */
  datatype Build = Debug | Release

  /** One amount with its unit, as written. */
  datatype Term = Term(digits: string, unit: char)

  function UnitSeconds(unit: char): Option<nat> {
    match unit
    case 's' => Some(1)
    case 'm' => Some(60)
    case 'h' => Some(60 * 60)
    case 'd' => Some(24 * 60 * 60)
    case 'w' => Some(7 * 24 * 60 * 60)
    case _ => None
  }

  predicate ValidTerm(term: Term) {
    && term.digits != "" && AllDigits(term.digits) && Value(term.digits) <= MAX_U64
    && UnitSeconds(term.unit).Some?
  }

  /** A second, sixty of them, and so on; no other letters. */
  lemma UnitsAreTheUsual(unit: char)
    ensures UnitSeconds(unit).Some? <==> unit in "smhdw"
    ensures UnitSeconds('s') == Some(1)
    ensures UnitSeconds('m').value == 60 * UnitSeconds('s').value
    ensures UnitSeconds('h').value == 60 * UnitSeconds('m').value
    ensures UnitSeconds('d').value == 24 * UnitSeconds('h').value
    ensures UnitSeconds('w').value == 7 * UnitSeconds('d').value
  {
  }

  predicate ValidTerms(terms: seq<Term>) {
    forall t :: t in terms ==> ValidTerm(t)
  }

  function RenderTerms(terms: seq<Term>): string {
    if terms == [] then "" else terms[0].digits + [terms[0].unit] + RenderTerms(terms[1..])
  }

  function TermSeconds(term: Term): nat
    requires ValidTerm(term)
  {
    Value(term.digits) * UnitSeconds(term.unit).value
  }

  /** How long the terms say, over the integers. */
  function Seconds(terms: seq<Term>): nat
    requires ValidTerms(terms)
  {
    if terms == [] then 0
    else
      var n := |terms| - 1;
      assert terms[n] in terms;
      Seconds(terms[..n]) + TermSeconds(terms[n])
  }

  function Product(amount: nat, unitSeconds: nat, build: Build): Option<u64> {
    if amount * unitSeconds <= MAX_U64 then Some(amount * unitSeconds)
    else if build.Debug? then None
    else Some(amount * unitSeconds % (MAX_U64 + 1))
  }

  function Sum(total: u64, more: Option<u64>): Option<u64> {
    if more.None? || total + more.value > MAX_U64 then None else Some(total + more.value)
  }

  /** What a build adds up; nothing if the program ends on the way. */
  function Total(terms: seq<Term>, build: Build): Option<u64>
    requires ValidTerms(terms)
  {
    if terms == [] then Some(0)
    else
      var n := |terms| - 1;
      assert terms[n] in terms;
      var earlier := Total(terms[..n], build);
      if earlier.None? then None
      else Sum(earlier.value, Product(Value(terms[n].digits), UnitSeconds(terms[n].unit).value, build))
  }

  /** Whatever the build, the total is exact if it fits, and only then; a debug build
      has no other totals. */
  lemma {:induction false} TotalIsExactIffItFits(terms: seq<Term>, build: Build)
    requires ValidTerms(terms)
    ensures Total(terms, build) == Some(Seconds(terms)) <==> Seconds(terms) <= MAX_U64
    ensures build.Debug? ==> (Total(terms, build).Some? <==> Seconds(terms) <= MAX_U64)
  {
    if terms != [] {
      var n := |terms| - 1;
      assert terms[n] in terms;
      TotalIsExactIffItFits(terms[..n], build);
    }
  }

  /** A total that is not exact is off by so many times 64 bits. */
  lemma {:induction false} TotalsWrapWhole(terms: seq<Term>, build: Build) returns (wraps: nat)
    requires ValidTerms(terms) && Total(terms, build).Some?
    ensures Seconds(terms) == Total(terms, build).value + wraps * 0x1_0000_0000_0000_0000
  {
    wraps := 0;
    if terms != [] {
      var n := |terms| - 1;
      assert terms[n] in terms;
      var earlier := TotalsWrapWhole(terms[..n], build);
      wraps := earlier + TermSeconds(terms[n]) / 0x1_0000_0000_0000_0000;
    }
  }

  /** Amounts are decimal digits that fit 64 bits, with one of five letters. */
  lemma TermsAreExact(term: Term)
    ensures ValidTerm(term) <==>
              && |term.digits| > 0 && (forall i :: 0 <= i < |term.digits| ==> '0' <= term.digits[i] <= '9')
              && Value(term.digits) <= 18446744073709551615 && term.unit in "smhdw"
  {
  }

  const WRAPPING: nat := 30500568904944

  /** In a release build this many weeks are less than one. */
  lemma WrappedProductIsAccepted(weeks: Term)
    requires AllDigits(weeks.digits) && Value(weeks.digits) == WRAPPING && weeks.unit == 'w' && weeks.digits != ""
    ensures ValidTerms([weeks])
    ensures Total([weeks], Release) == Some(579584) && Total([weeks], Debug) == None
    ensures Seconds([weeks]) == 0x1_0000_0000_0000_0000 + 579584
  {
    assert ValidTerm(weeks);
    assert [weeks][..0] == [];
    assert Total([], Release) == Some(0) == Total([], Debug);
    assert Seconds([]) == 0;
  }

  lemma SomeTextWraps() returns (weeks: Term)
    ensures Spells(weeks.digits + "w", [weeks]) && Answer([weeks], Release) == Ok(579584)
    ensures Seconds([weeks]) > MAX_U64
  {
    weeks := Term(ShowNat(WRAPPING), 'w');
    ValueOfShown(WRAPPING);
    WrappedProductIsAccepted(weeks);
    RendersOne(weeks);
  }

  lemma RendersOne(term: Term)
    ensures RenderTerms([term]) == term.digits + [term.unit]
  {
    assert [term][1..] == [];
  }

  /** The text is a sequence of amounts with units, at least one. */
  ghost predicate Spells(text: string, terms: seq<Term>) {
    terms != [] && ValidTerms(terms) && text == RenderTerms(terms)
  }

  /** White space in the sense of Unicode. */
  predicate IsBlank(c: char) {
    var code := c as int;
    || 0x9 <= code <= 0xD || code == 0x20 || code == 0x85 || code == 0xA0
    || code == 0x1680 || 0x2000 <= code <= 0x200A || code == 0x2028 || code == 0x2029
    || code == 0x202F || code == 0x205F || code == 0x3000
  }

  function Trimmed(value: string): string {
    if value != "" && IsBlank(value[0]) then Trimmed(value[1..])
    else if value != "" && IsBlank(value[|value| - 1]) then Trimmed(value[..|value| - 1])
    else value
  }

  predicate AllBlank(text: string) {
    forall i :: 0 <= i < |text| ==> IsBlank(text[i])
  }

  lemma Prepended(value: string, before: string, middle: string, after: string)
    requires value != "" && value[1..] == before + middle + after
    ensures value == [value[0]] + before + middle + after
  {
    assert value == [value[0]] + value[1..];
  }

  lemma Appended(value: string, before: string, middle: string, after: string)
    requires value != "" && value[..|value| - 1] == before + middle + after
    ensures value == before + middle + (after + [value[|value| - 1]])
  {
    assert value == value[..|value| - 1] + [value[|value| - 1]];
  }

  /** Trimming takes the blanks off both ends, and nothing else. */
  lemma {:induction false} TrimsBlanksOnly(value: string) returns (before: string, after: string)
    ensures value == before + Trimmed(value) + after && AllBlank(before) && AllBlank(after)
    ensures Trimmed(value) != "" ==> !IsBlank(Trimmed(value)[0]) && !IsBlank(Trimmed(value)[|Trimmed(value)| - 1])
    decreases |value|
  {
    if value != "" && IsBlank(value[0]) {
      before, after := TrimsBlanksOnly(value[1..]);
      Prepended(value, before, Trimmed(value[1..]), after);
      before := [value[0]] + before;
    } else if value != "" && IsBlank(value[|value| - 1]) {
      var n := |value| - 1;
      before, after := TrimsBlanksOnly(value[..n]);
      Appended(value, before, Trimmed(value[..n]), after);
      after := after + [value[n]];
    } else {
      before, after := "", "";
    }
  }

  /** The twenty-five characters that are white space; none is one that durations are
      written with. */
  const BLANKS: string :=
    "\t\n\U{000B}\U{000C}\r \U{0085}\U{00A0}\U{1680}"
    + "\U{2000}\U{2001}\U{2002}\U{2003}\U{2004}\U{2005}\U{2006}\U{2007}\U{2008}\U{2009}\U{200A}"
    + "\U{2028}\U{2029}\U{202F}\U{205F}\U{3000}"

  lemma WhatIsBlank(c: char)
    ensures IsBlank(c) <==> c in BLANKS
    ensures IsDigit(c) || UnitSeconds(c).Some? ==> !IsBlank(c)
  {
  }

  lemma {:induction false} RenderAppends(terms: seq<Term>, term: Term)
    ensures RenderTerms(terms + [term]) == RenderTerms(terms) + term.digits + [term.unit]
  {
    if terms == [] {
      assert terms + [term] == [term];
      assert [term][1..] == [];
    } else {
      RenderAppends(terms[1..], term);
      assert (terms + [term])[1..] == terms[1..] + [term];
    }
  }

  lemma TotalAppends(terms: seq<Term>, term: Term, build: Build)
    requires ValidTerms(terms) && ValidTerm(term)
    ensures ValidTerms(terms + [term])
    ensures Total(terms + [term], build) ==
            if Total(terms, build).None? then None
            else Sum(Total(terms, build).value, Product(Value(term.digits), UnitSeconds(term.unit).value, build))
  {
    assert (terms + [term])[..|terms|] == terms;
  }

  /** A run of digits ends where the first other character stands. */
  lemma RunsEndTogether(digits: string, c: char, others: string, d: char, text: string)
    requires AllDigits(digits) && AllDigits(others) && !IsDigit(c) && !IsDigit(d)
    requires digits + [c] <= text && others + [d] <= text
    ensures digits == others && c == d
  {
    assert text[|digits|] == c && text[|others|] == d;
    assert forall i :: 0 <= i < |digits| ==> text[i] == digits[i];
    assert forall i :: 0 <= i < |others| ==> text[i] == others[i];
  }

  lemma UnitsAreNoDigits(unit: char)
    requires UnitSeconds(unit).Some?
    ensures !IsDigit(unit)
  {
  }

  lemma Associates(a: string, b: string, c: string)
    ensures a + (b + c) == a + b + c
  {
  }

  /** Reading is unambiguous: what has been read of a text that spells `terms` is some
      first terms, and what comes after belongs to the rest. */
  lemma {:induction false} ReadingIsUnambiguous(read: seq<Term>, tail: string, terms: seq<Term>)
    requires ValidTerms(read) && ValidTerms(terms)
    requires RenderTerms(read) + tail <= RenderTerms(terms)
    ensures read <= terms && tail <= RenderTerms(terms[|read|..])
  {
    if read != [] {
      assert read[0] in read;
      var whole := RenderTerms(terms);
      assert terms != [];
      assert terms[0] in terms;
      UnitsAreNoDigits(read[0].unit);
      UnitsAreNoDigits(terms[0].unit);
      var first := read[0].digits + [read[0].unit];
      Associates(first, RenderTerms(read[1..]), tail);
      RunsEndTogether(read[0].digits, read[0].unit, terms[0].digits, terms[0].unit, whole);
      assert whole[|first|..] == RenderTerms(terms[1..]);
      assert (RenderTerms(read) + tail)[|first|..] == RenderTerms(read[1..]) + tail;
      ReadingIsUnambiguous(read[1..], tail, terms[1..]);
      assert terms[|read|..] == terms[1..][|read| - 1..];
    } else {
      assert terms[0..] == terms;
      assert RenderTerms(read) + tail == tail;
    }
  }

  /** After some first terms, digits and then another character are a term. */
  lemma NextTermIsRead(read: seq<Term>, digits: string, c: char, terms: seq<Term>)
    requires ValidTerms(read) && ValidTerms(terms) && AllDigits(digits) && !IsDigit(c)
    requires RenderTerms(read) + (digits + [c]) <= RenderTerms(terms)
    ensures ValidTerm(Term(digits, c))
  {
    ReadingIsUnambiguous(read, digits + [c], terms);
    ValidFrom(terms, |read|);
    FirstTermIsRead(digits, c, terms[|read|..]);
  }

  lemma ValidFrom(terms: seq<Term>, k: nat)
    requires ValidTerms(terms) && k <= |terms|
    ensures ValidTerms(terms[k..])
  {
    assert forall t :: t in terms[k..] ==> t in terms;
  }

  lemma FirstTermIsRead(digits: string, c: char, terms: seq<Term>)
    requires ValidTerms(terms) && AllDigits(digits) && !IsDigit(c)
    requires digits + [c] <= RenderTerms(terms)
    ensures terms != [] && terms[0] == Term(digits, c) && ValidTerm(terms[0])
  {
    assert terms != [];
    assert terms[0] in terms;
    UnitsAreNoDigits(terms[0].unit);
    RunsEndTogether(digits, c, terms[0].digits, terms[0].unit, RenderTerms(terms));
  }

  lemma {:induction false} RenderSplits(first: seq<Term>, second: seq<Term>)
    ensures RenderTerms(first + second) == RenderTerms(first) + RenderTerms(second)
  {
    if first == [] {
      assert first + second == second;
    } else {
      RenderSplits(first[1..], second);
      assert (first + second)[1..] == first[1..] + second;
      Associates(first[0].digits + [first[0].unit], RenderTerms(first[1..]), RenderTerms(second));
    }
  }

  /** Once the program has ended, later terms change nothing. */
  lemma {:induction false} EndedStaysEnded(first: seq<Term>, terms: seq<Term>, build: Build)
    requires ValidTerms(terms) && first <= terms
    ensures ValidTerms(first) && (Total(first, build).None? ==> Total(terms, build).None?)
  {
    if first != terms {
      var n := |terms| - 1;
      assert first <= terms[..n];
      EndedStaysEnded(first, terms[..n], build);
      assert terms[n] in terms;
    } else {
      assert forall t :: t in first ==> t in terms;
    }
  }

  /** What parsing must answer for a text that spells `terms`. */
  function Answer(terms: seq<Term>, build: Build): Result<nat, DurationError>
    requires ValidTerms(terms)
  {
    if Total(terms, build).Some? then Ok(Total(terms, build).value) else Err(Overflow)
  }

  /** Digits and another character that do not make a term: the text spells nothing. */
  lemma BadTermSpellsNothing(text: string, read: seq<Term>, digits: string, c: char)
    requires ValidTerms(read) && AllDigits(digits) && !IsDigit(c)
    requires RenderTerms(read) + digits + [c] <= text && !ValidTerm(Term(digits, c))
    ensures forall terms :: !Spells(text, terms)
  {
    Associates(RenderTerms(read), digits, [c]);
    forall terms ensures !Spells(text, terms) {
      if Spells(text, terms) {
        NextTermIsRead(read, digits, c, terms);
      }
    }
  }

  lemma TooLongOverflows(text: string, read: seq<Term>, build: Build)
    requires ValidTerms(read) && RenderTerms(read) <= text && Total(read, build).None?
    ensures forall terms :: Spells(text, terms) ==> Answer(terms, build) == Err(Overflow)
  {
    assert RenderTerms(read) + "" == RenderTerms(read);
    forall terms | Spells(text, terms) ensures Answer(terms, build) == Err(Overflow) {
      ReadingIsUnambiguous(read, "", terms);
      EndedStaysEnded(read, terms, build);
    }
  }

  lemma TermsAreNotAllDigits(terms: seq<Term>)
    requires ValidTerms(terms)
    ensures terms != [] ==> !AllDigits(RenderTerms(terms))
  {
    if terms != [] {
      assert terms[0] in terms;
      UnitsAreNoDigits(terms[0].unit);
      assert RenderTerms(terms)[|terms[0].digits|] == terms[0].unit;
    }
  }

  lemma SpellingIsUnique(text: string, read: seq<Term>, digits: string)
    requires ValidTerms(read) && AllDigits(digits) && text == RenderTerms(read) + digits
    ensures forall terms :: Spells(text, terms) ==> digits == "" && read == terms
  {
    forall terms | Spells(text, terms) ensures digits == "" && read == terms {
      ReadingIsUnambiguous(read, digits, terms);
      var rest := terms[|read|..];
      RenderSplits(read, rest);
      assert read + rest == terms;
      assert digits == text[|RenderTerms(read)|..] == RenderTerms(rest);
      assert forall t :: t in rest ==> t in terms;
      TermsAreNotAllDigits(rest);
    }
  }

  /** Accepts exactly the trimmed, non-empty sequences of amounts with units that the
      build can add up, and returns its total. */
  method ParseDuration(value: string, build: Build) returns (parsed: Result<nat, DurationError>)
    ensures forall terms :: Spells(Trimmed(value), terms) ==> parsed == Answer(terms, build)
    ensures parsed.Ok? ==> exists terms :: Spells(Trimmed(value), terms)
  {
    var text := Trimmed(value);
    var total, digits, parsedAny := 0, "", false;
    ghost var read := [];
    for i := 0 to |text|
      invariant ValidTerms(read) && AllDigits(digits)
      invariant text[..i] == RenderTerms(read) + digits
      invariant Total(read, build) == Some(total)
      invariant parsedAny <==> read != []
    {
      var character := text[i];
      assert text[..i + 1] == RenderTerms(read) + digits + [character];
      if IsDigit(character) {
        digits := digits + [character];
        continue;
      }
      ghost var term := Term(digits, character);
      if digits == "" || Value(digits) > MAX_U64 {
        BadTermSpellsNothing(text, read, digits, character);
        return Err(ExpectedNumber);
      }
      var unitSeconds := UnitSeconds(character);
      if unitSeconds.None? {
        BadTermSpellsNothing(text, read, digits, character);
        return Err(UnsupportedUnit);
      }
      TotalAppends(read, term, build);
      RenderAppends(read, term);
      read := read + [term];
      var longer := Sum(total, Product(Value(digits), unitSeconds.value, build));
      if longer.None? {
        TooLongOverflows(text, read, build);
        return Err(Overflow);
      }
      total := longer.value;
      digits := "";
      parsedAny := true;
    }
    assert text[..|text|] == text;
    SpellingIsUnique(text, read, digits);
    if digits != "" || !parsedAny {
      return Err(Unfinished);
    }
    assert Spells(text, read);
    return Ok(total);
  }

  // ---------------------------------------------------------------------------
  // Pushing
  // ---------------------------------------------------------------------------

  const PUSH_BATCH_LIMIT: nat := 500
  const PUSH_RATE_LIMIT_ATTEMPTS: nat := 10
  const TOO_MANY_REQUESTS: nat := 429

  /** A buffered record with its block time. */
  datatype Timed = Timed(blockTime: int, line: string)

  function TimeOf(record: Timed): int {
    record.blockTime
  }

  datatype PushError = Incomplete(withoutBlockTime: nat) | Rejected

  /** The answer to one attempt; `None` if the request itself failed. */
  type Loki = nat -> Option<nat>

  predicate Succeeds(status: nat) {
    200 <= status < 300
  }

  /** The lines up to the end of the stream: its end mark, or the channel's. */
  function Received(records: seq<Option<string>>): (lines: seq<string>)
    ensures |lines| <= |records| && forall i :: 0 <= i < |lines| ==> records[i] == Some(lines[i])
    ensures |lines| < |records| ==> records[|lines|].None?
  {
    if records == [] || records[0].None? then [] else [records[0].value] + Received(records[1..])
  }

  function Dated(lines: seq<string>, blockTimeOf: string -> Option<int>): seq<Timed> {
    if lines == [] then []
    else
      var n := |lines| - 1;
      Dated(lines[..n], blockTimeOf)
      + match blockTimeOf(lines[n]) case Some(time) => [Timed(time, lines[n])] case None => []
  }

  function Undated(lines: seq<string>, blockTimeOf: string -> Option<int>): nat {
    if lines == [] then 0
    else
      var n := |lines| - 1;
      Undated(lines[..n], blockTimeOf) + if blockTimeOf(lines[n]).None? then 1 else 0
  }

  /** Consecutive batches, all full but the last. */
  function Chunks(records: seq<Timed>): seq<seq<Timed>>
    decreases |records|
  {
    if records == [] then []
    else if |records| <= PUSH_BATCH_LIMIT then [records]
    else [records[..PUSH_BATCH_LIMIT]] + Chunks(records[PUSH_BATCH_LIMIT..])
  }

  function Flattened(batches: seq<seq<Timed>>): seq<Timed> {
    if batches == [] then [] else batches[0] + Flattened(batches[1..])
  }

  /** The attempt at which a batch is accepted: every earlier one was told to wait. */
  ghost predicate AcceptedAt(loki: Loki, attempt: nat) {
    && 1 <= attempt <= 10
    && loki(attempt).Some? && 200 <= loki(attempt).value <= 299
    && forall k :: 1 <= k < attempt ==> loki(k) == Some(429)
  }

  /** Retries a batch while Loki is rate limiting, and no longer. */
  method Flush(batch: seq<Timed>, loki: Loki) returns (pushed: Result<nat, PushError>)
    ensures pushed == Ok(|batch|) || pushed == Err(Rejected)
    ensures pushed.Ok? <==> exists attempt :: AcceptedAt(loki, attempt)
  {
    var attempt := 1;
    while true
      invariant 1 <= attempt <= PUSH_RATE_LIMIT_ATTEMPTS
      invariant forall k :: 1 <= k < attempt ==> loki(k) == Some(TOO_MANY_REQUESTS)
      decreases PUSH_RATE_LIMIT_ATTEMPTS - attempt
    {
      var response := loki(attempt);
      if response.None? {
        return Err(Rejected);
      }
      if Succeeds(response.value) {
        assert AcceptedAt(loki, attempt);
        return Ok(|batch|);
      }
      if response.value != TOO_MANY_REQUESTS || attempt == PUSH_RATE_LIMIT_ATTEMPTS {
        return Err(Rejected);
      }
      attempt := attempt + 1;
    }
  }

  /** Buffers what arrives until the end of the stream. */
  method Collect(records: seq<Option<string>>, blockTimeOf: string -> Option<int>) returns (buffered: seq<Timed>, skipped: nat)
    ensures buffered == Dated(Received(records), blockTimeOf)
    ensures skipped == Undated(Received(records), blockTimeOf)
  {
    buffered, skipped := [], 0;
    var rest := records;
    ghost var taken := [];
    while rest != [] && rest[0].Some?
      invariant taken + Received(rest) == Received(records)
      invariant buffered == Dated(taken, blockTimeOf) && skipped == Undated(taken, blockTimeOf)
      decreases |rest|
    {
      var line := rest[0].value;
      TakesOneMore(taken, line, blockTimeOf);
      ReceivesOneMore(taken, rest);
      match blockTimeOf(line) {
        case Some(time) => buffered := buffered + [Timed(time, line)];
        case None => skipped := skipped + 1;
      }
      taken := taken + [line];
      rest := rest[1..];
    }
    assert Received(rest) == [] && taken + [] == taken;
  }

  lemma ReceivesOneMore(taken: seq<string>, rest: seq<Option<string>>)
    requires rest != [] && rest[0].Some?
    ensures taken + Received(rest) == taken + [rest[0].value] + Received(rest[1..])
  {
  }

  /** Sends the batches in order, up to the first that Loki does not take. */
  method PushAll(batches: seq<seq<Timed>>, lokis: nat -> Loki) returns (count: Result<nat, PushError>, pushed: seq<seq<Timed>>)
    ensures pushed <= batches
    ensures if count.Ok? then count.value == |Flattened(batches)| && pushed == batches
            else count == Err(Rejected) && |pushed| < |batches| && forall attempt :: !AcceptedAt(lokis(|pushed|), attempt)
  {
    pushed := [];
    var total := 0;
    for i := 0 to |batches|
      invariant pushed == batches[..i]
      invariant total == |Flattened(pushed)|
    {
      var flushed := Flush(batches[i], lokis(i));
      if flushed.Err? {
        return Err(Rejected), pushed;
      }
      FlattenedGrows(pushed, batches[i]);
      pushed := pushed + [batches[i]];
      total := total + flushed.value;
    }
    assert batches[..|batches|] == batches;
    return Ok(total), pushed;
  }

  /** `pushed` is what reached Loki, batch by batch; `lokis` answers each batch. If any
      record lacks a block time nothing is pushed; on success everything was, and the
      count is the number received. */
  method PushRecords(records: seq<Option<string>>, blockTimeOf: string -> Option<int>, lokis: nat -> Loki)
    returns (result: Result<nat, PushError>, pushed: seq<seq<Timed>>)
    ensures var lines := Received(records);
            var batches := Chunks(SortByKey(Dated(lines, blockTimeOf), TimeOf));
            && pushed <= batches
            && if Undated(lines, blockTimeOf) > 0 then
                 result == Err(Incomplete(Undated(lines, blockTimeOf))) && pushed == []
               else if result.Ok? then
                 result.value == |lines| && pushed == batches
               else
                 && result == Err(Rejected) && |pushed| < |batches|
                 && forall attempt :: !AcceptedAt(lokis(|pushed|), attempt)
  {
    var buffered, skipped := Collect(records, blockTimeOf);
    if skipped > 0 {
      return Err(Incomplete(skipped)), [];
    }
    result, pushed := PushAll(Chunks(SortByKey(buffered, TimeOf)), lokis);
    BatchesHoldEverything(Received(records), blockTimeOf);
  }

  lemma TakesOneMore(taken: seq<string>, line: string, blockTimeOf: string -> Option<int>)
    ensures Dated(taken + [line], blockTimeOf) ==
            Dated(taken, blockTimeOf) + match blockTimeOf(line) case Some(time) => [Timed(time, line)] case None => []
    ensures Undated(taken + [line], blockTimeOf) == Undated(taken, blockTimeOf) + if blockTimeOf(line).None? then 1 else 0
  {
    assert (taken + [line])[..|taken|] == taken;
  }

  lemma {:induction false} FlattenedGrows(batches: seq<seq<Timed>>, batch: seq<Timed>)
    ensures Flattened(batches + [batch]) == Flattened(batches) + batch
  {
    if batches == [] {
      assert batches + [batch] == [batch];
      assert [batch][1..] == [];
    } else {
      FlattenedGrows(batches[1..], batch);
      assert (batches + [batch])[1..] == batches[1..] + [batch];
    }
  }

  /** Batches concatenate to the whole, and each holds 1 to 500 records. */
  lemma {:induction false} ChunksMakeTheWhole(records: seq<Timed>)
    ensures Flattened(Chunks(records)) == records
    ensures forall b :: b in Chunks(records) ==> 1 <= |b| <= 500
    ensures forall i :: 0 <= i < |Chunks(records)| - 1 ==> |Chunks(records)[i]| == 500
    decreases |records|
  {
    if |records| > PUSH_BATCH_LIMIT {
      ChunksMakeTheWhole(records[PUSH_BATCH_LIMIT..]);
      var first, others := records[..PUSH_BATCH_LIMIT], Chunks(records[PUSH_BATCH_LIMIT..]);
      assert ([first] + others)[1..] == others;
      assert records == first + records[PUSH_BATCH_LIMIT..];
    } else if records != [] {
      assert [records][1..] == [];
    }
  }

  lemma {:induction false} DatedIsWhole(lines: seq<string>, blockTimeOf: string -> Option<int>)
    requires Undated(lines, blockTimeOf) == 0
    ensures |Dated(lines, blockTimeOf)| == |lines|
    ensures forall i :: 0 <= i < |lines| ==>
              Dated(lines, blockTimeOf)[i].line == lines[i] && blockTimeOf(lines[i]) == Some(Dated(lines, blockTimeOf)[i].blockTime)
  {
    if lines != [] {
      DatedIsWhole(lines[..|lines| - 1], blockTimeOf);
    }
  }

  lemma BatchesHoldEverything(lines: seq<string>, blockTimeOf: string -> Option<int>)
    requires Undated(lines, blockTimeOf) == 0
    ensures |Flattened(Chunks(SortByKey(Dated(lines, blockTimeOf), TimeOf)))| == |lines|
  {
    var dated := Dated(lines, blockTimeOf);
    ChunksMakeTheWhole(SortByKey(dated, TimeOf));
    DatedIsWhole(lines, blockTimeOf);
    SortByKeyPermutes(dated, TimeOf);
    assert |multiset(SortByKey(dated, TimeOf))| == |multiset(dated)|;
  }

  /** A push that succeeds has sent every record once, oldest block time first, those of
      one block time in the order they came, in batches of 500 and a last one of no more. */
  lemma PushedOldestFirst(dated: seq<Timed>, k: int)
    ensures var batches := Chunks(SortByKey(dated, TimeOf));
            && multiset(Flattened(batches)) == multiset(dated)
            && Sorted(Flattened(batches), TimeOf)
            && WithKey(Flattened(batches), TimeOf, k) == WithKey(dated, TimeOf, k)
            && (forall b :: b in batches ==> 1 <= |b| <= 500)
            && (forall i :: 0 <= i < |batches| - 1 ==> |batches[i]| == 500)
  {
    ChunksMakeTheWhole(SortByKey(dated, TimeOf));
    SortByKeyPermutes(dated, TimeOf);
    SortByKeySorts(dated, TimeOf);
    SortByKeyIsStable(dated, TimeOf, k);
  }
}
