/** What the generated log queries mean to Loki: labels extracted from JSON records,
    filters that can mark a line with an error, counts by signature, and the vector
    operators that combine them. */
module Loki {
  import opened Primitives
  import opened Text

  // ---------------------------------------------------------------------------
  // Records
  // ---------------------------------------------------------------------------

  /** A JSON value, with the text it is written as where that is not determined. */
  datatype Json =
    | Null
    | String(text: string)
    | Number(value: real, shown: string)
    | Boolean(flag: bool)
    | Structure(shown: string)

  /** One log line, `age` seconds before the evaluation; its fields by path. */
  datatype Line = Line(age: nat, wellFormed: bool, fields: map<string, Json>)

  function ShowBool(flag: bool): string {
    if flag then "true" else "false"
  }

  /** A field as text: nothing tells a missing one, null and the empty string apart. */
  function TextOf(field: Option<Json>): string {
    match field
    case None => ""
    case Some(Null) => ""
    case Some(String(text)) => text
    case Some(Number(_, shown)) => shown
    case Some(Boolean(flag)) => ShowBool(flag)
    case Some(Structure(shown)) => shown
  }

  function FieldOf(line: Line, path: string): Option<Json> {
    if path in line.fields then Some(line.fields[path]) else None
  }

  /** The label extracted for a path. */
  function Extracted(line: Line, path: string): string {
    TextOf(FieldOf(line, path))
  }

  // ---------------------------------------------------------------------------
  // Queries
  // ---------------------------------------------------------------------------

  datatype Comparison = Equal | Unequal | Greater | GreaterOrEqual | Less | LessOrEqual

  datatype Filter =
    | Is(tag: string, text: string)
    | IsNot(tag: string, text: string)
    | Matches(tag: string, infix: string)  // =~ ".*infix.*", the infix escaped
    | Compares(tag: string, comparison: Comparison, number: real)

  /** `sum by (signature) (count_over_time({...} | json ... | filters | __error__ = "" [window]))` */
  datatype Count = Count(parser: seq<(string, string)>, filters: seq<Filter>, window: nat)

  /** The counts joined by `or`, and then `or on() vector(0)`. */
  datatype Query = Query(branches: seq<Count>)

  // ---------------------------------------------------------------------------
  // Evaluation
  // ---------------------------------------------------------------------------

  /** How Loki reads a label as a number; `None` marks the line with an error. */
  type Reader = string -> Option<real>

  function PathOf(parser: seq<(string, string)>, tag: string): Option<string> {
    if parser == [] then None
    else if parser[0].0 == tag then Some(parser[0].1)
    else PathOf(parser[1..], tag)
  }

  function LabelOf(parser: seq<(string, string)>, line: Line, tag: string): string {
    match PathOf(parser, tag)
    case None => ""
    case Some(path) => Extracted(line, path)
  }

  predicate Holds(left: real, comparison: Comparison, right: real) {
    match comparison
    case Equal => left == right
    case Unequal => left != right
    case Greater => left > right
    case GreaterOrEqual => left >= right
    case Less => left < right
    case LessOrEqual => left <= right
  }

  predicate Infix(infix: string, text: string) {
    exists i :: 0 <= i <= |text| && infix <= text[i..]
  }

  lemma InfixIsSurrounded(infix: string, text: string)
    ensures Infix(infix, text) <==> exists before, after :: text == before + infix + after
  {
    if i :| 0 <= i <= |text| && infix <= text[i..] {
      assert text == text[..i] + infix + text[i + |infix|..];
    }
    if before, after :| text == before + infix + after {
      assert infix <= text[|before|..];
    }
  }

  /** A line on its way through the filters: still kept, and not yet marked. */
  datatype Passage = Passage(kept: bool, marked: bool)

  /** A numeric filter lets a marked line through, and marks one it cannot read; text
      filters look at nothing but the text. */
  function Filtered(read: Reader, filter: Filter, content: string, marked: bool): Passage {
    match filter
    case Is(_, text) => Passage(content == text, marked)
    case IsNot(_, text) => Passage(content != text, marked)
    case Matches(_, infix) => Passage(Infix(infix, content), marked)
    case Compares(_, comparison, number) =>
      if marked then Passage(true, true)
      else
        match read(content)
        case None => Passage(true, true)
        case Some(value) => Passage(Holds(value, comparison, number), false)
  }

  function FilteredAll(read: Reader, count: Count, filters: seq<Filter>, line: Line, marked: bool): Passage {
    if filters == [] then Passage(true, marked)
    else
      var first := Filtered(read, filters[0], LabelOf(count.parser, line, filters[0].tag), marked);
      var rest := FilteredAll(read, count, filters[1..], line, first.marked);
      Passage(first.kept && rest.kept, rest.marked)
  }

  /** `| __error__ = ""` drops what was marked, by the parser or by a filter. */
  predicate Selects(read: Reader, count: Count, line: Line) {
    && line.age < count.window
    && FilteredAll(read, count, count.filters, line, !line.wellFormed) == Passage(true, false)
  }

  function SignatureOf(count: Count, line: Line): string {
    LabelOf(count.parser, line, "signature")
  }

  /** How many of the lines a count selects under one signature. */
  function Tally(read: Reader, count: Count, lines: seq<Line>, signature: string): nat {
    if lines == [] then 0
    else
      Tally(read, count, lines[1..], signature)
      + if Selects(read, count, lines[0]) && SignatureOf(count, lines[0]) == signature then 1 else 0
  }

  /** A series exists only for a signature that was counted. */
  function Counted(read: Reader, count: Count, lines: seq<Line>): map<string, nat> {
    map l | l in lines && Selects(read, count, l) :: SignatureOf(count, l) := Tally(read, count, lines, SignatureOf(count, l))
  }

  /** `or` keeps every series of the left side and adds the right side's others. */
  function Either(read: Reader, branches: seq<Count>, lines: seq<Line>): map<string, nat> {
    if branches == [] then map[]
    else Either(read, branches[1..], lines) + Counted(read, branches[0], lines)
  }

  /** The value of a query: series by signature, or the one unlabelled zero. */
  datatype Vector = BySignature(counts: map<string, nat>) | Zero

  function Evaluated(read: Reader, query: Query, lines: seq<Line>): Vector {
    var counts := Either(read, query.branches, lines);
    if counts == map[] then Zero else BySignature(counts)
  }

  // ---------------------------------------------------------------------------
  // Consequences
  // ---------------------------------------------------------------------------

  /** What one filter asks of a readable line. */
  predicate Passes(read: Reader, filter: Filter, content: string) {
    match filter
    case Is(_, text) => content == text
    case IsNot(_, text) => content != text
    case Matches(_, infix) => Infix(infix, content)
    case Compares(_, comparison, number) => read(content).Some? && Holds(read(content).value, comparison, number)
  }

  /** Marks accumulate, so a line comes through unmarked exactly when every filter
      passes it on its own. */
  lemma {:induction false} UnmarkedMeansAllPass(read: Reader, count: Count, filters: seq<Filter>, line: Line, marked: bool)
    ensures FilteredAll(read, count, filters, line, marked) == Passage(true, false) <==>
              !marked && forall f :: f in filters ==> Passes(read, f, LabelOf(count.parser, line, f.tag))
  {
    if filters != [] {
      var content := LabelOf(count.parser, line, filters[0].tag);
      UnmarkedMeansAllPass(read, count, filters[1..], line, Filtered(read, filters[0], content, marked).marked);
      assert filters == [filters[0]] + filters[1..];
    }
  }

  lemma {:induction false} TallyIsPositive(read: Reader, count: Count, lines: seq<Line>, signature: string)
    ensures Tally(read, count, lines, signature) > 0 <==>
              exists l :: l in lines && Selects(read, count, l) && SignatureOf(count, l) == signature
  {
    if lines != [] {
      TallyIsPositive(read, count, lines[1..], signature);
      assert lines == [lines[0]] + lines[1..];
    }
  }

  lemma SeriesAreWhatWasCounted(read: Reader, count: Count, lines: seq<Line>, signature: string)
    ensures signature in Counted(read, count, lines) <==>
              exists l :: l in lines && Selects(read, count, l) && SignatureOf(count, l) == signature
    ensures signature in Counted(read, count, lines) ==> Counted(read, count, lines)[signature] > 0
  {
    TallyIsPositive(read, count, lines, signature);
  }

  lemma {:induction false} EitherIsTheUnion(read: Reader, branches: seq<Count>, lines: seq<Line>, signature: string)
    ensures signature in Either(read, branches, lines) <==>
              exists b :: b in branches && signature in Counted(read, b, lines)
    ensures signature in Either(read, branches, lines) ==> Either(read, branches, lines)[signature] > 0
  {
    if branches != [] {
      var first, rest := branches[0], branches[1..];
      EitherIsTheUnion(read, rest, lines, signature);
      SeriesArePositive(read, first, lines, signature);
      JoinedSeries(Either(read, rest, lines), Counted(read, first, lines), signature);
      forall b ensures b in branches <==> b == first || b in rest {
        FirstOrRest(branches, b);
      }
    }
  }

  lemma FirstOrRest(branches: seq<Count>, b: Count)
    requires branches != []
    ensures b in branches <==> b == branches[0] || b in branches[1..]
  {
    assert branches == [branches[0]] + branches[1..];
  }

  lemma JoinedSeries(left: map<string, nat>, right: map<string, nat>, signature: string)
    ensures signature in left + right <==> signature in left || signature in right
    ensures (signature in left ==> left[signature] > 0) && (signature in right ==> right[signature] > 0) ==>
              (signature in left + right ==> (left + right)[signature] > 0)
  {
  }

  lemma SeriesArePositive(read: Reader, count: Count, lines: seq<Line>, signature: string)
    ensures signature in Counted(read, count, lines) ==> Counted(read, count, lines)[signature] > 0
  {
    SeriesAreWhatWasCounted(read, count, lines, signature);
  }
}
