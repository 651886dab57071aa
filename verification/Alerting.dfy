/** Alert rules (config.rs) and their compilation to log queries (alerting.rs). A
    compiled rule finds exactly the records that satisfy it. */
module Alerting {
  import opened Primitives
  import opened Text
  import Loki

  // ---------------------------------------------------------------------------
  // Rules
  // ---------------------------------------------------------------------------

  datatype Kind = Event | Instruction | Multisig

  datatype Match = All | Any

  datatype Operator = Exists | Contains | Eq | Ne | Gt | Gte | Lt | Lte

  /** A float without a value is not finite. */
  datatype Value =
    | Integer(integer: int)
    | Float(finite: Option<real>)
    | Boolean(flag: bool)
    | Str(text: string)

  datatype Condition = Condition(field: string, operator: Operator, value: Option<Value>)

  datatype Rule = Rule(kind: Kind, name: string, mode: Match, conditions: seq<Condition>, window: nat)

  datatype Config = Config(programId: string, vault: Option<string>)

  datatype Error = MultisigNotConfigured | InvalidCondition

  // ---------------------------------------------------------------------------
  // Validation
  // ---------------------------------------------------------------------------

  const MAX_EXACT_LOKI_INTEGER: int := 0x20_0000_0000_0000

  predicate IsLetter(c: char) {
    'a' <= c <= 'z' || 'A' <= c <= 'Z'
  }

  function Segments(field: string): seq<string> {
    var i := IndexOf(field, '.');
    if i == |field| then [field] else [field[..i]] + Segments(field[i + 1..])
  }

  predicate ValidSegment(segment: string) {
    && segment != "" && (segment[0] == '_' || IsLetter(segment[0]))
    && forall i :: 0 < i < |segment| ==> segment[i] == '_' || IsLetter(segment[i]) || IsDigit(segment[i])
  }

  predicate ValidFieldPath(field: string) {
    field != "" && forall segment :: segment in Segments(field) ==> ValidSegment(segment)
  }

  predicate IsOrdering(operator: Operator) {
    operator.Gt? || operator.Gte? || operator.Lt? || operator.Lte?
  }

  /** `AlertCondition::validate`, arm by arm. */
  predicate ValidCondition(condition: Condition) {
    && ValidFieldPath(condition.field)
    && (condition.value.Some? && condition.value.value.Integer? ==>
          -MAX_EXACT_LOKI_INTEGER <= condition.value.value.integer <= MAX_EXACT_LOKI_INTEGER)
    && match (condition.operator, condition.value)
       case (Exists, None) => true
       case (Exists, Some(_)) => false
       case (_, None) => false
       case (Contains, Some(Str(text))) => text != ""
       case (Contains, Some(_)) => false
       case (operator, Some(Integer(_))) => true
       case (operator, Some(Float(finite))) => finite.Some?
       case (operator, Some(_)) => !IsOrdering(operator)
  }

  /** A letter, a digit, an underscore or a dot; at the start, and after a dot, a letter or
      an underscore. */
  predicate FitsAt(field: string, i: nat)
    requires i < |field|
  {
    if i == 0 || field[i - 1] == '.' then field[i] == '_' || IsLetter(field[i])
    else field[i] == '_' || field[i] == '.' || IsLetter(field[i]) || IsDigit(field[i])
  }

  ghost predicate IsPath(field: string) {
    field != "" && field[|field| - 1] != '.' && forall i :: 0 <= i < |field| ==> FitsAt(field, i)
  }

  lemma {:induction false} SegmentsMakePaths(field: string)
    ensures ValidFieldPath(field) <==> IsPath(field)
    decreases |field|
  {
    var i := IndexOf(field, '.');
    if i == |field| {
      assert Segments(field) == [field];
      OneSegment(field);
    } else {
      SegmentsMakePaths(field[i + 1..]);
      if field[i + 1..] == "" {
        assert Segments("") == [""] && "" in Segments("");
      }
      EverySegment(field[..i], Segments(field[i + 1..]));
      PathSplits(field, i);
    }
  }

  lemma OneSegment(field: string)
    requires '.' !in field
    ensures ValidSegment(field) <==> IsPath(field)
  {
    if ValidSegment(field) {
      forall i | 0 <= i < |field| ensures FitsAt(field, i) {
      }
    }
    if IsPath(field) {
      assert FitsAt(field, 0);
      forall i | 0 < i < |field| ensures field[i] == '_' || IsLetter(field[i]) || IsDigit(field[i]) {
        assert FitsAt(field, i) && field[i] != '.';
      }
    }
  }

  lemma EverySegment(first: string, rest: seq<string>)
    ensures (forall segment :: segment in [first] + rest ==> ValidSegment(segment)) <==>
              ValidSegment(first) && forall segment :: segment in rest ==> ValidSegment(segment)
  {
    assert forall segment :: segment in [first] + rest <==> segment == first || segment in rest;
  }

  /** The first dot parts a path into a segment and a path. */
  lemma PathSplits(field: string, dot: nat)
    requires dot < |field| && field[dot] == '.' && '.' !in field[..dot]
    ensures IsPath(field) <==> ValidSegment(field[..dot]) && field[dot + 1..] != "" && IsPath(field[dot + 1..])
  {
    var first, rest := field[..dot], field[dot + 1..];
    OneSegment(first);
    forall i | 0 <= i < dot ensures FitsAt(field, i) == FitsAt(first, i) && first[i] != '.' {
    }
    forall i | 0 <= i < |rest| ensures FitsAt(field, dot + 1 + i) == FitsAt(rest, i) {
    }
    if IsPath(field) {
      assert FitsAt(field, 0) && FitsAt(field, dot);
      forall i | 0 <= i < |rest| ensures FitsAt(rest, i) {
        assert FitsAt(field, dot + 1 + i);
      }
    }
    if IsPath(first) && IsPath(rest) {
      forall i | 0 <= i < |field| ensures FitsAt(field, i) {
        if i > dot {
          assert FitsAt(rest, i - dot - 1);
        } else if i < dot {
          assert FitsAt(first, i);
        }
      }
    }
  }

  /** What validation accepts, value by value: no value only for `exists`, numbers for the
      six comparisons, booleans and texts for equality, and texts that are not empty for
      `contains`; integers no larger than a float64 can tell apart. */
  lemma ConditionsThatValidate(condition: Condition)
    ensures ValidCondition(condition) <==>
              && IsPath(condition.field)
              && match condition.value
                 case None => condition.operator == Exists
                 case Some(Integer(n)) =>
                   condition.operator in {Eq, Ne, Gt, Gte, Lt, Lte} && -9007199254740992 <= n <= 9007199254740992
                 case Some(Float(finite)) => condition.operator in {Eq, Ne, Gt, Gte, Lt, Lte} && finite.Some?
                 case Some(Boolean(_)) => condition.operator in {Eq, Ne}
                 case Some(Str(text)) => condition.operator in {Eq, Ne} || (condition.operator == Contains && text != "")
  {
    SegmentsMakePaths(condition.field);
  }

  /** The part of `AlertRule::validate` that concerns conditions. */
  predicate ValidConditions(rule: Rule) {
    forall c :: c in rule.conditions ==> ValidCondition(c) && !(rule.kind == Multisig && c.field == "failed")
  }

  // ---------------------------------------------------------------------------
  // Compilation
  // ---------------------------------------------------------------------------

  function ConditionLabel(index: nat): string {
    "condition_" + ShowNat(index)
  }

  /** `exists` and `contains` have no operator of their own: asking for one is the
      source's `unreachable!`, and validation rules it out. */
  function ComparisonOf(operator: Operator): Loki.Comparison
    requires !operator.Exists? && !operator.Contains?
  {
    match operator
    case Eq => Loki.Equal
    case Ne => Loki.Unequal
    case Gt => Loki.Greater
    case Gte => Loki.GreaterOrEqual
    case Lt => Loki.Less
    case Lte => Loki.LessOrEqual
  }

  /** A quoted value compares as text, which has no order; an unquoted one as a number. */
  function ValueFilter(operator: Operator, value: Value, tag: string): Loki.Filter
    requires !operator.Exists? && !operator.Contains?
    requires value.Float? ==> value.finite.Some?
    requires value.Boolean? || value.Str? ==> operator.Eq?
  {
    match value
    case Integer(integer) => Loki.Compares(tag, ComparisonOf(operator), integer as real)
    case Float(Some(number)) => Loki.Compares(tag, ComparisonOf(operator), number)
    case Boolean(flag) => Loki.Is(tag, Loki.ShowBool(flag))
    case Str(text) => Loki.Is(tag, text)
  }

  /** Total on validated conditions: the source's `bail!` is never reached. */
  function ConditionFilter(condition: Condition, tag: string): seq<Loki.Filter>
    requires ValidCondition(condition)
  {
    if condition.operator.Exists? then
      [Loki.IsNot(tag, "")]
    else
      var value := condition.value.value;
      if condition.operator.Contains? then
        [Loki.Matches(tag, value.text)]
      else if condition.operator.Ne? && value.Str? then
        [Loki.IsNot(tag, ""), Loki.IsNot(tag, value.text)]
      else if condition.operator.Ne? && value.Boolean? then
        [Loki.IsNot(tag, ""), Loki.IsNot(tag, Loki.ShowBool(value.flag))]
      else
        [ValueFilter(condition.operator, value, tag)]
  }

  datatype Indexed = Indexed(index: nat, condition: Condition)

  function Enumerated(conditions: seq<Condition>): seq<Indexed> {
    seq(|conditions|, i requires 0 <= i < |conditions| => Indexed(i, conditions[i]))
  }

  function Labelled(conditions: seq<Indexed>): seq<(string, string)> {
    seq(|conditions|, i requires 0 <= i < |conditions| => (ConditionLabel(conditions[i].index), conditions[i].condition.field))
  }

  function Filters(conditions: seq<Indexed>): Result<seq<Loki.Filter>, Error> {
    if conditions == [] then Ok([])
    else if !ValidCondition(conditions[0].condition) then Err(InvalidCondition)
    else
      match Filters(conditions[1..])
      case Err(error) => Err(error)
      case Ok(rest) => Ok(ConditionFilter(conditions[0].condition, ConditionLabel(conditions[0].index)) + rest)
  }

  /** Where the three kinds of record keep what a rule is about. */
  datatype Scheme = Scheme(recordKind: string, signalPath: string, scopePath: string, scope: string)

  function SchemeOf(config: Config, kind: Kind): Result<Scheme, Error> {
    match kind
    case Event => Ok(Scheme("program_event", "name", "program_id", config.programId))
    case Instruction => Ok(Scheme("program_instruction", "name", "program_id", config.programId))
    case Multisig =>
      if config.vault.None? then Err(MultisigNotConfigured)
      else Ok(Scheme("multisig_activity", "action", "vault_address", config.vault.value))
  }

  function BaseParser(rule: Rule, scheme: Scheme): seq<(string, string)> {
    [("kind", "kind"), ("signal", scheme.signalPath), ("scope", scheme.scopePath), ("signature", "signature")]
    + if rule.kind == Multisig then [("failed", "failed")] else []
  }

  function BaseFilters(rule: Rule, scheme: Scheme): seq<Loki.Filter> {
    [Loki.Is("kind", scheme.recordKind), Loki.Is("signal", rule.name), Loki.Is("scope", scheme.scope)]
    + if rule.kind == Multisig then [Loki.Is("failed", "false")] else []
  }

  function CountQuery(rule: Rule, scheme: Scheme, conditions: seq<Indexed>): Result<Loki.Count, Error> {
    match Filters(conditions)
    case Err(error) => Err(error)
    case Ok(filters) =>
      Ok(Loki.Count(BaseParser(rule, scheme) + Labelled(conditions), BaseFilters(rule, scheme) + filters, rule.window))
  }

  function CountQueries(rule: Rule, scheme: Scheme, conditions: seq<Indexed>): Result<seq<Loki.Count>, Error> {
    if conditions == [] then Ok([])
    else
      match CountQuery(rule, scheme, conditions[..1])
      case Err(error) => Err(error)
      case Ok(first) =>
        match CountQueries(rule, scheme, conditions[1..])
        case Err(error) => Err(error)
        case Ok(rest) => Ok([first] + rest)
  }

  /** `logql_query`: one count for all conditions, or one for each when any will do. */
  function Compiled(config: Config, rule: Rule): Result<Loki.Query, Error> {
    match SchemeOf(config, rule.kind)
    case Err(error) => Err(error)
    case Ok(scheme) =>
      var conditions := Enumerated(rule.conditions);
      var branches :=
        if rule.mode == Any && |conditions| > 1 then CountQueries(rule, scheme, conditions)
        else
          match CountQuery(rule, scheme, conditions)
          case Err(error) => Err(error)
          case Ok(count) => Ok([count]);
      match branches
      case Err(error) => Err(error)
      case Ok(branches) => Ok(Loki.Query(branches))
  }

  // ---------------------------------------------------------------------------
  // When compilation succeeds
  // ---------------------------------------------------------------------------

  lemma {:induction false} FiltersSucceedExactly(conditions: seq<Indexed>)
    ensures Filters(conditions).Ok? <==> forall c :: c in conditions ==> ValidCondition(c.condition)
  {
    if conditions != [] {
      FiltersSucceedExactly(conditions[1..]);
      assert conditions == [conditions[0]] + conditions[1..];
    }
  }

  lemma {:induction false} CountQueriesSucceedExactly(rule: Rule, scheme: Scheme, conditions: seq<Indexed>)
    ensures CountQueries(rule, scheme, conditions).Ok? <==> forall c :: c in conditions ==> ValidCondition(c.condition)
  {
    if conditions != [] {
      FiltersSucceedExactly(conditions[..1]);
      CountQueriesSucceedExactly(rule, scheme, conditions[1..]);
      assert conditions == conditions[..1] + conditions[1..];
      assert conditions[..1] == [conditions[0]];
    }
  }

  lemma EnumeratedHolds(conditions: seq<Condition>)
    ensures forall c :: c in conditions <==> exists i :: 0 <= i < |conditions| && Enumerated(conditions)[i].condition == c
    ensures forall c :: c in Enumerated(conditions) ==> c.condition in conditions
  {
    forall c | c in conditions
      ensures exists i :: 0 <= i < |conditions| && Enumerated(conditions)[i].condition == c
    {
      var i :| 0 <= i < |conditions| && conditions[i] == c;
      assert Enumerated(conditions)[i].condition == c;
    }
  }

  /** A rule compiles if and only if its conditions validate and, for a multisig rule, a
      multisig is configured. */
  lemma CompilesExactlyWhenValid(config: Config, rule: Rule)
    ensures Compiled(config, rule).Ok? <==>
              && (rule.kind == Multisig ==> config.vault.Some?)
              && forall c :: c in rule.conditions ==> ValidCondition(c)
  {
    var conditions := Enumerated(rule.conditions);
    EnumeratedHolds(rule.conditions);
    FiltersSucceedExactly(conditions);
    if SchemeOf(config, rule.kind).Ok? {
      CountQueriesSucceedExactly(rule, SchemeOf(config, rule.kind).value, conditions);
    }
    assert (forall c :: c in conditions ==> ValidCondition(c.condition))
      <==> (forall c :: c in rule.conditions ==> ValidCondition(c));
  }

  // ---------------------------------------------------------------------------
  // What a rule asks of a record
  // ---------------------------------------------------------------------------

  /** The number a field stands for: its own, or the one its text spells. */
  function NumberOf(read: Loki.Reader, field: Option<Loki.Json>): Option<real> {
    match field
    case Some(Number(value, _)) => Some(value)
    case Some(String(text)) => read(text)
    case _ => None
  }

  /** A field counts as present unless it is missing, null or the empty string. */
  predicate Present(field: Option<Loki.Json>) {
    match field
    case None => false
    case Some(Null) => false
    case Some(String(text)) => text != ""
    case Some(_) => true
  }

  function AsNumber(value: Value): Option<real> {
    match value
    case Integer(integer) => Some(integer as real)
    case Float(finite) => finite
    case _ => None
  }

  /** The order a condition asks for, said without the operator it compiles to. */
  predicate Ordered(left: real, operator: Operator, right: real) {
    match operator
    case Eq => left == right
    case Ne => left != right
    case Gt => left > right
    case Gte => left >= right
    case Lt => left < right
    case Lte => left <= right
    case _ => false
  }

  /** The boolean, or the text it is written as. */
  predicate IsFlag(field: Option<Loki.Json>, flag: bool) {
    field == Some(Loki.Json.Boolean(flag)) || field == Some(Loki.String(if flag then "true" else "false"))
  }

  /** What a condition means, in terms of the record alone. */
  ghost predicate Satisfied(read: Loki.Reader, condition: Condition, field: Option<Loki.Json>) {
    match (condition.operator, condition.value)
    case (Exists, _) => Present(field)
    case (Contains, Some(Str(text))) => exists before, after :: Loki.TextOf(field) == before + text + after
    case (Eq, Some(Str(text))) => Loki.TextOf(field) == text
    case (Eq, Some(Boolean(flag))) => IsFlag(field, flag)
    case (Ne, Some(Str(text))) => Present(field) && Loki.TextOf(field) != text
    case (Ne, Some(Boolean(flag))) => Present(field) && !IsFlag(field, flag)
    case (operator, Some(value)) =>
      && AsNumber(value).Some? && NumberOf(read, field).Some?
      && Ordered(NumberOf(read, field).value, operator, AsNumber(value).value)
    case _ => false
  }

  /** The records a rule is about: an event's or an instruction's of the program, or a
      successful activity of the multisig's vault. */
  predicate AboutTheSignal(config: Config, rule: Rule, line: Loki.Line) {
    match rule.kind
    case Event =>
      && Loki.Extracted(line, "kind") == "program_event"
      && Loki.Extracted(line, "name") == rule.name
      && Loki.Extracted(line, "program_id") == config.programId
    case Instruction =>
      && Loki.Extracted(line, "kind") == "program_instruction"
      && Loki.Extracted(line, "name") == rule.name
      && Loki.Extracted(line, "program_id") == config.programId
    case Multisig =>
      && config.vault.Some?
      && Loki.Extracted(line, "kind") == "multisig_activity"
      && Loki.Extracted(line, "action") == rule.name
      && Loki.Extracted(line, "vault_address") == config.vault.value
      && IsFlag(Loki.FieldOf(line, "failed"), false)
  }

  /** A rule without conditions matches every record of its signal, whichever mode. */
  ghost predicate ConditionsSatisfied(read: Loki.Reader, rule: Rule, line: Loki.Line) {
    if rule.mode == Any && rule.conditions != [] then
      exists c :: c in rule.conditions && Satisfied(read, c, Loki.FieldOf(line, c.field))
    else
      forall c :: c in rule.conditions ==> Satisfied(read, c, Loki.FieldOf(line, c.field))
  }

  ghost predicate SatisfiesRule(read: Loki.Reader, config: Config, rule: Rule, line: Loki.Line) {
    && line.age < rule.window && line.wellFormed
    && AboutTheSignal(config, rule, line)
    && ConditionsSatisfied(read, rule, line)
  }

  /** Numbers are written so that they read back, and nothing that is not a number or a
      string reads as one; a structure is never written as nothing or as a boolean. */
  ghost predicate Readable(read: Loki.Reader, field: Loki.Json) {
    match field
    case Number(value, shown) => read(shown) == Some(value) && shown != "" && shown != "true" && shown != "false"
    case Structure(shown) => read(shown) == None && shown != "" && shown != "true" && shown != "false"
    case Boolean(flag) => read(Loki.ShowBool(flag)) == None
    case _ => true
  }

  ghost predicate ReadableLine(read: Loki.Reader, line: Loki.Line) {
    read("") == None && forall path :: path in line.fields ==> Readable(read, line.fields[path])
  }

  // ---------------------------------------------------------------------------
  // Compilation preserves meaning
  // ---------------------------------------------------------------------------

  /** One condition: its filters pass the extracted label if and only if the field
      satisfies it. */
  lemma ConditionMeansItsFilters(read: Loki.Reader, condition: Condition, tag: string, line: Loki.Line)
    requires ValidCondition(condition) && ReadableLine(read, line)
    ensures (forall f :: f in ConditionFilter(condition, tag) ==> Loki.Passes(read, f, Loki.Extracted(line, condition.field)))
        <==> Satisfied(read, condition, Loki.FieldOf(line, condition.field))
  {
    var filters := ConditionFilter(condition, tag);
    if condition.operator.Contains? {
      Loki.InfixIsSurrounded(condition.value.value.text, Loki.Extracted(line, condition.field));
    }
    assert filters[0] in filters;
    if |filters| == 2 {
      assert filters[1] in filters;
    }
  }

  lemma {:induction false} PathsBefore(first: seq<(string, string)>, second: seq<(string, string)>, tag: string)
    ensures Loki.PathOf(first + second, tag) ==
            if Loki.PathOf(first, tag).Some? then Loki.PathOf(first, tag) else Loki.PathOf(second, tag)
  {
    if first == [] {
      assert first + second == second;
    } else {
      PathsBefore(first[1..], second, tag);
      assert (first + second)[1..] == first[1..] + second;
    }
  }

  lemma {:induction false} ShownApart(first: nat, second: nat)
    requires ConditionLabel(first) == ConditionLabel(second)
    ensures first == second
  {
    var shown, other := ConditionLabel(first), ConditionLabel(second);
    assert shown[|"condition_"|..] == ShowNat(first) && other[|"condition_"|..] == ShowNat(second);
    ValueOfShown(first);
    ValueOfShown(second);
  }

  /** No fixed label can be mistaken for a condition's. */
  lemma ConditionLabelsAreApart(index: nat)
    ensures ConditionLabel(index) !in {"kind", "signal", "scope", "signature", "failed"}
  {
    assert ConditionLabel(index)[0] == 'c' && |ConditionLabel(index)| >= 10;
  }

  ghost predicate IndexedApart(conditions: seq<Indexed>) {
    forall i, j :: 0 <= i < j < |conditions| ==> conditions[i].index != conditions[j].index
  }

  lemma {:induction false} FindsFirst(parser: seq<(string, string)>, i: nat)
    requires i < |parser| && forall j :: 0 <= j < i ==> parser[j].0 != parser[i].0
    ensures Loki.PathOf(parser, parser[i].0) == Some(parser[i].1)
  {
    if i > 0 {
      FindsFirst(parser[1..], i - 1);
    }
  }

  lemma LabelledFindsField(conditions: seq<Indexed>, i: nat)
    requires i < |conditions| && IndexedApart(conditions)
    ensures Loki.PathOf(Labelled(conditions), ConditionLabel(conditions[i].index)) == Some(conditions[i].condition.field)
  {
    var parser := Labelled(conditions);
    forall j | 0 <= j < i ensures parser[j].0 != parser[i].0 {
      if parser[j].0 == parser[i].0 {
        ShownApart(conditions[j].index, conditions[i].index);
      }
    }
    FindsFirst(parser, i);
  }

  lemma BaseFindsNoCondition(rule: Rule, scheme: Scheme, index: nat)
    ensures Loki.PathOf(BaseParser(rule, scheme), ConditionLabel(index)) == None
  {
    ConditionLabelsAreApart(index);
    var base := BaseParser(rule, scheme);
    assert forall p :: p in base ==> p.0 != ConditionLabel(index);
    NoSuchLabel(base, ConditionLabel(index));
  }

  lemma {:induction false} NoSuchLabel(parser: seq<(string, string)>, tag: string)
    requires forall p :: p in parser ==> p.0 != tag
    ensures Loki.PathOf(parser, tag) == None
  {
    if parser != [] {
      NoSuchLabel(parser[1..], tag);
    }
  }

  /** In a count's parser each condition's label leads to its own field. */
  lemma CountFindsField(rule: Rule, scheme: Scheme, conditions: seq<Indexed>, i: nat, line: Loki.Line)
    requires i < |conditions| && IndexedApart(conditions)
    ensures Loki.LabelOf(BaseParser(rule, scheme) + Labelled(conditions), line, ConditionLabel(conditions[i].index))
         == Loki.Extracted(line, conditions[i].condition.field)
  {
    var tag := ConditionLabel(conditions[i].index);
    BaseFindsNoCondition(rule, scheme, conditions[i].index);
    PathsBefore(BaseParser(rule, scheme), Labelled(conditions), tag);
    LabelledFindsField(conditions, i);
  }

  lemma CountFindsBase(rule: Rule, scheme: Scheme, conditions: seq<Indexed>, line: Loki.Line)
    ensures var parser := BaseParser(rule, scheme) + Labelled(conditions);
            && Loki.LabelOf(parser, line, "kind") == Loki.Extracted(line, "kind")
            && Loki.LabelOf(parser, line, "signal") == Loki.Extracted(line, scheme.signalPath)
            && Loki.LabelOf(parser, line, "scope") == Loki.Extracted(line, scheme.scopePath)
            && Loki.LabelOf(parser, line, "signature") == Loki.Extracted(line, "signature")
            && (rule.kind == Multisig ==> Loki.LabelOf(parser, line, "failed") == Loki.Extracted(line, "failed"))
  {
    var base := BaseParser(rule, scheme);
    FixedPaths(rule, scheme);
    PathsBefore(base, Labelled(conditions), "kind");
    PathsBefore(base, Labelled(conditions), "signal");
    PathsBefore(base, Labelled(conditions), "scope");
    PathsBefore(base, Labelled(conditions), "signature");
    PathsBefore(base, Labelled(conditions), "failed");
  }

  lemma FixedPaths(rule: Rule, scheme: Scheme)
    ensures var base := BaseParser(rule, scheme);
            && Loki.PathOf(base, "kind") == Some("kind")
            && Loki.PathOf(base, "signal") == Some(scheme.signalPath)
            && Loki.PathOf(base, "scope") == Some(scheme.scopePath)
            && Loki.PathOf(base, "signature") == Some("signature")
            && (rule.kind == Multisig ==> Loki.PathOf(base, "failed") == Some("failed"))
  {
    var base := BaseParser(rule, scheme);
    FindsFirst(base, 0);
    FindsFirst(base, 1);
    FindsFirst(base, 2);
    FindsFirst(base, 3);
    if rule.kind == Multisig {
      FindsFirst(base, 4);
    }
  }

  ghost predicate SatisfiedAt(read: Loki.Reader, conditions: seq<Indexed>, line: Loki.Line, i: nat) {
    i < |conditions| ==> Satisfied(read, conditions[i].condition, Loki.FieldOf(line, conditions[i].condition.field))
  }

  lemma SatisfiedFromTheFirst(read: Loki.Reader, conditions: seq<Indexed>, line: Loki.Line)
    requires conditions != []
    ensures (forall i: nat :: SatisfiedAt(read, conditions, line, i)) <==>
              SatisfiedAt(read, conditions, line, 0) && forall i: nat :: SatisfiedAt(read, conditions[1..], line, i)
  {
    forall i: nat | i + 1 < |conditions|
      ensures SatisfiedAt(read, conditions, line, i + 1) == SatisfiedAt(read, conditions[1..], line, i)
    {
    }
    if SatisfiedAt(read, conditions, line, 0) && forall i: nat :: SatisfiedAt(read, conditions[1..], line, i) {
      forall i: nat ensures SatisfiedAt(read, conditions, line, i) {
        if 0 < i < |conditions| {
          assert SatisfiedAt(read, conditions[1..], line, i - 1);
        }
      }
    }
    if forall i: nat :: SatisfiedAt(read, conditions, line, i) {
      forall i: nat ensures SatisfiedAt(read, conditions[1..], line, i) {
        assert SatisfiedAt(read, conditions, line, i + 1);
      }
    }
  }

  lemma {:induction false} FiltersOfAll(read: Loki.Reader, conditions: seq<Indexed>, parser: seq<(string, string)>, line: Loki.Line)
    requires Filters(conditions).Ok? && ReadableLine(read, line)
    requires forall i :: 0 <= i < |conditions| ==>
               Loki.LabelOf(parser, line, ConditionLabel(conditions[i].index))
               == Loki.Extracted(line, conditions[i].condition.field)
    ensures AllPass(read, Filters(conditions).value, parser, line) <==>
              forall i: nat :: SatisfiedAt(read, conditions, line, i)
  {
    if conditions != [] {
      var first := conditions[0];
      var filters := ConditionFilter(first.condition, ConditionLabel(first.index));
      FiltersOfAll(read, conditions[1..], parser, line);
      ConditionMeansItsFilters(read, first.condition, ConditionLabel(first.index), line);
      FiltersAreAbout(first.condition, ConditionLabel(first.index));
      AllPassJoin(read, filters, Filters(conditions[1..]).value, parser, line);
      SatisfiedFromTheFirst(read, conditions, line);
    }
  }

  predicate AllPass(read: Loki.Reader, filters: seq<Loki.Filter>, parser: seq<(string, string)>, line: Loki.Line) {
    forall f :: f in filters ==> Loki.Passes(read, f, Loki.LabelOf(parser, line, f.tag))
  }

  lemma AllPassJoin(read: Loki.Reader, first: seq<Loki.Filter>, second: seq<Loki.Filter>, parser: seq<(string, string)>, line: Loki.Line)
    ensures AllPass(read, first + second, parser, line) <==> AllPass(read, first, parser, line) && AllPass(read, second, parser, line)
  {
    assert forall f :: f in first + second <==> f in first || f in second;
  }

  lemma FiltersAreAbout(condition: Condition, tag: string)
    requires ValidCondition(condition)
    ensures forall f :: f in ConditionFilter(condition, tag) ==> f.tag == tag
  {
  }

  /** The fixed filters, read off the labels they look at. */
  predicate BasePasses(rule: Rule, scheme: Scheme, parser: seq<(string, string)>, line: Loki.Line) {
    && Loki.LabelOf(parser, line, "kind") == scheme.recordKind
    && Loki.LabelOf(parser, line, "signal") == rule.name
    && Loki.LabelOf(parser, line, "scope") == scheme.scope
    && (rule.kind == Multisig ==> Loki.LabelOf(parser, line, "failed") == "false")
  }

  lemma BaseFiltersPass(read: Loki.Reader, rule: Rule, scheme: Scheme, parser: seq<(string, string)>, line: Loki.Line)
    ensures AllPass(read, BaseFilters(rule, scheme), parser, line) <==> BasePasses(rule, scheme, parser, line)
  {
    var filters := BaseFilters(rule, scheme);
    assert filters[0] in filters && filters[1] in filters && filters[2] in filters;
    if rule.kind == Multisig {
      assert filters[3] in filters;
    }
  }

  lemma BaseFiltersMean(read: Loki.Reader, config: Config, rule: Rule, scheme: Scheme, conditions: seq<Indexed>, line: Loki.Line)
    requires SchemeOf(config, rule.kind) == Ok(scheme) && ReadableLine(read, line)
    ensures AllPass(read, BaseFilters(rule, scheme), BaseParser(rule, scheme) + Labelled(conditions), line)
        <==> AboutTheSignal(config, rule, line)
  {
    BaseFiltersPass(read, rule, scheme, BaseParser(rule, scheme) + Labelled(conditions), line);
    CountFindsBase(rule, scheme, conditions, line);
    OnlyFalseReadsFalse(read, line, "failed");
  }

  lemma OnlyFalseReadsFalse(read: Loki.Reader, line: Loki.Line, path: string)
    requires ReadableLine(read, line)
    ensures Loki.Extracted(line, path) == "false" <==>
              IsFlag(Loki.FieldOf(line, path), false)
  {
  }

  /** One count selects exactly the records of the signal that satisfy all of its
      conditions, and reports them under their own signature. */
  lemma CountSelects(read: Loki.Reader, config: Config, rule: Rule, scheme: Scheme, conditions: seq<Indexed>, line: Loki.Line)
    requires SchemeOf(config, rule.kind) == Ok(scheme)
    requires IndexedApart(conditions) && CountQuery(rule, scheme, conditions).Ok?
    requires ReadableLine(read, line)
    ensures var count := CountQuery(rule, scheme, conditions).value;
            && (Loki.Selects(read, count, line) <==>
                  && line.age < rule.window && line.wellFormed
                  && AboutTheSignal(config, rule, line)
                  && forall i: nat :: SatisfiedAt(read, conditions, line, i))
            && Loki.SignatureOf(count, line) == Loki.Extracted(line, "signature")
  {
    var count := CountQuery(rule, scheme, conditions).value;
    Loki.UnmarkedMeansAllPass(read, count, count.filters, line, !line.wellFormed);
    AllPassJoin(read, BaseFilters(rule, scheme), Filters(conditions).value, count.parser, line);
    BaseFiltersMean(read, config, rule, scheme, conditions, line);
    CountFindsBase(rule, scheme, conditions, line);
    forall i | 0 <= i < |conditions|
      ensures Loki.LabelOf(count.parser, line, ConditionLabel(conditions[i].index))
           == Loki.Extracted(line, conditions[i].condition.field)
    {
      CountFindsField(rule, scheme, conditions, i, line);
    }
    FiltersOfAll(read, conditions, count.parser, line);
  }

  lemma {:induction false} CountQueriesAreEach(rule: Rule, scheme: Scheme, conditions: seq<Indexed>, i: nat)
    requires CountQueries(rule, scheme, conditions).Ok? && i < |conditions|
    ensures |CountQueries(rule, scheme, conditions).value| == |conditions|
    ensures CountQuery(rule, scheme, [conditions[i]]) == Ok(CountQueries(rule, scheme, conditions).value[i])
  {
    assert conditions[..1] == [conditions[0]];
    if i > 0 {
      CountQueriesAreEach(rule, scheme, conditions[1..], i - 1);
    } else if |conditions| > 1 {
      CountQueriesAreEach(rule, scheme, conditions[1..], 0);
    }
  }

  /** Some branch of the compiled query selects a record if and only if the record
      satisfies the rule. */
  lemma BranchesSelect(read: Loki.Reader, config: Config, rule: Rule, line: Loki.Line)
    requires Compiled(config, rule).Ok? && ReadableLine(read, line)
    ensures (exists b :: b in Compiled(config, rule).value.branches && Loki.Selects(read, b, line))
        <==> SatisfiesRule(read, config, rule, line)
    ensures forall b :: b in Compiled(config, rule).value.branches ==>
              Loki.SignatureOf(b, line) == Loki.Extracted(line, "signature")
  {
    var scheme := SchemeOf(config, rule.kind).value;
    var conditions := Enumerated(rule.conditions);
    if rule.mode == Any && |conditions| > 1 {
      AnyBranchesSelect(read, config, rule, scheme, line);
    } else {
      OneBranchSelects(read, config, rule, scheme, line);
    }
  }

  lemma OneBranchSelects(read: Loki.Reader, config: Config, rule: Rule, scheme: Scheme, line: Loki.Line)
    requires SchemeOf(config, rule.kind) == Ok(scheme)
    requires rule.mode == Any ==> |rule.conditions| <= 1
    requires CountQuery(rule, scheme, Enumerated(rule.conditions)).Ok? && ReadableLine(read, line)
    ensures var b := CountQuery(rule, scheme, Enumerated(rule.conditions)).value;
            && (Loki.Selects(read, b, line) <==> SatisfiesRule(read, config, rule, line))
            && Loki.SignatureOf(b, line) == Loki.Extracted(line, "signature")
  {
    var conditions := Enumerated(rule.conditions);
    CountSelects(read, config, rule, scheme, conditions, line);
    AllIndexed(read, rule.conditions, line);
  }

  lemma AllIndexed(read: Loki.Reader, conditions: seq<Condition>, line: Loki.Line)
    ensures (forall i: nat :: SatisfiedAt(read, Enumerated(conditions), line, i)) <==>
              forall c :: c in conditions ==> Satisfied(read, c, Loki.FieldOf(line, c.field))
  {
    if forall i: nat :: SatisfiedAt(read, Enumerated(conditions), line, i) {
      forall c | c in conditions ensures Satisfied(read, c, Loki.FieldOf(line, c.field)) {
        var i :| 0 <= i < |conditions| && conditions[i] == c;
        assert SatisfiedAt(read, Enumerated(conditions), line, i);
      }
    }
  }

  lemma AnyBranchesSelect(read: Loki.Reader, config: Config, rule: Rule, scheme: Scheme, line: Loki.Line)
    requires SchemeOf(config, rule.kind) == Ok(scheme)
    requires rule.mode == Any && |rule.conditions| > 1
    requires CountQueries(rule, scheme, Enumerated(rule.conditions)).Ok? && ReadableLine(read, line)
    ensures var branches := CountQueries(rule, scheme, Enumerated(rule.conditions)).value;
            && ((exists b :: b in branches && Loki.Selects(read, b, line)) <==> SatisfiesRule(read, config, rule, line))
            && forall b :: b in branches ==> Loki.SignatureOf(b, line) == Loki.Extracted(line, "signature")
  {
    var conditions := Enumerated(rule.conditions);
    var branches := CountQueries(rule, scheme, conditions).value;
    CountQueriesAreEach(rule, scheme, conditions, 0);
    forall i | 0 <= i < |branches|
      ensures Loki.Selects(read, branches[i], line) <==>
                && line.age < rule.window && line.wellFormed && AboutTheSignal(config, rule, line)
                && Satisfied(read, rule.conditions[i], Loki.FieldOf(line, rule.conditions[i].field))
      ensures Loki.SignatureOf(branches[i], line) == Loki.Extracted(line, "signature")
    {
      CountQueriesAreEach(rule, scheme, conditions, i);
      CountSelects(read, config, rule, scheme, [conditions[i]], line);
      assert (forall k: nat :: SatisfiedAt(read, [conditions[i]], line, k)) <==> SatisfiedAt(read, [conditions[i]], line, 0);
    }
    SomeBranchSelects(read, config, rule, branches, line);
  }

  lemma SomeBranchSelects(read: Loki.Reader, config: Config, rule: Rule, branches: seq<Loki.Count>, line: Loki.Line)
    requires rule.mode == Any && |branches| == |rule.conditions| > 1
    requires forall i :: 0 <= i < |branches| ==>
               (Loki.Selects(read, branches[i], line) <==>
                  && line.age < rule.window && line.wellFormed && AboutTheSignal(config, rule, line)
                  && Satisfied(read, rule.conditions[i], Loki.FieldOf(line, rule.conditions[i].field)))
    ensures (exists b :: b in branches && Loki.Selects(read, b, line)) <==> SatisfiesRule(read, config, rule, line)
  {
    if b :| b in branches && Loki.Selects(read, b, line) {
      var i :| 0 <= i < |branches| && branches[i] == b;
      assert rule.conditions[i] in rule.conditions;
    }
    if SatisfiesRule(read, config, rule, line) {
      var c :| c in rule.conditions && Satisfied(read, c, Loki.FieldOf(line, c.field));
      var i :| 0 <= i < |rule.conditions| && rule.conditions[i] == c;
      assert Loki.Selects(read, branches[i], line);
    }
  }

  /** Some record under this signature satisfies the rule. */
  ghost predicate MatchedUnder(read: Loki.Reader, config: Config, rule: Rule, lines: seq<Loki.Line>, signature: string) {
    exists l :: l in lines && SatisfiesRule(read, config, rule, l) && Loki.Extracted(l, "signature") == signature
  }

  /** A compiled rule reports exactly the transactions with a record that satisfies the
      rule, each with a positive count, and reports the bare zero exactly when there is
      no such record. */
  lemma CompilationPreservesMeaning(read: Loki.Reader, config: Config, rule: Rule, lines: seq<Loki.Line>, signature: string)
    requires Compiled(config, rule).Ok?
    requires forall l :: l in lines ==> ReadableLine(read, l)
    ensures var vector := Loki.Evaluated(read, Compiled(config, rule).value, lines);
            && (vector.BySignature? && signature in vector.counts <==> MatchedUnder(read, config, rule, lines, signature))
            && (vector.BySignature? && signature in vector.counts ==> vector.counts[signature] > 0)
            && (vector.Zero? <==> forall l :: l in lines ==> !SatisfiesRule(read, config, rule, l))
  {
    var query := Compiled(config, rule).value;
    SeriesMeanMatches(read, config, rule, lines, signature);
    var counts := Loki.Either(read, query.branches, lines);
    if counts == map[] {
      forall l | l in lines ensures !SatisfiesRule(read, config, rule, l) {
        SeriesMeanMatches(read, config, rule, lines, Loki.Extracted(l, "signature"));
      }
    } else {
      var some :| some in counts;
      SeriesMeanMatches(read, config, rule, lines, some);
    }
  }

  function Field(line: Loki.Line, path: string): string
    requires path in line.fields && line.fields[path].String?
  {
    line.fields[path].text
  }

  /** Of the program's records under a rule's name, an event rule without conditions
      reports the events and an instruction rule the instructions. */
  lemma OwnRecordsAreReported(read: Loki.Reader, config: Config, rule: Rule, line: Loki.Line)
    requires rule.kind != Multisig && rule.conditions == []
    requires ReadableLine(read, line) && line.wellFormed && line.age < rule.window
    requires forall path :: path in {"kind", "name", "program_id", "signature"} ==> path in line.fields && line.fields[path].String?
    requires Field(line, "name") == rule.name && Field(line, "program_id") == config.programId
    ensures Compiled(config, rule).Ok?
    ensures var vector := Loki.Evaluated(read, Compiled(config, rule).value, [line]);
            if Field(line, "kind") == (if rule.kind == Event then "program_event" else "program_instruction") then
              vector.BySignature? && Field(line, "signature") in vector.counts
            else
              vector.Zero?
  {
    assert "kind" in {"kind", "name", "program_id", "signature"} && "signature" in {"kind", "name", "program_id", "signature"};
    assert "name" in {"kind", "name", "program_id", "signature"} && "program_id" in {"kind", "name", "program_id", "signature"};
    CompilesExactlyWhenValid(config, rule);
    CompilationPreservesMeaning(read, config, rule, [line], Field(line, "signature"));
    assert line in [line];
  }

  lemma SeriesMeanMatches(read: Loki.Reader, config: Config, rule: Rule, lines: seq<Loki.Line>, signature: string)
    requires Compiled(config, rule).Ok?
    requires forall l :: l in lines ==> ReadableLine(read, l)
    ensures var counts := Loki.Either(read, Compiled(config, rule).value.branches, lines);
            && (signature in counts <==> MatchedUnder(read, config, rule, lines, signature))
            && (signature in counts ==> counts[signature] > 0)
  {
    var branches := Compiled(config, rule).value.branches;
    Loki.EitherIsTheUnion(read, branches, lines, signature);
    forall l | l in lines
      ensures (exists b :: b in branches && Loki.Selects(read, b, l)) <==> SatisfiesRule(read, config, rule, l)
      ensures forall b :: b in branches ==> Loki.SignatureOf(b, l) == Loki.Extracted(l, "signature")
    {
      BranchesSelect(read, config, rule, l);
    }
    forall b | b in branches
      ensures signature in Loki.Counted(read, b, lines) <==>
                exists l :: l in lines && Loki.Selects(read, b, l) && Loki.Extracted(l, "signature") == signature
    {
      Loki.SeriesAreWhatWasCounted(read, b, lines, signature);
    }
  }

  // ---------------------------------------------------------------------------
  // What validation refuses, and why
  // ---------------------------------------------------------------------------

  /** Every record of a multisig rule's signal has the same `failed`, so a condition on
      it holds for all of them or for none. */
  lemma FailedIsDecided(read: Loki.Reader, config: Config, rule: Rule, condition: Condition, line: Loki.Line, other: Loki.Line)
    requires rule.kind == Multisig && condition.field == "failed" && ValidCondition(condition)
    requires ReadableLine(read, line) && ReadableLine(read, other)
    requires AboutTheSignal(config, rule, line) && AboutTheSignal(config, rule, other)
    ensures Satisfied(read, condition, Loki.FieldOf(line, "failed")) == Satisfied(read, condition, Loki.FieldOf(other, "failed"))
  {
  }

  function Without(rule: Rule, i: nat): Rule
    requires i < |rule.conditions|
  {
    rule.(conditions := rule.conditions[..i] + rule.conditions[i + 1..])
  }

  lemma WithoutOne(read: Loki.Reader, rule: Rule, i: nat, line: Loki.Line)
    requires i < |rule.conditions| && rule.mode == All
    ensures ConditionsSatisfied(read, rule, line) <==>
              && ConditionsSatisfied(read, Without(rule, i), line)
              && Satisfied(read, rule.conditions[i], Loki.FieldOf(line, rule.conditions[i].field))
  {
    assert forall c :: c in rule.conditions <==> c in Without(rule, i).conditions || c == rule.conditions[i];
  }

  /** What validation refuses in a multisig rule that needs all its conditions is, as its
      message says, redundant or unsatisfiable: the rule means the same without it, or
      nothing satisfies the rule. */
  lemma RefusedConditionIsIdle(read: Loki.Reader, config: Config, rule: Rule) returns (i: nat)
    requires rule.kind == Multisig && rule.mode == All
    requires (forall c :: c in rule.conditions ==> ValidCondition(c)) && !ValidConditions(rule)
    ensures i < |rule.conditions| && rule.conditions[i].field == "failed"
    ensures || (forall line :: ReadableLine(read, line) ==>
                  (SatisfiesRule(read, config, rule, line) <==> SatisfiesRule(read, config, Without(rule, i), line)))
            || (forall line :: ReadableLine(read, line) ==> !SatisfiesRule(read, config, rule, line))
  {
    i :| 0 <= i < |rule.conditions| && rule.conditions[i].field == "failed";
    var condition := rule.conditions[i];
    forall line ensures ConditionsSatisfied(read, rule, line) <==>
                          && ConditionsSatisfied(read, Without(rule, i), line)
                          && Satisfied(read, condition, Loki.FieldOf(line, "failed")) {
      WithoutOne(read, rule, i, line);
    }
    if some :| ReadableLine(read, some) && AboutTheSignal(config, rule, some) && Satisfied(read, condition, Loki.FieldOf(some, "failed")) {
      forall line | ReadableLine(read, line)
        ensures SatisfiesRule(read, config, rule, line) <==> SatisfiesRule(read, config, Without(rule, i), line)
      {
        if AboutTheSignal(config, rule, line) {
          FailedIsDecided(read, config, rule, condition, some, line);
        }
      }
    }
  }
}
