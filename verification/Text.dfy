/** The text forms the durable files are made of: lines, decimal numbers and encoded
    signatures. */
module Text {
  import opened Primitives

  // ---------------------------------------------------------------------------
  // Signatures
  // ---------------------------------------------------------------------------

  /** The base58 form of a signature, of which only this is used: it is unique, its
      length is that of 64 encoded bytes, and it holds neither blanks nor line ends. */
  datatype Codec = Codec(show: Signature -> string, parse: string -> Option<Signature>)

  const SHORTEST_SIGNATURE: nat := 64

  ghost predicate Lawful(codec: Codec) {
    && (forall text, s :: ParsesOnly(codec, text, s))
    && (forall s :: ShowsOneWord(codec, s))
  }

  ghost predicate ParsesOnly(codec: Codec, text: string, s: Signature) {
    codec.parse(text) == Some(s) <==> text == codec.show(s)
  }

  ghost predicate ShowsOneWord(codec: Codec, s: Signature) {
    && |codec.show(s)| >= SHORTEST_SIGNATURE
    && forall i :: 0 <= i < |codec.show(s)| ==> codec.show(s)[i] !in " \r\n"
  }

  // ---------------------------------------------------------------------------
  // Decimal numbers
  // ---------------------------------------------------------------------------

  predicate IsDigit(c: char) {
    '0' <= c <= '9'
  }

  predicate AllDigits(text: string) {
    forall i :: 0 <= i < |text| ==> IsDigit(text[i])
  }

  function DigitValue(c: char): nat
    requires IsDigit(c)
  {
    (c - '0') as nat
  }

  function Value(digits: string): nat
    requires AllDigits(digits)
  {
    if digits == "" then 0
    else 10 * Value(digits[..|digits| - 1]) + DigitValue(digits[|digits| - 1])
  }

  function ShowNat(n: nat): (text: string)
    ensures text != "" && AllDigits(text)
  {
    if n < 10 then ['0' + n as char] else ShowNat(n / 10) + ['0' + (n % 10) as char]
  }

  /** Rust's `u64::from_str`: an optional plus sign, then digits, within range. */
  function ParseU64(text: string): Option<u64> {
    var digits := if text != "" && text[0] == '+' then text[1..] else text;
    if digits != "" && AllDigits(digits) && Value(digits) <= MAX_U64 then Some(Value(digits)) else None
  }

  /** A further digit on the right is worth itself, and makes the others worth ten times
      as much. */
  lemma DigitsAreDecimal(digits: string, c: char)
    requires AllDigits(digits) && IsDigit(c)
    ensures Value("") == 0 && Value(digits + [c]) == 10 * Value(digits) + (c as int - '0' as int)
  {
    assert (digits + [c])[..|digits|] == digits;
  }

  /** A text is a number of 64 bits if it is digits, with or without a plus sign, and what
      they are worth is small enough. */
  lemma TextsThatAreNumbers(text: string, n: nat)
    ensures ParseU64(text) == Some(n) <==>
              n < 0x1_0000_0000_0000_0000
              && exists digits :: digits != "" && AllDigits(digits) && Value(digits) == n && (text == digits || text == "+" + digits)
  {
    if digits :| digits != "" && AllDigits(digits) && Value(digits) == n && (text == digits || text == "+" + digits) {
      assert IsDigit(digits[0]);
      if text != digits {
        assert text[1..] == digits;
      }
    }
    if ParseU64(text).Some? && text[0] == '+' {
      assert text == "+" + text[1..];
    }
  }

  lemma {:induction false} ValueOfShown(n: nat)
    ensures Value(ShowNat(n)) == n
  {
    if n >= 10 {
      ValueOfShown(n / 10);
      assert ShowNat(n)[..|ShowNat(n)| - 1] == ShowNat(n / 10);
    } else {
      assert ShowNat(n)[..0] == "";
    }
  }

  lemma ParsesWhatIsShown(slot: u64)
    ensures ParseU64(ShowNat(slot)) == Some(slot)
  {
    ValueOfShown(slot);
    assert IsDigit(ShowNat(slot)[0]);
  }

  /** Cutting digits off the end never makes a number larger. */
  lemma {:induction false} PrefixIsSmaller(digits: string, k: nat)
    requires AllDigits(digits) && k <= |digits|
    ensures Value(digits[..k]) <= Value(digits)
  {
    if k < |digits| {
      PrefixIsSmaller(digits[..|digits| - 1], k);
      assert digits[..|digits| - 1][..k] == digits[..k];
    } else {
      assert digits[..k] == digits;
    }
  }

  // ---------------------------------------------------------------------------
  // Lines
  // ---------------------------------------------------------------------------

  function IndexOf(text: string, c: char): (i: nat)
    ensures i <= |text|
    ensures i < |text| ==> text[i] == c
    ensures forall j :: 0 <= j < i ==> text[j] != c
  {
    if text == "" || text[0] == c then 0 else 1 + IndexOf(text[1..], c)
  }

  function WithoutCarriageReturn(line: string): string {
    if line != "" && line[|line| - 1] == '\r' then line[..|line| - 1] else line
  }

  /** Rust's `str::lines`: a last line needs no line end, and an empty one is dropped. */
  function Lines(text: string): seq<string> {
    var i := IndexOf(text, '\n');
    if i == |text| then
      if text == "" then [] else [text]
    else
      [WithoutCarriageReturn(text[..i])] + Lines(text[i + 1..])
  }

  ghost predicate OneLine(line: string) {
    '\n' !in line && (line == "" || line[|line| - 1] != '\r')
  }

  lemma IndexOfFirst(before: string, c: char, after: string)
    requires c !in before
    ensures IndexOf(before + [c] + after, c) == |before|
  {
    var text := before + [c] + after;
    assert text[|before|] == c;
    assert forall j :: 0 <= j < |before| ==> text[j] == before[j];
  }

  lemma FirstLine(line: string, rest: string)
    requires OneLine(line)
    ensures Lines(line + "\n" + rest) == [line] + Lines(rest)
  {
    IndexOfFirst(line, '\n', rest);
    var text := line + "\n" + rest;
    assert text[..|line|] == line && text[|line| + 1..] == rest;
  }

  lemma LastLine(piece: string)
    requires '\n' !in piece
    ensures Lines(piece) == if piece == "" then [] else [piece]
  {
    assert IndexOf(piece, '\n') == |piece|;
  }

  function SplitOnce(text: string, separator: char): Option<(string, string)> {
    var i := IndexOf(text, separator);
    if i == |text| then None else Some((text[..i], text[i + 1..]))
  }

  lemma SplitsAtTheFirst(before: string, separator: char, after: string)
    requires separator !in before
    ensures SplitOnce(before + [separator] + after, separator) == Some((before, after))
  {
    IndexOfFirst(before, separator, after);
    var text := before + [separator] + after;
    assert text[..|before|] == before && text[|before| + 1..] == after;
  }

  lemma SplitsNowhere(text: string, separator: char)
    requires separator !in text
    ensures SplitOnce(text, separator) == None
  {
    assert IndexOf(text, separator) == |text|;
  }
}
