/** The catalogue flag that forbids selling an item for cash (apps/catalog/utils/cash_sale.py). */
module CashSale {
  import MarkingCodes

  datatype Json =
    | Null
    | Flag(b: bool)
    | Number(n: real)
    | Text(s: string)
    | List(elements: seq<Json>)
    | Object(entries: seq<Entry>)

  datatype Entry = Entry(key: string, value: Json)

  predicate Blank(value: Json) {
    value == Null || value == Text("")
  }

  predicate IsCashSaleKey(key: string) {
    key == "cashSale" || key == "cash_sale"
  }

  /** Depth-first search; Null stands for None. A matching key ends its own object, whatever it holds. */
  function FindFirst(payload: Json): Json
    decreases payload, 0
  {
    match payload
    case Object(entries) => FindInEntries(entries)
    case List(elements) => FindInElements(elements)
    case _ => Null
  }

  function FindInEntries(entries: seq<Entry>): Json
    decreases entries, 1
  {
    if entries == [] then Null
    else if IsCashSaleKey(entries[0].key) then entries[0].value
    else
      var nested := FindFirst(entries[0].value);
      if !Blank(nested) then nested else FindInEntries(entries[1..])
  }

  function FindInElements(elements: seq<Json>): Json
    decreases elements, 1
  {
    if elements == [] then Null
    else
      var nested := FindFirst(elements[0]);
      if !Blank(nested) then nested else FindInElements(elements[1..])
  }

  /** Every value the flag could be read from, in reading order. */
  function Candidates(payload: Json): seq<Json>
    decreases payload, 0
  {
    match payload
    case Object(entries) => EntryCandidates(entries)
    case List(elements) => ElementCandidates(elements)
    case _ => []
  }

  function EntryCandidates(entries: seq<Entry>): seq<Json>
    decreases entries, 1
  {
    if entries == [] then []
    else if IsCashSaleKey(entries[0].key) then [entries[0].value]
    else Candidates(entries[0].value) + EntryCandidates(entries[1..])
  }

  function ElementCandidates(elements: seq<Json>): seq<Json>
    decreases elements, 1
  {
    if elements == [] then []
    else Candidates(elements[0]) + ElementCandidates(elements[1..])
  }

  function FirstNonBlank(values: seq<Json>): Json
  {
    if values == [] then Null
    else if !Blank(values[0]) then values[0]
    else FirstNonBlank(values[1..])
  }

  lemma {:induction false} FirstNonBlankConcat(a: seq<Json>, b: seq<Json>)
    ensures FirstNonBlank(a + b) == if FirstNonBlank(a) != Null then FirstNonBlank(a) else FirstNonBlank(b)
  {
    if a == [] {
      assert a + b == b;
    } else {
      assert (a + b)[1..] == a[1..] + b;
      FirstNonBlankConcat(a[1..], b);
    }
  }

  function NullIfBlank(value: Json): Json {
    if Blank(value) then Null else value
  }

  /** The search returns the first non-blank candidate, and something blank exactly when there is none. */
  lemma {:induction false} FindFirstReadsFirstNonBlank(payload: Json)
    ensures NullIfBlank(FindFirst(payload)) == FirstNonBlank(Candidates(payload))
    decreases payload, 0
  {
    match payload
    case Object(entries) => FindInEntriesReadsFirstNonBlank(entries);
    case List(elements) => FindInElementsReadsFirstNonBlank(elements);
    case _ =>
  }

  lemma {:induction false} FindInEntriesReadsFirstNonBlank(entries: seq<Entry>)
    ensures NullIfBlank(FindInEntries(entries)) == FirstNonBlank(EntryCandidates(entries))
    decreases entries, 1
  {
    if entries != [] {
      if IsCashSaleKey(entries[0].key) {
        assert FirstNonBlank([entries[0].value]) == NullIfBlank(entries[0].value);
      } else {
        FindFirstReadsFirstNonBlank(entries[0].value);
        FindInEntriesReadsFirstNonBlank(entries[1..]);
        FirstNonBlankConcat(Candidates(entries[0].value), EntryCandidates(entries[1..]));
      }
    }
  }

  lemma {:induction false} FindInElementsReadsFirstNonBlank(elements: seq<Json>)
    ensures NullIfBlank(FindInElements(elements)) == FirstNonBlank(ElementCandidates(elements))
    decreases elements, 1
  {
    if elements != [] {
      FindFirstReadsFirstNonBlank(elements[0]);
      FindInElementsReadsFirstNonBlank(elements[1..]);
      FirstNonBlankConcat(Candidates(elements[0]), ElementCandidates(elements[1..]));
    }
  }

  /** Decimal(str(value)) == 0; booleans and containers do not parse and are never zero. */
  predicate DenotesZero(value: Json) {
    match value
    case Number(n) => n == 0.0
    case Text(s) => ZeroLiteral(s)
    case _ => false
  }

  /** Decimal ignores underscores and surrounding whitespace. */
  function WithoutUnderscores(s: string): string {
    if s == "" then "" else (if s[0] == '_' then "" else [s[0]]) + WithoutUnderscores(s[1..])
  }

  function Unsigned(s: string): string {
    if s != "" && (s[0] == '+' || s[0] == '-') then s[1..] else s
  }

  function MantissaLength(s: string): (n: nat)
    ensures n <= |s|
  {
    if s == "" || s[0] == 'e' || s[0] == 'E' then 0 else 1 + MantissaLength(s[1..])
  }

  /** Zeros and at most one point, at least one zero. */
  predicate ZeroMantissa(s: string) {
    && '0' in s
    && (forall k | 0 <= k < |s| :: s[k] == '0' || s[k] == '.')
    && (forall j, k | 0 <= j < k < |s| :: !(s[j] == '.' && s[k] == '.'))
  }

  /** Optional sign, a zero mantissa, and an optional exponent. */
  predicate ReadsZero(text: string) {
    var body := Unsigned(text);
    var n := MantissaLength(body);
    && ZeroMantissa(body[..n])
    && (n < |body| ==> MarkingCodes.AllDigits(Unsigned(body[n + 1..])))
  }

  predicate ZeroLiteral(s: string) {
    ReadsZero(WithoutUnderscores(MarkingCodes.Strip(s)))
  }

  predicate IsSign(s: string) {
    s == "" || s == "+" || s == "-"
  }

  ghost predicate ExponentOf(s: string, mark: string, sign: string, digits: string) {
    (mark == "e" || mark == "E") && IsSign(sign) && MarkingCodes.AllDigits(digits) && s == mark + sign + digits
  }

  /** Nothing, or e or E with a signed whole number. */
  ghost predicate IsExponent(s: string) {
    s == "" || exists mark, sign, digits :: ExponentOf(s, mark, sign, digits)
  }

  ghost predicate ZeroOf(s: string, sign: string, mantissa: string, exponent: string) {
    IsSign(sign) && ZeroMantissa(mantissa) && IsExponent(exponent) && s == sign + mantissa + exponent
  }

  /** A sign, zeros with at most one point among or around them, and an exponent. */
  ghost predicate SpellsZero(s: string) {
    exists sign, mantissa, exponent :: ZeroOf(s, sign, mantissa, exponent)
  }

  lemma {:induction false} MantissaCut(mantissa: string, rest: string)
    requires forall k | 0 <= k < |mantissa| :: mantissa[k] != 'e' && mantissa[k] != 'E'
    requires rest != "" ==> rest[0] == 'e' || rest[0] == 'E'
    ensures MantissaLength(mantissa + rest) == |mantissa|
  {
    if mantissa == "" {
      assert mantissa + rest == rest;
    } else {
      assert (mantissa + rest)[1..] == mantissa[1..] + rest;
      MantissaCut(mantissa[1..], rest);
    }
  }

  lemma {:induction false} MantissaEnds(s: string)
    ensures MantissaLength(s) < |s| ==> s[MantissaLength(s)] == 'e' || s[MantissaLength(s)] == 'E'
  {
    if s != "" && s[0] != 'e' && s[0] != 'E' {
      MantissaEnds(s[1..]);
    }
  }

  lemma SignCut(sign: string, body: string)
    requires IsSign(sign) && body != "" && body[0] != '+' && body[0] != '-'
    ensures Unsigned(sign + body) == body
  {
    if sign == "" {
      assert sign + body == body;
    }
  }

  lemma SignFound(s: string) returns (sign: string)
    ensures IsSign(sign) && s == sign + Unsigned(s)
  {
    sign := if s != "" && (s[0] == '+' || s[0] == '-') then [s[0]] else "";
    assert sign == "" ==> s == "" + s;
  }

  lemma ExponentFound(s: string)
    requires s != "" && (s[0] == 'e' || s[0] == 'E') && MarkingCodes.AllDigits(Unsigned(s[1..]))
    ensures IsExponent(s)
  {
    var sign := SignFound(s[1..]);
    assert ExponentOf(s, [s[0]], sign, Unsigned(s[1..]));
  }

  lemma ExponentCut(s: string, mark: string, sign: string, digits: string)
    requires ExponentOf(s, mark, sign, digits)
    ensures s != "" && (s[0] == 'e' || s[0] == 'E') && MarkingCodes.AllDigits(Unsigned(s[1..]))
  {
    assert s[1..] == sign + digits;
    SignCut(sign, digits);
  }

  lemma {:induction false} ExponentAt(body: string, n: nat)
    requires n == MantissaLength(body) && (n < |body| ==> MarkingCodes.AllDigits(Unsigned(body[n + 1..])))
    ensures IsExponent(body[n..])
  {
    MantissaEnds(body);
    if n < |body| {
      assert body[n..][1..] == body[n + 1..];
      ExponentFound(body[n..]);
    }
  }

  lemma SplitAt(text: string, sign: string, body: string, n: nat)
    requires text == sign + body && n <= |body|
    ensures text == sign + body[..n] + body[n..]
  {
  }

  lemma SpelledAs(text: string, sign: string, body: string, n: nat)
    requires IsSign(sign) && text == sign + body && n <= |body| && ZeroMantissa(body[..n]) && IsExponent(body[n..])
    ensures SpellsZero(text)
  {
    SplitAt(text, sign, body, n);
    assert ZeroOf(text, sign, body[..n], body[n..]);
  }

  lemma ZeroSpelled(text: string)
    requires ReadsZero(text)
    ensures SpellsZero(text)
  {
    var sign := SignFound(text);
    var body := Unsigned(text);
    var n := MantissaLength(body);
    ExponentAt(body, n);
    SpelledAs(text, sign, body, n);
  }

  lemma BodyOf(text: string, sign: string, mantissa: string, exponent: string)
    requires IsSign(sign) && ZeroMantissa(mantissa) && text == sign + mantissa + exponent
    ensures Unsigned(text) == mantissa + exponent
  {
    assert text == sign + (mantissa + exponent);
    SignCut(sign, mantissa + exponent);
  }

  lemma {:induction false} ReadFrom(text: string, mantissa: string, exponent: string)
    requires Unsigned(text) == mantissa + exponent && MantissaLength(mantissa + exponent) == |mantissa|
    requires ZeroMantissa(mantissa) && (exponent != "" ==> MarkingCodes.AllDigits(Unsigned(exponent[1..])))
    ensures ReadsZero(text)
  {
    var body := mantissa + exponent;
    assert body[..|mantissa|] == mantissa;
    assert exponent != "" ==> body[|mantissa| + 1..] == exponent[1..];
  }

  lemma SpelledParts(text: string, sign: string, mantissa: string, exponent: string)
    requires ZeroOf(text, sign, mantissa, exponent)
    ensures ReadsZero(text)
  {
    if exponent != "" {
      var mark, sign', digits :| ExponentOf(exponent, mark, sign', digits);
      ExponentCut(exponent, mark, sign', digits);
    }
    BodyOf(text, sign, mantissa, exponent);
    MantissaCut(mantissa, exponent);
    ReadFrom(text, mantissa, exponent);
  }

  /** A text reads as zero exactly when it spells zero, whitespace around it and underscores apart. */
  lemma ZeroLiteralIff(s: string)
    ensures ZeroLiteral(s) <==> SpellsZero(WithoutUnderscores(MarkingCodes.Strip(s)))
  {
    var text := WithoutUnderscores(MarkingCodes.Strip(s));
    if ReadsZero(text) {
      ZeroSpelled(text);
    }
    if SpellsZero(text) {
      var sign, mantissa, exponent :| ZeroOf(text, sign, mantissa, exponent);
      SpelledParts(text, sign, mantissa, exponent);
    }
  }

  predicate CashForbidden(itemPayload: Json, categoryPayload: Json) {
    var value := FindFirst(List([itemPayload, categoryPayload]));
    !Blank(value) && DenotesZero(value)
  }

  /** The item's own payload decides if it says anything; only otherwise does the category's. */
  lemma {:induction false} ItemPayloadDecides(itemPayload: Json, categoryPayload: Json)
    ensures CashForbidden(itemPayload, categoryPayload) ==
            var own := FirstNonBlank(Candidates(itemPayload));
            if own != Null then DenotesZero(own) else DenotesZero(FirstNonBlank(Candidates(categoryPayload)))
  {
    var both := [itemPayload, categoryPayload];
    FindFirstReadsFirstNonBlank(List(both));
    assert both[1..] == [categoryPayload] && [categoryPayload][1..] == [];
    assert ElementCandidates([categoryPayload]) == Candidates(categoryPayload);
    assert ElementCandidates(both) == Candidates(itemPayload) + Candidates(categoryPayload);
    FirstNonBlankConcat(Candidates(itemPayload), Candidates(categoryPayload));
    assert FindFirst(List(both)) == FindInElements(both);
  }
}
