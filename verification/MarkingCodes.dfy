/** Scanner codes, GTIN matching and catalogue lookup
    (apps/sales/services/marking.py, apps/catalog/utils/marking.py). */
module MarkingCodes {

  predicate IsDigit(c: char) { '0' <= c <= '9' }

  predicate AllDigits(s: string) {
    s != "" && forall k | 0 <= k < |s| :: IsDigit(s[k])
  }

  /** Whitespace that Python's strip removes; it includes the ASCII group separator. */
  predicate IsSpace(c: char) {
    c == ' ' || '\t' <= c <= '\r' || '\U{1C}' <= c <= '\U{1F}' || c == '\U{85}' || c == '\U{A0}'
  }

  function StripRight(s: string): (r: string)
    ensures r <= s && (r != "" ==> !IsSpace(r[|r| - 1]))
  {
    if s != "" && IsSpace(s[|s| - 1]) then StripRight(s[..|s| - 1]) else s
  }

  function StripLeft(s: string): string {
    if s != "" && IsSpace(s[0]) then StripLeft(s[1..]) else s
  }

  function Strip(s: string): string {
    StripRight(StripLeft(s))
  }

  datatype Parsed = Parsed(raw: string, gtin: string, serial: string)

  /** parse_marking_code: AI 01 with AI 21, AI 01 alone, a bare GTIN, or nothing usable. */
  function Parse(code: string): Parsed {
    var raw := Strip(code);
    if "01" <= raw && |raw| >= 16 && AllDigits(raw[2..16]) then
      var tail := raw[16..];
      Parsed(raw, raw[2..16], if "21" <= tail then tail[2..] else tail)
    else if AllDigits(raw) && |raw| >= 8 then
      Parsed(raw, if |raw| >= 14 then raw[..14] else raw, "")
    else Parsed(raw, "", "")
  }

  /** An element string of AI 01 and AI 21 (GS1 General Specifications, sections 3.3.2 and 3.5.2). */
  function Encode(gtin: string, serial: string): string {
    "01" + gtin + "21" + serial
  }

  lemma {:induction false} StripRightConcat(a: string, b: string)
    requires a != "" && !IsSpace(a[|a| - 1])
    ensures StripRight(a + b) == a + StripRight(b)
  {
    if b != "" && IsSpace(b[|b| - 1]) {
      var b' := b[..|b| - 1];
      assert (a + b)[..|a + b| - 1] == a + b';
      StripRightConcat(a, b');
    } else if b == "" {
      assert a + b == a;
    }
  }

  lemma {:induction false} StripHead(head: string, serial: string)
    requires |head| == 18 && !IsSpace(head[0]) && !IsSpace(head[17])
    ensures Strip(head + serial) == head + StripRight(serial)
  {
    assert (head + serial)[0] == head[0];
    StripRightConcat(head, serial);
  }

  lemma HeadSlices(gtin: string, tail: string)
    requires |gtin| == 14
    ensures var raw := "01" + gtin + "21" + tail;
            && "01" <= raw && |raw| == 18 + |tail|
            && raw[2..16] == gtin && raw[16..] == "21" + tail
  {
  }

  lemma {:induction false} StripRightFixed(s: string)
    ensures StripRight(s) == s <==> s == "" || !IsSpace(s[|s| - 1])
  {
  }

  /** Parsing an element string gives back its GTIN, and its serial up to trailing whitespace. */
  lemma {:induction false} ParseEncode(gtin: string, serial: string)
    requires |gtin| == 14 && AllDigits(gtin)
    ensures Parse(Encode(gtin, serial)) == Parsed(Encode(gtin, StripRight(serial)), gtin, StripRight(serial))
    ensures Parse(Encode(gtin, serial)).serial == serial <==> serial == "" || !IsSpace(serial[|serial| - 1])
  {
    var head := "01" + gtin + "21";
    assert Encode(gtin, serial) == head + serial;
    StripHead(head, serial);
    HeadSlices(gtin, StripRight(serial));
    var tail := "21" + StripRight(serial);
    assert tail[2..] == StripRight(serial);
    StripRightFixed(serial);
  }

  ghost predicate AllSpace(s: string) {
    forall k | 0 <= k < |s| :: IsSpace(s[k])
  }

  lemma {:induction false} StripRightCuts(s: string)
    ensures StripRight(s) <= s && AllSpace(s[|StripRight(s)|..])
  {
    if s != "" && IsSpace(s[|s| - 1]) {
      StripRightCuts(s[..|s| - 1]);
      var kept := |StripRight(s)|;
      assert forall k | 0 <= k < |s| - 1 - kept :: s[kept..][k] == s[..|s| - 1][kept..][k];
    }
  }

  lemma {:induction false} StripLeftCuts(s: string) returns (cut: nat)
    ensures cut <= |s| && StripLeft(s) == s[cut..] && AllSpace(s[..cut])
    ensures cut < |s| ==> !IsSpace(s[cut])
  {
    cut := 0;
    if s != "" && IsSpace(s[0]) {
      var rest := StripLeftCuts(s[1..]);
      cut := rest + 1;
      assert s[1..][rest..] == s[cut..];
      assert forall k | 0 < k < cut :: s[..cut][k] == s[1..][..rest][k - 1];
    }
  }

  /** Stripping cuts whitespace at both ends, and all of it. */
  lemma StripCuts(s: string) returns (from: nat, to: nat)
    ensures from <= to <= |s| && Strip(s) == s[from..to] && AllSpace(s[..from]) && AllSpace(s[to..])
    ensures from < to ==> !IsSpace(s[from]) && !IsSpace(s[to - 1])
  {
    from := StripLeftCuts(s);
    var rest := s[from..];
    StripRightCuts(rest);
    to := from + |StripRight(rest)|;
    assert rest[..|StripRight(rest)|] == s[from..to];
    assert rest[|StripRight(rest)|..] == s[to..];
  }

  /** AI 01 with a GTIN of 14 digits, and the rest. */
  ghost predicate HasGtin(raw: string, gtin: string, tail: string) {
    |gtin| == 14 && AllDigits(gtin) && raw == "01" + gtin + tail
  }

  lemma GtinAt(raw: string, gtin: string, tail: string)
    requires HasGtin(raw, gtin, tail)
    ensures |raw| >= 16 && "01" <= raw && raw[2..16] == gtin && raw[16..] == tail
  {
  }

  lemma GtinFound(raw: string)
    requires "01" <= raw && |raw| >= 16 && AllDigits(raw[2..16])
    ensures HasGtin(raw, raw[2..16], raw[16..])
  {
    assert raw == raw[..2] + raw[2..16] + raw[16..];
  }

  /** What a scanned text gives once its ends are stripped. After AI 01 and 14 digits comes the serial, with or without
      AI 21 in front; 8 digits or more without AI 01 are a GTIN, cut to 14; nothing else has a GTIN or a serial. */
  lemma ParseCases(code: string)
    ensures Parse(code).raw == Strip(code)
    ensures forall gtin, serial | HasGtin(Strip(code), gtin, "21" + serial) ::
              Parse(code).gtin == gtin && Parse(code).serial == serial
    ensures forall gtin, tail | HasGtin(Strip(code), gtin, tail) && !("21" <= tail) ::
              Parse(code).gtin == gtin && Parse(code).serial == tail
    ensures (forall gtin, tail :: !HasGtin(Strip(code), gtin, tail)) ==>
              && Parse(code).serial == ""
              && Parse(code).gtin == if |Strip(code)| < 8 || !AllDigits(Strip(code)) then ""
                                     else if |Strip(code)| < 14 then Strip(code)
                                     else Strip(code)[..14]
  {
    var raw := Strip(code);
    forall gtin, serial | HasGtin(raw, gtin, "21" + serial)
      ensures Parse(code) == Parsed(raw, gtin, serial)
    {
      GtinAt(raw, gtin, "21" + serial);
      assert ("21" + serial)[2..] == serial;
    }
    forall gtin, tail | HasGtin(raw, gtin, tail) && !("21" <= tail)
      ensures Parse(code) == Parsed(raw, gtin, tail)
    {
      GtinAt(raw, gtin, tail);
    }
    if "01" <= raw && |raw| >= 16 && AllDigits(raw[2..16]) {
      GtinFound(raw);
    }
  }

  // ----- GTIN candidates -----

  function Digits(s: string): (r: string)
    ensures forall k | 0 <= k < |r| :: IsDigit(r[k])
    ensures |r| <= |s|
  {
    if s == "" then ""
    else if IsDigit(s[0]) then [s[0]] + Digits(s[1..])
    else Digits(s[1..])
  }

  lemma {:induction false} DigitsOfDigits(s: string)
    requires forall k | 0 <= k < |s| :: IsDigit(s[k])
    ensures Digits(s) == s
  {
    if s != "" {
      DigitsOfDigits(s[1..]);
    }
  }

  /** lstrip('0') */
  function Significant(s: string): string {
    if s != "" && s[0] == '0' then Significant(s[1..]) else s
  }

  lemma {:induction false} DigitsConcat(a: string, b: string)
    ensures Digits(a + b) == Digits(a) + Digits(b)
  {
    if a == "" {
      assert a + b == b;
    } else {
      assert (a + b)[1..] == a[1..] + b;
      DigitsConcat(a[1..], b);
    }
  }

  /** Character by character: digits stay, in order, and nothing else does. */
  lemma {:induction false} DigitsSnoc(s: string, c: char)
    ensures Digits(s + [c]) == Digits(s) + if '0' <= c <= '9' then [c] else []
  {
    DigitsConcat(s, [c]);
    assert [c][1..] == "";
  }

  /** The significant part is what follows the leading zeros. */
  lemma {:induction false} SignificantCuts(s: string)
    ensures |Significant(s)| <= |s| && Significant(s) == s[|s| - |Significant(s)|..]
    ensures forall k | 0 <= k < |s| - |Significant(s)| :: s[k] == '0'
    ensures Significant(s) != "" ==> Significant(s)[0] != '0'
  {
    if s != "" && s[0] == '0' {
      SignificantCuts(s[1..]);
      var cut := |s| - |Significant(s)|;
      assert s[1..][cut - 1..] == s[cut..];
    }
  }

  /** normalized_gtin_candidates of a digit string */
  function Candidates(digits: string): set<string> {
    if digits == "" then {}
    else
      var stripped := Significant(digits);
      {digits}
      + (if stripped == "" then {} else if |stripped| == 13 then {stripped, "0" + stripped} else {stripped})
      + (if |digits| == 13 then {"0" + digits} else {})
  }

  method NormalizedCandidates(value: string) returns (candidates: set<string>)
    ensures candidates == Candidates(Digits(value))
  {
    var digits := Digits(value);
    if digits == "" {
      return {};
    }
    candidates := {digits};
    var stripped := Significant(digits);
    if stripped != "" {
      candidates := candidates + {stripped};
      if |stripped| == 13 {
        candidates := candidates + {"0" + stripped};
      }
    }
    if |digits| == 13 {
      candidates := candidates + {"0" + digits};
    }
  }

  /** The code itself, its significant digits, and either of the two with a zero in front if that makes 14 digits. */
  lemma {:induction false} CandidatesAre(digits: string, c: string)
    ensures c in Candidates(digits) <==>
              && digits != "" && c != ""
              && (|| c == digits || c == Significant(digits)
                  || (|c| == 14 && c[0] == '0' && (c[1..] == digits || c[1..] == Significant(digits))))
  {
    if |c| == 14 && c[0] == '0' {
      assert c == "0" + c[1..];
    }
  }

  ghost predicate Matches(a: string, b: string) {
    exists c :: c in Candidates(a) && c in Candidates(b)
  }

  /** The number a GTIN stands for, kept as text; all-zero strings are told apart by length, except 13 and 14. */
  function Canonical(digits: string): string {
    if Significant(digits) != "" then Significant(digits)
    else if |digits| == 13 then "0" + digits
    else digits
  }

  lemma {:induction false} SignificantZero(s: string)
    ensures Significant("0" + s) == Significant(s)
  {
    assert ("0" + s)[1..] == s;
  }

  lemma {:induction false} SignificantTwice(s: string)
    ensures Significant(Significant(s)) == Significant(s)
  {
    if s != "" && s[0] == '0' {
      SignificantTwice(s[1..]);
    }
  }

  /** Every candidate has the significant digits of its GTIN. */
  lemma {:induction false} CandidatesSignificant(digits: string)
    ensures forall c | c in Candidates(digits) :: Significant(c) == Significant(digits)
  {
    SignificantTwice(digits);
    SignificantZero(digits);
    SignificantZero(Significant(digits));
  }

  lemma {:induction false} AllZeros(a: string, b: string)
    requires Significant(a) == "" && Significant(b) == "" && |a| == |b|
    ensures a == b
  {
    if a != "" {
      AllZeros(a[1..], b[1..]);
      assert a == [a[0]] + a[1..] && b == [b[0]] + b[1..];
    }
  }

  /** Two GTINs share a candidate exactly when they are canonically the same. */
  lemma MatchesIff(a: string, b: string)
    requires a != "" && b != ""
    ensures Matches(a, b) <==> Canonical(a) == Canonical(b)
  {
    CandidatesSignificant(a);
    CandidatesSignificant(b);
    if Significant(a) != "" && Significant(a) == Significant(b) {
      assert Significant(a) in Candidates(a) && Significant(a) in Candidates(b);
    } else if Significant(a) == "" && Significant(b) == "" {
      ZerosMatchIff(a, b);
    } else {
      CanonicalSignificant(a);
      CanonicalSignificant(b);
    }
  }

  lemma {:induction false} CanonicalSignificant(a: string)
    ensures Significant(Canonical(a)) == Significant(a)
  {
    SignificantTwice(a);
    SignificantZero(a);
  }

  lemma {:induction false} ZerosMatchIff(a: string, b: string)
    requires a != "" && b != "" && Significant(a) == "" && Significant(b) == ""
    ensures Matches(a, b) <==> Canonical(a) == Canonical(b)
  {
    SignificantZero(a);
    SignificantZero(b);
    assert Canonical(a) in Candidates(a) && Canonical(b) in Candidates(b);
    if Matches(a, b) {
      var c :| c in Candidates(a) && c in Candidates(b);
      CanonicalSignificant(a);
      CanonicalSignificant(b);
      assert |Canonical(a)| == |Canonical(b)|;
      AllZeros(Canonical(a), Canonical(b));
    }
  }

  /** On GTINs that are not all zeros, matching is equality up to leading zeros ... */
  lemma {:induction false} MatchingIgnoresLeadingZeros(a: string, b: string)
    requires Significant(a) != "" && Significant(b) != ""
    ensures Matches(a, b) <==> Significant(a) == Significant(b)
  {
    MatchesIff(a, b);
  }

  /** ... and on all non-empty GTINs it is an equivalence. */
  lemma MatchingIsEquivalence(a: string, b: string, c: string)
    requires a != "" && b != "" && c != ""
    ensures Matches(a, a)
    ensures Matches(a, b) ==> Matches(b, a)
    ensures Matches(a, b) && Matches(b, c) ==> Matches(a, c)
  {
    MatchesIff(a, a);
    MatchesIff(a, b);
    MatchesIff(b, a);
    MatchesIff(b, c);
    MatchesIff(a, c);
  }

  // ----- Catalogue lookup -----

  /** A catalogue item; payload holds the values of its GTIN and barcode keys, in the order they are tried. */
  datatype CatalogItem = CatalogItem(active: bool, markingGtin: string, payload: seq<string>)

  function Cut(s: string): string {
    if |s| <= 32 then s else s[..32]
  }

  function PayloadGtin(values: seq<string>): string {
    if values == [] then ""
    else if Digits(values[0]) != "" then Cut(Digits(values[0]))
    else PayloadGtin(values[1..])
  }

  /** item_marking_gtin */
  function ItemGtin(item: CatalogItem): string {
    var explicit := Digits(item.markingGtin);
    if explicit != "" then Cut(explicit) else PayloadGtin(item.payload)
  }

  /** The first of the values that has digits. */
  ghost predicate FirstWithDigits(values: seq<string>, i: nat) {
    && i <= |values| && (forall k | 0 <= k < i :: Digits(values[k]) == "")
    && (i < |values| ==> Digits(values[i]) != "")
  }

  lemma {:induction false} PayloadGtinMeans(values: seq<string>) returns (i: nat)
    ensures FirstWithDigits(values, i)
    ensures i < |values| ==> PayloadGtin(values) <= Digits(values[i])
    ensures i < |values| ==> |PayloadGtin(values)| == if |Digits(values[i])| > 32 then 32 else |Digits(values[i])|
    ensures i == |values| ==> PayloadGtin(values) == ""
  {
    i := 0;
    if values != [] && Digits(values[0]) == "" {
      var rest := PayloadGtinMeans(values[1..]);
      i := rest + 1;
    }
  }

  /** An item's GTIN is its own one, or else that of the first of its payload's values that has digits: the digits, up
      to 32 of them. */
  lemma ItemGtinMeans(item: CatalogItem) returns (i: nat)
    ensures var values := [item.markingGtin] + item.payload;
            && FirstWithDigits(values, i)
            && (i == |values| ==> ItemGtin(item) == "")
            && (i < |values| ==>
                  && ItemGtin(item) <= Digits(values[i])
                  && |ItemGtin(item)| == if |Digits(values[i])| > 32 then 32 else |Digits(values[i])|)
  {
    i := 0;
    if Digits(item.markingGtin) == "" {
      var rest := PayloadGtinMeans(item.payload);
      i := rest + 1;
    }
  }

  datatype Lookup = Found(at: nat) | EmptyCode | NoGtin | NoItem

  predicate SameGtin(item: CatalogItem, gtin: string) {
    ItemGtin(item) != "" && Canonical(ItemGtin(item)) == Canonical(gtin)
  }

  lemma ParsedGtin(code: string)
    ensures |Parse(code).gtin| <= 14 && forall k | 0 <= k < |Parse(code).gtin| :: IsDigit(Parse(code).gtin[k])
    ensures Digits(Parse(code).gtin) == Parse(code).gtin
    ensures Parse(code).raw == "" ==> Parse(code).gtin == ""
  {
    DigitsOfDigits(Parse(code).gtin);
  }

  lemma SharedCandidate(item: CatalogItem, gtin: string)
    requires gtin != ""
    ensures Candidates(ItemGtin(item)) * Candidates(gtin) != {} <==> SameGtin(item, gtin)
  {
    if ItemGtin(item) != "" {
      MatchesIff(ItemGtin(item), gtin);
      if Matches(ItemGtin(item), gtin) {
        var c :| c in Candidates(ItemGtin(item)) && c in Candidates(gtin);
        assert c in Candidates(ItemGtin(item)) * Candidates(gtin);
      } else {
        var both := Candidates(ItemGtin(item)) * Candidates(gtin);
        assert forall c | c in both :: c in Candidates(ItemGtin(item)) && c in Candidates(gtin);
      }
    }
  }

  /** A stored GTIN found through the index is the item's own GTIN. */
  lemma IndexHitMatches(item: CatalogItem, gtin: string)
    requires gtin != "" && |gtin| <= 14 && (forall k | 0 <= k < |gtin| :: IsDigit(gtin[k]))
    requires item.markingGtin in Candidates(gtin)
    ensures SameGtin(item, gtin)
  {
    var stored := item.markingGtin;
    SignificantDigits(gtin);
    DigitsOfDigits(stored);
    assert ItemGtin(item) == stored;
    assert stored in Candidates(stored);
    assert stored in Candidates(ItemGtin(item)) * Candidates(gtin);
    SharedCandidate(item, gtin);
  }

  lemma {:induction false} SignificantDigits(s: string)
    requires forall k | 0 <= k < |s| :: IsDigit(s[k])
    ensures |Significant(s)| <= |s| && forall k | 0 <= k < |Significant(s)| :: IsDigit(Significant(s)[k])
  {
    if s != "" && s[0] == '0' {
      SignificantDigits(s[1..]);
    }
  }

  /** Active, and found by the scanned GTIN through the index of stored ones. */
  predicate IndexHit(item: CatalogItem, gtin: string) {
    item.active && item.markingGtin in Candidates(gtin)
  }

  predicate ScannedDigits(gtin: string) {
    gtin != "" && |gtin| <= 14 && forall k | 0 <= k < |gtin| :: IsDigit(gtin[k])
  }

  /** The body of the scan over the catalogue. */
  method SharesCandidate(item: CatalogItem, gtin: string, candidates: set<string>) returns (shared: bool)
    requires ScannedDigits(gtin) && candidates == Candidates(gtin)
    ensures shared == SameGtin(item, gtin)
  {
    SharedCandidate(item, gtin);
    var own := NormalizedCandidates(ItemGtin(item));
    ItemGtinDigits(item);
    shared := own * candidates != {};
  }

  /** The two searches: by index, then over the catalogue. */
  method FindByGtin(catalog: seq<CatalogItem>, gtin: string, candidates: set<string>) returns (found: Lookup)
    requires ScannedDigits(gtin) && candidates == Candidates(gtin)
    ensures found.Found? || found == NoItem
    ensures found.Found? ==>
              found.at < |catalog| && catalog[found.at].active && SameGtin(catalog[found.at], gtin)
    ensures found == NoItem <==> forall i | 0 <= i < |catalog| && catalog[i].active :: !SameGtin(catalog[i], gtin)
    ensures found.Found? && (exists i | 0 <= i < |catalog| :: IndexHit(catalog[i], gtin)) ==>
              IndexHit(catalog[found.at], gtin)
  {
    for i := 0 to |catalog|
      invariant forall k | 0 <= k < i :: !IndexHit(catalog[k], gtin)
    {
      if catalog[i].active && catalog[i].markingGtin in candidates {
        IndexHitMatches(catalog[i], gtin);
        return Found(i);
      }
    }
    for i := 0 to |catalog|
      invariant forall k | 0 <= k < i && catalog[k].active :: !SameGtin(catalog[k], gtin)
    {
      if catalog[i].active {
        var shared := SharesCandidate(catalog[i], gtin, candidates);
        if shared {
          return Found(i);
        }
      }
    }
    found := NoItem;
  }

  /** The catalogue item of a scanned code: an index hit if there is one, else the first item found by a scan.
      It has the code's GTIN, and the search fails exactly when no active item has it. */
  method FindCatalogItem(catalog: seq<CatalogItem>, code: string) returns (found: Lookup)
    ensures found == EmptyCode <==> Parse(code).raw == ""
    ensures found == NoGtin <==> Parse(code).raw != "" && Parse(code).gtin == ""
    ensures found.Found? ==>
              found.at < |catalog| && catalog[found.at].active && SameGtin(catalog[found.at], Parse(code).gtin)
    ensures found == NoItem <==>
              Parse(code).gtin != "" && forall i | 0 <= i < |catalog| && catalog[i].active ::
                  !SameGtin(catalog[i], Parse(code).gtin)
    ensures found.Found? && (exists i | 0 <= i < |catalog| :: IndexHit(catalog[i], Parse(code).gtin)) ==>
              IndexHit(catalog[found.at], Parse(code).gtin)
  {
    var parsed := Parse(code);
    ParsedGtin(code);
    if parsed.raw == "" {
      return EmptyCode;
    }
    var candidates := NormalizedCandidates(parsed.gtin);
    if candidates == {} {
      assert parsed.gtin == "" || parsed.gtin in Candidates(parsed.gtin);
      return NoGtin;
    }
    found := FindByGtin(catalog, parsed.gtin, candidates);
  }

  lemma ItemGtinDigits(item: CatalogItem)
    ensures Digits(ItemGtin(item)) == ItemGtin(item)
  {
    PayloadGtinDigits(item.payload);
    DigitsOfDigits(ItemGtin(item));
  }

  lemma {:induction false} PayloadGtinDigits(values: seq<string>)
    ensures forall k | 0 <= k < |PayloadGtin(values)| :: IsDigit(PayloadGtin(values)[k])
  {
    if values != [] {
      PayloadGtinDigits(values[1..]);
    }
  }
}
