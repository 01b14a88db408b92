/** What stands on a receipt, line by line (apps/integrations/services/unikassa.py). */
module ReceiptLines {
  import opened Arithmetic
  import opened FiscalReceipts

  function LineCount(item: Item): int {
    if Labels(item) == [] then 1 else |Labels(item)|
  }

  /** An unlabelled item has one line for all its pieces; a labelled one has a line of one piece for each label, at the
      rounded price of a piece. Amounts are in thousandths, prices in hundredths. */
  ghost predicate Describes(lines: seq<Line>, item: Item, percent: nat) {
    && |lines| == LineCount(item)
    && (forall k | 0 <= k < |lines| :: VatLine(lines[k], percent))
    && if Labels(item) == [] then
         lines[0].labels == [] && lines[0].amount == 1000 * item.quantity && lines[0].price == 100 * item.lineTotal
       else
         forall k | 0 <= k < |lines| ::
           && lines[k].labels == [Labels(item)[k]] && lines[k].amount == 1000
           && lines[k].price == 100 * HalfUp(item.lineTotal, Max(item.quantity, 1))
  }

  lemma {:induction false} LabelLinesAt(item: Item, labels: seq<string>, percent: nat)
    ensures var lines := LabelLines(item, labels, percent);
            && |lines| == |labels|
            && forall k | 0 <= k < |lines| ::
                 && lines[k].labels == [labels[k]] && lines[k].amount == 1000 && VatLine(lines[k], percent)
                 && lines[k].price == 100 * HalfUp(item.lineTotal, Max(item.quantity, 1))
  {
    if labels != [] {
      LabelLinesAt(item, labels[..|labels| - 1], percent);
    }
  }

  lemma ItemDescribed(item: Item, percent: nat)
    ensures Describes(ItemLines(item, percent), item, percent)
  {
    LabelLinesAt(item, Labels(item), percent);
  }

  /** Where the lines of item i start. */
  function Start(items: seq<Item>, i: nat): int
    requires i <= |items|
  {
    SumBy(items[..i], LineCount)
  }

  ghost predicate InPlace(lines: seq<Line>, items: seq<Item>, i: nat, percent: nat)
    requires i < |items|
  {
    && 0 <= Start(items, i) <= Start(items, i) + LineCount(items[i]) <= |lines|
    && Describes(lines[Start(items, i)..Start(items, i) + LineCount(items[i])], items[i], percent)
  }

  lemma InPlacePrefix(lines: seq<Line>, more: seq<Line>, items: seq<Item>, n: nat, i: nat, percent: nat)
    requires i < n <= |items| && InPlace(lines, items[..n], i, percent)
    ensures InPlace(lines + more, items, i, percent)
  {
    assert items[..n][..i] == items[..i] && items[..n][i] == items[i];
    SlicePrefix(lines, more, Start(items, i), Start(items, i) + LineCount(items[i]));
  }

  lemma SlicePrefix<T>(s: seq<T>, more: seq<T>, from: int, to: int)
    requires 0 <= from <= to <= |s|
    ensures (s + more)[from..to] == s[from..to]
  {
  }

  /** The last item comes last. */
  lemma {:induction false} ItemsLinesLast(items: seq<Item>, percent: nat) returns (last: seq<Line>)
    requires items != []
    ensures var n := |items| - 1;
            && ItemsLines(items, percent) == ItemsLines(items[..n], percent) + last
            && |last| == LineCount(items[n]) && Describes(last, items[n], percent)
  {
    last := ItemLines(items[|items| - 1], percent);
    ItemDescribed(items[|items| - 1], percent);
  }

  lemma {:induction false} LastTerm(items: seq<Item>, f: Item -> int)
    requires items != []
    ensures SumBy(items, f) == SumBy(items[..|items| - 1], f) + f(items[|items| - 1])
  {
    assert items[..|items| - 1 + 1] == items;
    SumByTake(items, |items| - 1, f);
  }

  lemma {:induction false} ItemsLinesCount(items: seq<Item>, percent: nat)
    ensures |ItemsLines(items, percent)| == SumBy(items, LineCount)
  {
    if items != [] {
      var last := ItemsLinesLast(items, percent);
      ItemsLinesCount(items[..|items| - 1], percent);
      LastTerm(items, LineCount);
    }
  }

  lemma SliceTail<T>(before: seq<T>, last: seq<T>, from: int, to: int)
    requires from == |before| && to == |before| + |last|
    ensures (before + last)[from..to] == last
  {
  }

  lemma LastInPlace(before: seq<Line>, last: seq<Line>, items: seq<Item>, percent: nat)
    requires items != [] && |before| == Start(items, |items| - 1)
    requires |last| == LineCount(items[|items| - 1]) && Describes(last, items[|items| - 1], percent)
    ensures InPlace(before + last, items, |items| - 1, percent)
  {
    var from, to := Start(items, |items| - 1), Start(items, |items| - 1) + LineCount(items[|items| - 1]);
    SliceTail(before, last, from, to);
    assert (before + last)[from..to] == last;
  }

  lemma {:induction false} ItemsLinesAt(items: seq<Item>, i: nat, percent: nat)
    requires i < |items|
    ensures InPlace(ItemsLines(items, percent), items, i, percent)
  {
    var n := |items| - 1;
    var before := ItemsLines(items[..n], percent);
    var last := ItemsLinesLast(items, percent);
    if i < n {
      ItemsLinesAt(items[..n], i, percent);
      InPlacePrefix(before, last, items, n, i, percent);
    } else {
      ItemsLinesCount(items[..n], percent);
      LastInPlace(before, last, items, percent);
    }
  }

  /** A receipt describes the items of its part, one after the other, and then its fee share, if there is one. */
  lemma {:induction false} PartDescribed(part: Part, percent: nat)
    ensures var lines := PartLines(part, percent);
            && |lines| == SumBy(part.items, LineCount) + (if part.fee > 0 then 1 else 0)
            && (forall i: nat | i < |part.items| :: InPlace(lines, part.items, i, percent))
            && (part.fee > 0 ==>
                  var last := lines[|lines| - 1];
                  last.labels == [] && last.amount == 1000 && last.price == 100 * part.fee && VatLine(last, percent))
  {
    ItemsLinesCount(part.items, percent);
    var items := ItemsLines(part.items, percent);
    var fee := if part.fee > 0 then [Line(1000, part.fee * 100, IncludedVat(part.fee * 100, percent), [])] else [];
    forall i: nat | i < |part.items|
      ensures InPlace(items + fee, part.items, i, percent)
    {
      assert part.items[..|part.items|] == part.items;
      ItemsLinesAt(part.items, i, percent);
      InPlacePrefix(items, fee, part.items, |part.items|, i, percent);
    }
  }

  // ----- Marking codes on receipts -----

  /** Every label on the lines, with multiplicity. */
  function LabelsOn(lines: seq<Line>): multiset<string> {
    if lines == [] then multiset{} else multiset(lines[0].labels) + LabelsOn(lines[1..])
  }

  function LabelsOf(items: seq<Item>): multiset<string> {
    if items == [] then multiset{} else LabelsOf(items[..|items| - 1]) + multiset(Labels(items[|items| - 1]))
  }

  lemma {:induction false} LabelsOnConcat(a: seq<Line>, b: seq<Line>)
    ensures LabelsOn(a + b) == LabelsOn(a) + LabelsOn(b)
  {
    if a == [] {
      assert a + b == b;
    } else {
      assert (a + b)[1..] == a[1..] + b;
      LabelsOnConcat(a[1..], b);
    }
  }

  lemma LabelsOnOne(line: Line)
    ensures LabelsOn([line]) == multiset(line.labels)
  {
    assert [line][1..] == [];
  }

  lemma {:induction false} LabelLinesCarry(item: Item, labels: seq<string>, percent: nat)
    ensures LabelsOn(LabelLines(item, labels, percent)) == multiset(labels)
  {
    if labels != [] {
      var n := |labels| - 1;
      LabelLinesCarry(item, labels[..n], percent);
      LabelLinesAt(item, labels, percent);
      var line := LabelLines(item, labels, percent)[n];
      LabelsOnOne(line);
      LabelsOnConcat(LabelLines(item, labels[..n], percent), [line]);
      assert labels == labels[..n] + [labels[n]];
      assert LabelLines(item, labels, percent) == LabelLines(item, labels[..n], percent) + [line];
    }
  }

  lemma ItemLinesCarry(item: Item, percent: nat)
    ensures LabelsOn(ItemLines(item, percent)) == multiset(Labels(item))
  {
    if Labels(item) == [] {
      LabelsOnOne(ItemLines(item, percent)[0]);
    } else {
      LabelLinesCarry(item, Labels(item), percent);
    }
  }

  lemma {:induction false} ItemsLinesCarry(items: seq<Item>, percent: nat)
    ensures LabelsOn(ItemsLines(items, percent)) == LabelsOf(items)
  {
    if items != [] {
      var n := |items| - 1;
      ItemsLinesCarry(items[..n], percent);
      ItemLinesCarry(items[n], percent);
      LabelsOnConcat(ItemsLines(items[..n], percent), ItemLines(items[n], percent));
    }
  }

  /** The labels on a receipt are those of its part's items, each on a line of its own. */
  lemma PartCarriesLabels(part: Part, percent: nat)
    ensures LabelsOn(PartLines(part, percent)) == LabelsOf(part.items)
    ensures forall k | 0 <= k < |PartLines(part, percent)| :: |PartLines(part, percent)[k].labels| <= 1
  {
    ItemsLinesCarry(part.items, percent);
    SingleLabels(part.items, percent);
    if part.fee > 0 {
      AddsNoLabel(ItemsLines(part.items, percent),
        Line(1000, part.fee * 100, IncludedVat(part.fee * 100, percent), []));
    } else {
      assert PartLines(part, percent) == ItemsLines(part.items, percent);
    }
  }

  lemma {:induction false} AddsNoLabel(lines: seq<Line>, fee: Line)
    requires fee.labels == []
    ensures LabelsOn(lines + [fee]) == LabelsOn(lines)
  {
    LabelsOnOne(fee);
    LabelsOnConcat(lines, [fee]);
  }

  lemma {:induction false} SingleLabels(items: seq<Item>, percent: nat)
    ensures forall k | 0 <= k < |ItemsLines(items, percent)| :: |ItemsLines(items, percent)[k].labels| <= 1
  {
    if items != [] {
      var n := |items| - 1;
      SingleLabels(items[..n], percent);
      ItemDescribed(items[n], percent);
    }
  }

  function HasLabel(code: string): Item -> int {
    (item: Item) => if code in Labels(item) then 1 else 0
  }

  lemma {:induction false} DistinctCount(codes: seq<string>, code: string)
    requires forall i, j | 0 <= i < j < |codes| :: codes[i] != codes[j]
    ensures multiset(codes)[code] == if code in codes then 1 else 0
  {
    if codes != [] {
      DistinctCount(codes[1..], code);
      assert codes == [codes[0]] + codes[1..];
      assert codes[0] !in codes[1..];
    }
  }

  lemma {:induction false} LabelsCounted(items: seq<Item>, code: string)
    ensures LabelsOf(items)[code] == SumBy(items, HasLabel(code))
  {
    if items != [] {
      var n := |items| - 1;
      LabelsCounted(items[..n], code);
      LabelsAreCodes(items[n]);
      DistinctCount(Labels(items[n]), code);
      LastTerm(items, HasLabel(code));
    }
  }

  /** Over all receipts of an order every marking code stands once for each active item that carries it. */
  lemma {:induction false} OrderCarriesLabels(sale: Sale, paidBy: Method, percent: nat, code: string)
    ensures LabelsOn(AllLines(BuildParts(sale, paidBy), percent))[code] == SumBy(Active(sale), HasLabel(code))
  {
    var parts := BuildParts(sale, paidBy);
    SplitActive(sale, HasLabel(code));
    if |parts| == 1 {
      OnePartTakesAll(sale, paidBy);
      assert parts == [parts[0]];
      OnePartCounted(parts[0], percent, code);
    } else if |parts| == 2 {
      assert parts == [parts[0], parts[1]];
      TwoPartsCounted(parts[0], parts[1], percent, code);
    }
  }

  lemma {:induction false} OnePartCounted(part: Part, percent: nat, code: string)
    ensures LabelsOn(AllLines([part], percent))[code] == SumBy(part.items, HasLabel(code))
  {
    assert [part][1..] == [];
    PartCounted(part, [], percent, code);
  }

  lemma {:induction false} TwoPartsCounted(a: Part, b: Part, percent: nat, code: string)
    ensures LabelsOn(AllLines([a, b], percent))[code]
         == SumBy(a.items, HasLabel(code)) + SumBy(b.items, HasLabel(code))
  {
    assert [a, b][1..] == [b];
    OnePartCounted(b, percent, code);
    PartCounted(a, AllLines([b], percent), percent, code);
  }

  lemma {:induction false} PartCounted(part: Part, rest: seq<Line>, percent: nat, code: string)
    ensures LabelsOn(PartLines(part, percent) + rest)[code] == SumBy(part.items, HasLabel(code)) + LabelsOn(rest)[code]
  {
    LabelsOnConcat(PartLines(part, percent), rest);
    PartCarriesLabels(part, percent);
    LabelsCounted(part.items, code);
  }
}
