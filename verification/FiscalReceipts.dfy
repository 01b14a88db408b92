/** Cutting a paid order into fiscal receipts (apps/integrations/services/unikassa.py). */
module FiscalReceipts {
  import opened Arithmetic
  import CashSale
  import MarkingCodes

  datatype Method = Cash | Card | Qr | Mixed
  datatype PayType = PayCash | PayCard

  /** The split_reason stored with a receipt; Absent when the stored result carries none. */
  datatype Reason = Absent | Named(name: string)

  const WHOLE: Reason := Named("none")
  const CASH_ALLOWED: Reason := Named("mixed_cash_allowed_items")
  const CASH_FORBIDDEN: Reason := Named("cash_forbidden_category")

  const MAX_LABELS: nat := 300

  datatype Item = Item(
    id: nat, cancelled: bool, quantity: nat, unitPrice: nat, lineTotal: nat, codes: seq<string>,
    itemPayload: CashSale.Json, categoryPayload: CashSale.Json)
  {
    predicate Forbidden() { CashSale.CashForbidden(itemPayload, categoryPayload) }

    /** OrderItem.save */
    predicate Priced() { lineTotal == quantity * unitPrice }
  }

  /** The order as the fiscal service sees it; vat is the percentage in hundredths, 0 when VAT is off. */
  datatype Sale = Sale(items: seq<Item>, subtotal: nat, total: nat, vat: nat)

  datatype Part = Part(items: seq<Item>, fee: nat, payType: PayType, reason: Reason)

  datatype Line = Line(amount: nat, price: nat, vat: nat, labels: seq<string>)

  predicate IsActive(item: Item) { !item.cancelled }

  predicate IsForbidden(item: Item) { item.Forbidden() }

  predicate IsAllowed(item: Item) { !item.Forbidden() }

  function LineTotalOf(item: Item): int { item.lineTotal }

  function FeeOf(part: Part): int { part.fee }

  function PriceOf(line: Line): int { line.price }

  function VatOf(line: Line): int { line.vat }

  function Zero(item: Item): int { 0 }

  function Active(sale: Sale): seq<Item> {
    Filter(sale.items, IsActive)
  }

  function Restricted(sale: Sale): seq<Item> {
    Filter(Active(sale), IsForbidden)
  }

  function Normal(sale: Sale): seq<Item> {
    Filter(Active(sale), IsAllowed)
  }

  function LineTotals(items: seq<Item>): int {
    SumBy(items, LineTotalOf)
  }

  function ServiceFee(sale: Sale): nat {
    Max(sale.total - sale.subtotal, 0)
  }

  lemma FeeShareBound(fee: nat, normal: nat, restricted: nat)
    requires normal + restricted > 0
    ensures fee * normal >= 0 && HalfUp(fee * normal, normal + restricted) <= fee
  {
    NonNegativeProduct(fee, normal);
    NonNegativeProduct(fee, restricted);
    assert (normal + restricted) * fee == fee * normal + fee * restricted;
    HalfUpAtMost(fee * normal, normal + restricted, fee);
  }

  /** The fee shares of the cash-allowed and the cash-forbidden part. */
  function SplitFee(sale: Sale): (shares: (nat, nat))
    ensures shares.0 + shares.1 == ServiceFee(sale)
  {
    var fee := ServiceFee(sale);
    SumByNonNegative(Normal(sale), LineTotalOf);
    SumByNonNegative(Restricted(sale), LineTotalOf);
    var normal, restricted := LineTotals(Normal(sale)), LineTotals(Restricted(sale));
    if fee <= 0 then (0, 0)
    else if normal + restricted <= 0 then (fee, 0)
    else
      FeeShareBound(fee, normal, restricted);
      var share := HalfUp(fee * normal, normal + restricted);
      (share, fee - share)
  }

  /** The receipts to register; [] stands for the "no active items" error. */
  function BuildParts(sale: Sale, paidBy: Method): seq<Part>
  {
    var active, normal, restricted := Active(sale), Normal(sale), Restricted(sale);
    if active == [] then []
    else if paidBy != Cash then [Part(active, ServiceFee(sale), PayCard, WHOLE)]
    else if restricted == [] then [Part(normal, ServiceFee(sale), PayCash, WHOLE)]
    else if normal == [] then [Part(restricted, ServiceFee(sale), PayCard, CASH_FORBIDDEN)]
    else
      var shares := SplitFee(sale);
      [Part(normal, shares.0, PayCash, CASH_ALLOWED), Part(restricted, shares.1, PayCard, CASH_FORBIDDEN)]
  }

  /** What the retry logic needs of a split: every part can be told apart by its reason. */
  ghost predicate WellSplit(parts: seq<Part>) {
    && (forall i | 0 <= i < |parts| :: parts[i].reason != Absent)
    && (forall i, j | 0 <= i < j < |parts| :: parts[i].reason != parts[j].reason)
  }

  lemma PartsAreToldApart(sale: Sale, paidBy: Method)
    ensures WellSplit(BuildParts(sale, paidBy))
    ensures BuildParts(sale, paidBy) == [] <==> Active(sale) == []
  {
  }

  /** A receipt for all items is told apart as "none", the two receipts of a cash payment by what they hold; an order of
      cash-forbidden items alone, paid in cash, has the forbidden kind. Only allowed items paid in cash go to the cash
      column. */
  lemma PartsAreNamed(sale: Sale, paidBy: Method, k: nat)
    requires k < |BuildParts(sale, paidBy)|
    ensures var part, parts := BuildParts(sale, paidBy)[k], BuildParts(sale, paidBy);
            var forbidden := exists i | 0 <= i < |part.items| :: part.items[i].Forbidden();
            && |parts| <= 2 && (|parts| == 2 ==> paidBy == Cash)
            && (part.reason == Named("cash_forbidden_category") <==> paidBy == Cash && forbidden)
            && (part.reason == Named("mixed_cash_allowed_items") <==> |parts| == 2 && !forbidden)
            && (part.reason == Named("none") <==> |parts| == 1 && (paidBy == Cash ==> !forbidden))
            && (part.payType == PayCash <==> paidBy == Cash && !forbidden)
  {
    var part := BuildParts(sale, paidBy)[k];
    assert part.items != [] && part.items[0] in part.items;
    if i :| 0 <= i < |part.items| && part.items[i].Forbidden() {
      assert part.items[i] in part.items;
    }
  }

  function PartItems(parts: seq<Part>): seq<Item> {
    if parts == [] then [] else parts[0].items + PartItems(parts[1..])
  }

  lemma SplitActive(sale: Sale, f: Item -> int)
    ensures multiset(Normal(sale)) + multiset(Restricted(sale)) == multiset(Active(sale))
    ensures SumBy(Normal(sale), f) + SumBy(Restricted(sale), f) == SumBy(Active(sale), f)
    ensures |Normal(sale)| + |Restricted(sale)| == |Active(sale)|
  {
    FilterPartition(Active(sale), IsAllowed, IsForbidden, f);
  }

  /** Every active item is in exactly one part, and no part is empty. */
  lemma PartsPartitionItems(sale: Sale, paidBy: Method)
    ensures multiset(PartItems(BuildParts(sale, paidBy))) == multiset(Active(sale))
    ensures forall part | part in BuildParts(sale, paidBy) :: part.items != []
  {
    var parts := BuildParts(sale, paidBy);
    SplitActive(sale, Zero);
    if |parts| == 1 {
      assert parts[1..] == [];
      assert PartItems(parts) == parts[0].items;
    } else if |parts| == 2 {
      assert parts[1..][1..] == [];
      assert PartItems(parts[1..]) == parts[1].items;
    }
  }

  /** A cash part holds no cash-forbidden item; of a cash payment, the card part holds nothing else. */
  lemma CashPartsAreAllowed(sale: Sale, paidBy: Method)
    ensures forall part | part in BuildParts(sale, paidBy) && part.payType == PayCash ::
              paidBy == Cash && forall i | i in part.items :: !i.Forbidden()
    ensures paidBy == Cash ==>
              forall part | part in BuildParts(sale, paidBy) && part.payType == PayCard ::
                forall i | i in part.items :: i.Forbidden()
  {
  }

  /** share is fee * portion / weight, rounded to the nearest unit, up on a tie. */
  ghost predicate ProportionalShare(share: int, fee: int, portion: int, weight: int) {
    -weight < 2 * (weight * share) - 2 * (fee * portion) <= weight
  }

  lemma SharesAreProportional(sale: Sale)
    ensures var fee, normal, restricted := ServiceFee(sale), LineTotals(Normal(sale)), LineTotals(Restricted(sale));
            if normal + restricted <= 0 then SplitFee(sale) == (fee, 0)
            else ProportionalShare(SplitFee(sale).0, fee, normal, normal + restricted)
  {
    SumByNonNegative(Normal(sale), LineTotalOf);
    SumByNonNegative(Restricted(sale), LineTotalOf);
    var fee, normal, restricted := ServiceFee(sale), LineTotals(Normal(sale)), LineTotals(Restricted(sale));
    if fee > 0 && normal + restricted > 0 {
      NonNegativeProduct(fee, normal);
      HalfUpNearest(fee * normal, normal + restricted);
    }
  }

  /** The fee shares add up to what the total has on top of the subtotal, and a split share is the proportional one to
      the nearest unit. */
  lemma FeeIsApportioned(sale: Sale, paidBy: Method)
    requires Active(sale) != []
    ensures var parts := BuildParts(sale, paidBy);
            var fee := if sale.total > sale.subtotal then sale.total - sale.subtotal else 0;
            && SumBy(parts, FeeOf) == fee
            && (|parts| == 2 ==>
                  var weight := LineTotals(Active(sale));
                  if weight <= 0 then parts[1].fee == 0
                  else ProportionalShare(parts[0].fee, fee, LineTotals(parts[0].items), weight))
  {
    var parts := BuildParts(sale, paidBy);
    if |parts| == 1 {
      assert parts == [parts[0]];
      SumByOne(parts[0], FeeOf);
    } else {
      assert parts == [parts[0], parts[1]];
      SumByTwo(parts[0], parts[1], FeeOf);
      SplitActive(sale, LineTotalOf);
      SharesAreProportional(sale);
    }
  }

  /** Distinct non-empty marking codes in first-seen order. */
  function DistinctCodes(codes: seq<string>): (r: seq<string>)
    ensures forall c | c in r :: c in codes && c != ""
    ensures forall c | c in codes && c != "" :: c in r
    ensures forall i, j | 0 <= i < j < |r| :: r[i] != r[j]
  {
    if codes == [] then []
    else
      var before := DistinctCodes(codes[..|codes| - 1]);
      var last := codes[|codes| - 1];
      assert codes == codes[..|codes| - 1] + [last];
      if last == "" || last in before then before else before + [last]
  }

  function Stripped(codes: seq<string>): (r: seq<string>)
    ensures |r| == |codes| && forall k | 0 <= k < |codes| :: r[k] == MarkingCodes.Strip(codes[k])
  {
    seq(|codes|, k requires 0 <= k < |codes| => MarkingCodes.Strip(codes[k]))
  }

  /** _extract_labels */
  function Labels(item: Item): seq<string> {
    var distinct := DistinctCodes(Stripped(item.codes));
    if |distinct| <= MAX_LABELS then distinct else distinct[..MAX_LABELS]
  }

  /** Labels are the item's marking codes, stripped, without blanks and repetitions, and no more than the cap. */
  lemma LabelsAreCodes(item: Item)
    ensures |Labels(item)| <= MAX_LABELS
    ensures forall i, j | 0 <= i < j < |Labels(item)| :: Labels(item)[i] != Labels(item)[j]
    ensures forall l | l in Labels(item) :: l != "" && l in Stripped(item.codes)
    ensures |Labels(item)| < MAX_LABELS ==> forall c | c in Stripped(item.codes) && c != "" :: c in Labels(item)
  {
    var distinct := DistinctCodes(Stripped(item.codes));
    assert forall l | l in Labels(item) :: l in distinct;
  }

  /** The label of a code seen first keeps its place, whatever follows: labels come in the order of their codes. */
  lemma {:induction false} LabelsInOrder(codes: seq<string>, n: nat)
    requires n <= |codes|
    ensures DistinctCodes(codes[..n]) <= DistinctCodes(codes)
  {
    if n < |codes| {
      LabelsInOrder(codes[..|codes| - 1], n);
      assert codes[..|codes| - 1][..n] == codes[..n];
    } else {
      assert codes[..n] == codes;
    }
  }

  /** Up to the cap there is a label for each code, and at the cap there are 300 of them. */
  lemma LabelsUpToCap(item: Item)
    ensures Labels(item) <= DistinctCodes(Stripped(item.codes))
    ensures |Labels(item)| == if |DistinctCodes(Stripped(item.codes))| > 300 then 300
                              else |DistinctCodes(Stripped(item.codes))|
  {
  }

  /** VAT included in a fiscal amount, rounded half up. */
  function IncludedVat(amount: nat, percent: nat): nat {
    if percent == 0 then 0 else
    assert amount * percent >= 0 by { NonNegativeProduct(amount, percent); }
    HalfUp(amount * percent, 10000 + percent)
  }

  function LabelPrice(item: Item): nat {
    HalfUp(item.lineTotal, Max(item.quantity, 1))
  }

  function ItemLines(item: Item, percent: nat): seq<Line> {
    var labels := Labels(item);
    if labels == [] then
      [Line(item.quantity * 1000, item.lineTotal * 100, IncludedVat(item.lineTotal * 100, percent), [])]
    else
      LabelLines(item, labels, percent)
  }

  function LabelLines(item: Item, labels: seq<string>, percent: nat): seq<Line> {
    if labels == [] then []
    else
      var price := LabelPrice(item) * 100;
      LabelLines(item, labels[..|labels| - 1], percent)
      + [Line(1000, price, IncludedVat(price, percent), [labels[|labels| - 1]])]
  }

  function ItemsLines(items: seq<Item>, percent: nat): seq<Line> {
    if items == [] then []
    else ItemsLines(items[..|items| - 1], percent) + ItemLines(items[|items| - 1], percent)
  }

  function PartLines(part: Part, percent: nat): seq<Line> {
    ItemsLines(part.items, percent)
    + if part.fee > 0 then [Line(1000, part.fee * 100, IncludedVat(part.fee * 100, percent), [])] else []
  }

  /** One line for each label of a marked item, one line in all for an unmarked one. */
  method AddItemLines(start: seq<Line>, item: Item, percent: nat) returns (lines: seq<Line>)
    ensures lines == start + ItemLines(item, percent)
  {
    var labels, unitPrice := Labels(item), LabelPrice(item);
    if labels == [] {
      return start
        + [Line(item.quantity * 1000, item.lineTotal * 100, IncludedVat(item.lineTotal * 100, percent), [])];
    }
    lines := start;
    for k := 0 to |labels|
      invariant lines == start + LabelLines(item, labels[..k], percent)
    {
      assert labels[..k + 1][..k] == labels[..k];
      lines := lines + [Line(1000, unitPrice * 100, IncludedVat(unitPrice * 100, percent), [labels[k]])];
    }
    assert labels[..|labels|] == labels;
  }

  /** The receipt body of one part, filled line by line. */
  method BuildSaleItems(part: Part, percent: nat) returns (lines: seq<Line>)
    ensures lines == PartLines(part, percent)
  {
    lines := [];
    for i := 0 to |part.items|
      invariant lines == ItemsLines(part.items[..i], percent)
    {
      lines := AddItemLines(lines, part.items[i], percent);
      assert part.items[..i + 1][..i] == part.items[..i];
    }
    assert part.items[..|part.items|] == part.items;
    if part.fee > 0 {
      lines := lines + [Line(1000, part.fee * 100, IncludedVat(part.fee * 100, percent), [])];
    }
  }

  function Prices(lines: seq<Line>): int {
    SumBy(lines, PriceOf)
  }

  function Vats(lines: seq<Line>): int {
    SumBy(lines, VatOf)
  }

  /** The money, in whole units, that the lines of one item add up to. */
  function Charged(item: Item): int {
    if Labels(item) == [] then item.lineTotal
    else |Labels(item)| * LabelPrice(item)
  }

  lemma {:induction false} LabelLinesTotal(item: Item, labels: seq<string>, percent: nat)
    ensures Prices(LabelLines(item, labels, percent)) == 100 * (|labels| * LabelPrice(item))
  {
    if labels != [] {
      var init := labels[..|labels| - 1];
      LabelLinesTotal(item, init, percent);
      SumBySnoc(LabelLines(item, init, percent),
        Line(1000, LabelPrice(item) * 100, IncludedVat(LabelPrice(item) * 100, percent), [labels[|labels| - 1]]),
        PriceOf);
      assert |labels| * LabelPrice(item) == |init| * LabelPrice(item) + LabelPrice(item);
    }
  }

  lemma ItemLinesTotal(item: Item, percent: nat)
    ensures Prices(ItemLines(item, percent)) == 100 * Charged(item)
  {
    if Labels(item) == [] {
      SumByOne(ItemLines(item, percent)[0], PriceOf);
    } else {
      LabelLinesTotal(item, Labels(item), percent);
    }
  }

  lemma {:induction false} ItemsLinesTotal(items: seq<Item>, percent: nat)
    ensures Prices(ItemsLines(items, percent)) == 100 * SumBy(items, Charged)
  {
    if items != [] {
      var init, last := items[..|items| - 1], items[|items| - 1];
      ItemsLinesTotal(init, percent);
      ItemLinesTotal(last, percent);
      SumByConcat(ItemsLines(init, percent), ItemLines(last, percent), PriceOf);
      assert items == init + [last];
      SumBySnoc(init, last, Charged);
    }
  }

  /** One receipt carries its items and its fee share, all of it in the column of its payment type. */
  lemma PartTotal(part: Part, percent: nat)
    ensures Prices(PartLines(part, percent)) == 100 * (SumBy(part.items, Charged) + part.fee)
  {
    ItemsLinesTotal(part.items, percent);
    if part.fee > 0 {
      SumBySnoc(ItemsLines(part.items, percent),
        Line(1000, part.fee * 100, IncludedVat(part.fee * 100, percent), []), PriceOf);
    } else {
      assert PartLines(part, percent) == ItemsLines(part.items, percent);
    }
  }

  function PartPrice(percent: nat): Part -> int {
    (p: Part) => Prices(PartLines(p, percent))
  }

  lemma PartsTotal(sale: Sale, paidBy: Method)
    requires Active(sale) != []
    ensures SumBy(BuildParts(sale, paidBy), PartPrice(sale.vat))
        == 100 * (SumBy(Active(sale), Charged) + ServiceFee(sale))
  {
    var parts := BuildParts(sale, paidBy);
    if |parts| == 1 {
      OnePartTakesAll(sale, paidBy);
      PartTotal(parts[0], sale.vat);
      assert parts == [parts[0]];
      SumByOne(parts[0], PartPrice(sale.vat));
    } else {
      SplitActive(sale, Charged);
      TwoPartsTotal(parts[0], parts[1], sale.vat);
      assert parts == [parts[0], parts[1]];
    }
  }

  lemma TwoPartsTotal(a: Part, b: Part, percent: nat)
    ensures SumBy([a, b], PartPrice(percent))
            == 100 * (SumBy(a.items, Charged) + SumBy(b.items, Charged) + (a.fee + b.fee))
  {
    PartTotal(a, percent);
    PartTotal(b, percent);
    SumByTwo(a, b, PartPrice(percent));
  }

  /** A single part holds every active item in order and the whole fee. */
  lemma OnePartTakesAll(sale: Sale, paidBy: Method)
    requires |BuildParts(sale, paidBy)| == 1
    ensures BuildParts(sale, paidBy)[0].items == Active(sale)
    ensures BuildParts(sale, paidBy)[0].fee == ServiceFee(sale)
  {
    FilterAll(Active(sale), IsAllowed);
    FilterAll(Active(sale), IsForbidden);
    SplitActive(sale, Zero);
  }

  /** Money one item's labels add to or take from its line total. */
  function Drift(item: Item): int {
    if Labels(item) == [] || item.quantity == 0 then 0
    else (|Labels(item)| - item.quantity) * item.unitPrice
  }

  lemma ChargedDrift(item: Item)
    requires item.Priced()
    ensures Charged(item) == item.lineTotal + Drift(item)
    ensures Drift(item) == 0 <==>
              Labels(item) == [] || |Labels(item)| == item.quantity || item.unitPrice == 0 || item.quantity == 0
  {
    if Labels(item) != [] {
      var n, q, price := |Labels(item)|, item.quantity, item.unitPrice;
      if q > 0 {
        HalfUpExact(price, q);
        Distribute(n, q, price);
      } else {
        HalfUpExact(0, 1);
      }
    }
  }

  lemma Distribute(n: int, q: int, price: int)
    ensures n * price == q * price + (n - q) * price
    ensures (n - q) * price == 0 <==> n == q || price == 0
  {
  }

  lemma {:induction false} ChargedTotal(items: seq<Item>)
    requires forall i | i in items :: i.Priced()
    ensures SumBy(items, Charged) == LineTotals(items) + SumBy(items, Drift)
  {
    if items != [] {
      ChargedDrift(items[0]);
      ChargedTotal(items[1..]);
    }
  }

  /** What recalculate_totals leaves behind. */
  ghost predicate TotalsConsistent(sale: Sale) {
    && (forall i | i in sale.items :: i.Priced())
    && sale.subtotal == LineTotals(Active(sale))
    && sale.total >= sale.subtotal
  }

  /** The receipts of an order add up to its total exactly when the label drift cancels out. */
  lemma MoneyConservedIff(sale: Sale, paidBy: Method)
    requires TotalsConsistent(sale) && Active(sale) != []
    ensures SumBy(BuildParts(sale, paidBy), PartPrice(sale.vat)) == 100 * (sale.total + SumBy(Active(sale), Drift))
    ensures SumBy(BuildParts(sale, paidBy), PartPrice(sale.vat)) == 100 * sale.total <==>
        SumBy(Active(sale), Drift) == 0
  {
    PartsTotal(sale, paidBy);
    ChargedTotal(Active(sale));
  }

  /** ... in particular when every labelled item has one label per piece. */
  lemma MoneyConserved(sale: Sale, paidBy: Method)
    requires TotalsConsistent(sale) && Active(sale) != []
    requires forall i | i in Active(sale) :: Labels(i) == [] || |Labels(i)| == i.quantity
    ensures SumBy(BuildParts(sale, paidBy), PartPrice(sale.vat)) == 100 * sale.total
  {
    NoDrift(Active(sale));
    MoneyConservedIff(sale, paidBy);
  }

  lemma {:induction false} NoDrift(items: seq<Item>)
    requires forall i | i in items :: i.Priced() && (Labels(i) == [] || |Labels(i)| == i.quantity)
    ensures SumBy(items, Drift) == 0
  {
    if items != [] {
      ChargedDrift(items[0]);
      NoDrift(items[1..]);
    }
  }

  /** One line's VAT is at most its amount and never falls when the amount grows. */
  lemma VatWithinAmount(amount: nat, more: nat, percent: nat)
    requires amount <= more
    ensures 0 <= IncludedVat(amount, percent) <= amount
    ensures IncludedVat(amount, percent) <= IncludedVat(more, percent)
  {
    NonNegativeProduct(amount, percent);
    NonNegativeProduct(more - amount, percent);
    assert more * percent == amount * percent + (more - amount) * percent;
    if percent > 0 {
      assert (10000 + percent) * amount == amount * percent + 10000 * amount;
      HalfUpAtMost(amount * percent, 10000 + percent, amount);
      HalfUpMonotone(amount * percent, more * percent, 10000 + percent);
    }
  }

  ghost predicate VatLine(line: Line, percent: nat) {
    line.vat == IncludedVat(line.price, percent)
  }

  /** One line's VAT is the nearest unit to the exact amount, the upper one on a tie. */
  lemma VatNearest(amount: nat, percent: nat)
    ensures var whole := 10000 + percent;
            -whole < 2 * (whole * IncludedVat(amount, percent)) - 2 * (amount * percent) <= whole
  {
    NonNegativeProduct(amount, percent);
    if percent > 0 {
      HalfUpNearest(amount * percent, 10000 + percent);
    }
  }

  /** Rounding line by line is off by at most half a unit a line from the exact VAT of the whole. */
  lemma {:induction false} VatRoundingBound(lines: seq<Line>, percent: nat)
    requires forall l | l in lines :: VatLine(l, percent)
    ensures var whole := 10000 + percent;
            -(|lines| * whole) <= 2 * (whole * Vats(lines)) - 2 * (Prices(lines) * percent) <= |lines| * whole
  {
    if lines != [] {
      VatRoundingBound(lines[1..], percent);
      VatNearest(lines[0].price, percent);
      assert VatLine(lines[0], percent);
      AddBound(10000 + percent, percent, lines[0].vat, lines[0].price,
        Vats(lines[1..]), Prices(lines[1..]), |lines| - 1);
    }
  }

  lemma AddBound(whole: int, percent: int, v: int, p: int, vs: int, ps: int, n: int)
    requires -whole <= 2 * (whole * v) - 2 * (p * percent) <= whole
    requires -(n * whole) <= 2 * (whole * vs) - 2 * (ps * percent) <= n * whole
    ensures -((n + 1) * whole) <= 2 * (whole * (v + vs)) - 2 * ((p + ps) * percent) <= (n + 1) * whole
  {
    assert whole * (v + vs) == whole * v + whole * vs;
    assert (p + ps) * percent == p * percent + ps * percent;
    assert (n + 1) * whole == n * whole + whole;
  }

  lemma {:induction false} LabelLinesAreVatLines(item: Item, labels: seq<string>, percent: nat)
    ensures forall l | l in LabelLines(item, labels, percent) :: VatLine(l, percent)
  {
    if labels != [] {
      LabelLinesAreVatLines(item, labels[..|labels| - 1], percent);
    }
  }

  lemma {:induction false} ItemsLinesAreVatLines(items: seq<Item>, percent: nat)
    ensures forall l | l in ItemsLines(items, percent) :: VatLine(l, percent)
  {
    if items != [] {
      ItemsLinesAreVatLines(items[..|items| - 1], percent);
      LabelLinesAreVatLines(items[|items| - 1], Labels(items[|items| - 1]), percent);
    }
  }

  /** CashShiftService._estimate_vat on whole units of money. */
  function EstimatedVat(amount: nat, percent: nat): nat {
    IncludedVat(amount, percent)
  }

  lemma EstimateNearest(amount: nat, percent: nat)
    ensures var whole := 10000 + percent;
            -whole < 2 * (whole * EstimatedVat(amount, percent)) - 2 * (amount * percent) <= whole
  {
    VatNearest(amount, percent);
  }

  /** The lines of all receipts. */
  function AllLines(parts: seq<Part>, percent: nat): seq<Line> {
    if parts == [] then [] else PartLines(parts[0], percent) + AllLines(parts[1..], percent)
  }

  lemma {:induction false} AllLinesAddUp(parts: seq<Part>, percent: nat)
    ensures Prices(AllLines(parts, percent)) == SumBy(parts, PartPrice(percent))
    ensures forall l | l in AllLines(parts, percent) :: VatLine(l, percent)
  {
    if parts != [] {
      AllLinesAddUp(parts[1..], percent);
      ItemsLinesAreVatLines(parts[0].items, percent);
      SumByConcat(PartLines(parts[0], percent), AllLines(parts[1..], percent), PriceOf);
    }
  }

  /** The report estimates the VAT once, on the whole amount; over all receipts behind that amount, however many, the
      estimate agrees with the VAT on their lines up to rounding. */
  lemma {:induction false} ReportVatMatchesReceipts(parts: seq<Part>, amount: nat, percent: nat)
    requires SumBy(parts, PartPrice(percent)) == 100 * amount
    ensures var lines := AllLines(parts, percent);
            -(100 + |lines|) <= 200 * EstimatedVat(amount, percent) - 2 * Vats(lines) <= 100 + |lines|
  {
    var lines := AllLines(parts, percent);
    AllLinesAddUp(parts, percent);
    VatRoundingBound(lines, percent);
    VatNearest(amount, percent);
    CompareBounds(10000 + percent, percent, EstimatedVat(amount, percent), amount, Vats(lines), |lines|);
  }

  lemma CompareBounds(whole: nat, percent: nat, e: int, amount: int, v: int, n: int)
    requires whole > 0
    requires 0 <= 2 * (whole * e) - 2 * (amount * percent) + whole <= 2 * whole
    requires -(n * whole) <= 2 * (whole * v) - 2 * ((100 * amount) * percent) <= n * whole
    ensures -(100 + n) <= 200 * e - 2 * v <= 100 + n
  {
    assert (100 * amount) * percent == 100 * (amount * percent);
    assert whole * (200 * e - 2 * v) == 100 * (2 * (whole * e)) - 2 * (whole * v);
    assert whole * (100 + n) == 100 * whole + n * whole;
    CancelFactor(whole, 200 * e - 2 * v, 100 + n);
  }
}
