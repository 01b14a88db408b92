/** From an order to its fiscal receipts: what the order's own invariant makes of them
    (apps/sales/models/order.py, apps/integrations/services/unikassa.py). */
module OrderSale {
  import opened Options
  import opened Arithmetic
  import CashSale
  import FiscalChanges
  import FiscalReceipts
  import Kitchen
  import MarkingCodes
  import MarkingScan
  import OrderItems
  import Orders

  /** The catalogue payloads of a product and of its category. */
  datatype Payloads = Payloads(item: CashSale.Json, category: CashSale.Json)

  function SaleItem(line: OrderItems.Item, id: nat, of: nat -> Payloads): FiscalReceipts.Item {
    var payloads := of(line.product.id);
    FiscalReceipts.Item(id, !line.IsActive(), line.quantity, line.unitPrice, line.lineTotal, line.markings,
      payloads.item, payloads.category)
  }

  function SaleItems(items: seq<OrderItems.Item>, of: nat -> Payloads): (r: seq<FiscalReceipts.Item>)
    ensures |r| == |items| && forall i | 0 <= i < |items| :: r[i] == SaleItem(items[i], i, of)
  {
    seq(|items|, i requires 0 <= i < |items| => SaleItem(items[i], i, of))
  }

  /** The order as the fiscal service reads it. */
  function SaleOf(st: Orders.OrderState, of: nat -> Payloads, vat: nat): FiscalReceipts.Sale {
    FiscalReceipts.Sale(SaleItems(st.board.items, of), st.subtotal, st.total, vat)
  }

  // ----- Totals -----

  function LiveLine(item: FiscalReceipts.Item): int { if item.cancelled then 0 else item.lineTotal }

  lemma {:induction false} ActiveTotals(items: seq<FiscalReceipts.Item>)
    ensures FiscalReceipts.LineTotals(Filter(items, FiscalReceipts.IsActive)) == SumBy(items, LiveLine)
  {
    if items != [] {
      ActiveTotals(items[1..]);
      var rest := Filter(items[1..], FiscalReceipts.IsActive);
      assert ([items[0]] + rest)[1..] == rest;
    }
  }

  /** An order that satisfies its invariant gives the fiscal service consistent totals and tells its items apart. */
  lemma OrderTotalsConsistent(st: Orders.OrderState, of: nat -> Payloads, vat: nat)
    requires Orders.Valid(st)
    ensures FiscalReceipts.TotalsConsistent(SaleOf(st, of, vat))
    ensures FiscalChanges.DistinctIds(SaleOf(st, of, vat))
  {
    var items := SaleItems(st.board.items, of);
    ActiveTotals(items);
    PairedSums(items, st.board.items, LiveLine, Orders.LiveTotal);
    forall item | item in items
      ensures item.Priced()
    {
      var i :| 0 <= i < |items| && items[i] == item;
    }
  }

  /** What a product's own payload says decides whether its line may be sold for cash, and only if it says nothing what
      its category's says. */
  lemma LineForbidden(line: OrderItems.Item, id: nat, of: nat -> Payloads)
    ensures SaleItem(line, id, of).Forbidden() ==
            var own := CashSale.FirstNonBlank(CashSale.Candidates(of(line.product.id).item));
            var general := CashSale.FirstNonBlank(CashSale.Candidates(of(line.product.id).category));
            CashSale.DenotesZero(if own != CashSale.Null then own else general)
  {
    CashSale.ItemPayloadDecides(of(line.product.id).item, of(line.product.id).category);
  }

  // ----- Labels -----

  /** Codes as the scanner stores them: stripped, not blank, no code twice on a line, none on an unmarked product. */
  ghost predicate CleanCodes(line: OrderItems.Item) {
    && (forall k | 0 <= k < |line.markings| :: line.markings[k] != ""
         && MarkingCodes.Strip(line.markings[k]) == line.markings[k])
    && (forall j, k | 0 <= j < k < |line.markings| :: line.markings[j] != line.markings[k])
    && (!line.product.marked ==> line.markings == [])
  }

  lemma {:induction false} DistinctCodesAll(codes: seq<string>)
    requires forall k | 0 <= k < |codes| :: codes[k] != ""
    requires forall j, k | 0 <= j < k < |codes| :: codes[j] != codes[k]
    ensures FiscalReceipts.DistinctCodes(codes) == codes
  {
    if codes != [] {
      var n := |codes| - 1;
      DistinctCodesAll(codes[..n]);
      assert forall k | 0 <= k < n :: codes[..n][k] != codes[n];
      assert codes == codes[..n] + [codes[n]];
    }
  }

  /** A line's receipt carries its codes as they were scanned, up to the cap. */
  lemma LabelsOfLine(line: OrderItems.Item, id: nat, of: nat -> Payloads)
    requires CleanCodes(line)
    ensures FiscalReceipts.Labels(SaleItem(line, id, of))
         == if |line.markings| <= 300 then line.markings else line.markings[..300]
  {
    assert FiscalReceipts.Stripped(line.markings) == line.markings;
    DistinctCodesAll(line.markings);
  }

  lemma LabelCount(line: OrderItems.Item, id: nat, of: nat -> Payloads)
    requires CleanCodes(line)
    ensures |FiscalReceipts.Labels(SaleItem(line, id, of))| == if |line.markings| <= 300 then |line.markings| else 300
  {
    LabelsOfLine(line, id, of);
  }

  /** Fully scanned, within its quantity, and within the cap on labels unless it costs nothing. */
  predicate FitsLabels(line: OrderItems.Item) {
    line.IsActive() && line.product.marked ==> line.quantity <= FiscalReceipts.MAX_LABELS || line.unitPrice == 0
  }

  lemma LineDrift(line: OrderItems.Item, id: nat, of: nat -> Payloads)
    requires CleanCodes(line) && line.Priced()
    requires if line.product.marked then |line.markings| == line.quantity else line.markings == []
    ensures FiscalReceipts.Drift(SaleItem(line, id, of)) <= 0
    ensures FiscalReceipts.Drift(SaleItem(line, id, of)) == 0 <==>
              !line.product.marked || line.quantity <= FiscalReceipts.MAX_LABELS || line.unitPrice == 0
  {
    LabelCount(line, id, of);
    FiscalReceipts.ChargedDrift(SaleItem(line, id, of));
    var labels: nat := |FiscalReceipts.Labels(SaleItem(line, id, of))|;
    NonPositiveProduct(line.quantity - labels, line.unitPrice);
    assert (labels - line.quantity) * line.unitPrice == -((line.quantity - labels) * line.unitPrice);
  }

  lemma NonPositiveProduct(a: nat, b: nat)
    ensures a * b >= 0
  {
  }

  lemma {:induction false} ZeroIffAllZero<T>(s: seq<T>, f: T -> int)
    requires forall i | 0 <= i < |s| :: f(s[i]) <= 0
    ensures SumBy(s, f) <= 0
    ensures SumBy(s, f) == 0 <==> forall i | 0 <= i < |s| :: f(s[i]) == 0
  {
    if s != [] {
      ZeroIffAllZero(s[1..], f);
      assert forall i | 0 <= i < |s[1..]| :: s[1..][i] == s[i + 1];
      assert forall i | 0 < i < |s| :: s[i] == s[1..][i - 1];
    }
  }

  function LiveDrift(item: FiscalReceipts.Item): int { if item.cancelled then 0 else FiscalReceipts.Drift(item) }

  lemma {:induction false} ActiveDrift(items: seq<FiscalReceipts.Item>)
    ensures SumBy(Filter(items, FiscalReceipts.IsActive), FiscalReceipts.Drift) == SumBy(items, LiveDrift)
  {
    if items != [] {
      ActiveDrift(items[1..]);
      var rest := Filter(items[1..], FiscalReceipts.IsActive);
      assert ([items[0]] + rest)[1..] == rest;
    }
  }

  /** Nothing missing, no surplus: the drift of an order's labels cancels out exactly when every line fits the cap. */
  lemma DriftIff(items: seq<OrderItems.Item>, of: nat -> Payloads)
    requires OrderItems.AllPriced(items) && OrderItems.WithinQuantity(items) && OrderItems.MissingCount(items) == 0
    requires forall i | 0 <= i < |items| :: CleanCodes(items[i])
    ensures SumBy(Filter(SaleItems(items, of), FiscalReceipts.IsActive), FiscalReceipts.Drift) == 0
            <==> forall i | 0 <= i < |items| :: FitsLabels(items[i])
  {
    var sold := SaleItems(items, of);
    OrderItems.NothingMissingIff(items);
    ActiveDrift(sold);
    forall i | 0 <= i < |items|
      ensures LiveDrift(sold[i]) <= 0 && (LiveDrift(sold[i]) == 0 <==> FitsLabels(items[i]))
    {
      LineDrift(items[i], i, of);
    }
    ZeroIffAllZero(sold, LiveDrift);
  }

  // ----- A charged order -----

  lemma MissingAgrees(a: seq<OrderItems.Item>, b: seq<OrderItems.Item>)
    requires |a| == |b|
    requires forall i | 0 <= i < |a| ::
               a[i].product == b[i].product && a[i].markings == b[i].markings && a[i].quantity == b[i].quantity
    ensures OrderItems.MissingCount(a) == OrderItems.MissingCount(b)
  {
    PairedSums(a, b, OrderItems.MissingOf, OrderItems.MissingOf);
  }

  /** A successful charge leaves no marked product unscanned. */
  lemma ChargedMissesNothing(
      st: Orders.OrderState, charge: Orders.Charge, restaurant: OrderItems.Restaurant, env: Orders.Env)
    requires Orders.Processed(st, charge, restaurant, env).1 == Orders.Done
    ensures OrderItems.MissingCount(Orders.Processed(st, charge, restaurant, env).0.board.items) == 0
  {
    var early := st.board.status == Kitchen.Open && !st.takeaway;
    var st' := if early then Orders.Submit(st, restaurant, env).0 else st;
    MissingAgrees(Kitchen.AssignStations(st'.board.items, restaurant), st'.board.items);
  }

  /** The receipts of an order that was just charged add up to exactly its total if and only if no marked line with a
      price has more pieces than a receipt takes labels. */
  lemma ChargedOrderExactIff(
      st: Orders.OrderState, charge: Orders.Charge, restaurant: OrderItems.Restaurant, env: Orders.Env,
      of: nat -> Payloads, vat: nat, paidBy: FiscalReceipts.Method)
    requires Orders.Valid(st) && Orders.Processed(st, charge, restaurant, env).1 == Orders.Done
    requires var items := Orders.Processed(st, charge, restaurant, env).0.board.items;
             && OrderItems.WithinQuantity(items) && (forall i | 0 <= i < |items| :: CleanCodes(items[i]))
             && Kitchen.AnyActive(items)
    ensures var after := Orders.Processed(st, charge, restaurant, env).0;
            var sale := SaleOf(after, of, vat);
            SumBy(FiscalReceipts.BuildParts(sale, paidBy), FiscalReceipts.PartPrice(vat)) == 100 * after.total
            <==> forall i | 0 <= i < |after.board.items| :: FitsLabels(after.board.items[i])
  {
    var after := Orders.Processed(st, charge, restaurant, env).0;
    Orders.ChargeSettles(st, charge, restaurant, env);
    ChargedMissesNothing(st, charge, restaurant, env);
    OrderTotalsConsistent(after, of, vat);
    DriftIff(after.board.items, of);
    SomeActive(after.board.items, of);
    FiscalReceipts.MoneyConservedIff(SaleOf(after, of, vat), paidBy);
  }

  lemma SomeActive(items: seq<OrderItems.Item>, of: nat -> Payloads)
    requires Kitchen.AnyActive(items)
    ensures Filter(SaleItems(items, of), FiscalReceipts.IsActive) != []
  {
    var i :| 0 <= i < |items| && items[i].IsActive();
    assert SaleItems(items, of)[i] in SaleItems(items, of);
    assert SaleItems(items, of)[i] in Filter(SaleItems(items, of), FiscalReceipts.IsActive);
  }

  // ----- Surplus codes -----

  /** A line of two fully scanned pieces loses one to a code that was never scanned: the receipt then carries both
      labels for one piece, and charges the price twice. */
  lemma SurplusOvercharges(product: OrderItems.Product, a: string, b: string, c: string, of: nat -> Payloads)
    requires product.marked && product.price > 0 && a != b && c != a && c != b
    requires CleanCodes(OrderItems.Item(product, None, 2, product.price, 2 * product.price, OrderItems.ItemNew, [a, b]))
    ensures var line := OrderItems.Item(product, None, 2, product.price, 2 * product.price, OrderItems.ItemNew, [a, b]);
            var after := MarkingScan.ScanOut([line], product, c);
            && after.Some? && |after.value| == 1
            && OrderItems.MissingCount(after.value) == 0
            && FiscalReceipts.Charged(SaleItem(after.value[0], 0, of)) == 2 * after.value[0].lineTotal
            && after.value[0].lineTotal == product.price
  {
    var line := OrderItems.Item(product, None, 2, product.price, 2 * product.price, OrderItems.ItemNew, [a, b]);
    assert [line][1..] == [];
    assert MarkingScan.FindCode([line], product.id, c).None?;
    assert MarkingScan.FindYoungest([line], product.id) == Some(0);
    var less := MarkingScan.OnePieceLess(line);
    assert [line][0 := less] == [less];
    SumByOne(less, OrderItems.MissingOf);
    LabelCount(less, 0, of);
    HalfUpExact(product.price, 1);
  }
}
