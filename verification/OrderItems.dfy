/** Order lines and their marking codes (apps/sales/models, apps/sales/services/marking.py). */
module OrderItems {
  import opened Options
  import opened Arithmetic

  datatype ItemStatus = ItemNew | ItemCooking | ItemDone | ItemServed | ItemCancelled

  datatype Product = Product(
    id: nat, price: nat, marked: bool, categoryStation: Option<nat>, ownStation: Option<nat>)

  datatype Item = Item(
    product: Product, station: Option<nat>, quantity: nat, unitPrice: nat, lineTotal: nat,
    status: ItemStatus, markings: seq<string>)
  {
    predicate IsActive() { status != ItemCancelled }

    /** OrderItem.save */
    predicate Priced() { lineTotal == quantity * unitPrice }

    function Missing(): nat {
      if product.marked && |markings| < quantity then quantity - |markings| else 0
    }
  }

  /** Restaurant configuration: active stations by name, stations with a printer, fee in hundredths of a percent. */
  datatype Restaurant = Restaurant(stations: seq<nat>, printers: set<nat>, feePercent: nat)

  /** resolve_order_item_prep_station */
  function ResolveStation(product: Product, restaurant: Restaurant): Option<nat> {
    if product.categoryStation.Some? then product.categoryStation
    else if product.ownStation.Some? then product.ownStation
    else if |restaurant.stations| == 1 then Some(restaurant.stations[0])
    else None
  }

  function MissingOf(item: Item): int { item.Missing() }

  /** marking_status: every line counts, cancelled ones too. */
  function MissingCount(items: seq<Item>): nat {
    SumByNonNegative(items, MissingOf);
    SumBy(items, MissingOf)
  }

  /** The accumulation of missing_total in marking_status. */
  method MissingTotal(items: seq<Item>) returns (total: nat)
    ensures total == MissingCount(items)
  {
    total := 0;
    for i := 0 to |items|
      invariant total == MissingCount(items[..i])
    {
      SumByTake(items, i, MissingOf);
      var required := if items[i].product.marked then items[i].quantity else 0;
      var scanned := if required > 0 then |items[i].markings| else 0;
      total := total + Max(required - scanned, 0);
    }
    assert items[..|items|] == items;
  }

  ghost predicate AllPriced(items: seq<Item>) {
    forall i | 0 <= i < |items| :: items[i].Priced()
  }

  ghost predicate WithinQuantity(items: seq<Item>) {
    forall i | 0 <= i < |items| :: |items[i].markings| <= items[i].quantity
  }

  /** Nothing missing means a code for each piece of every marked product, and conversely. */
  lemma {:induction false} NothingMissingIff(items: seq<Item>)
    ensures MissingCount(items) == 0 <==>
              forall i | 0 <= i < |items| && items[i].product.marked :: |items[i].markings| >= items[i].quantity
  {
    if items != [] {
      var rest := items[1..];
      NothingMissingIff(rest);
      SumByNonNegative(rest, MissingOf);
      assert forall i | 1 <= i < |items| :: items[i] == rest[i - 1];
      assert items[0].Missing() == 0 <==> !items[0].product.marked || |items[0].markings| >= items[0].quantity;
      if forall i | 0 <= i < |items| && items[i].product.marked :: |items[i].markings| >= items[i].quantity {
        assert forall i | 0 <= i < |rest| :: rest[i] == items[i + 1];
      }
    }
  }
}

/** Scanning marked products into and out of an order (OrderMarkingScanService). */
module MarkingScan {
  import opened Options
  import opened Arithmetic
  import opened OrderItems

  datatype Mode = Add | Attach | Remove | OtherMode

  /** _find_missing_order_item: the oldest line of the product that still lacks a code, cancelled lines included. */
  function FindMissing(items: seq<Item>, product: nat): (at: Option<nat>)
    ensures at.Some? ==> at.value < |items| && items[at.value].product.id == product
                         && |items[at.value].markings| < items[at.value].quantity
    ensures forall i | 0 <= i < (if at.Some? then at.value else |items|) ::
              items[i].product.id == product ==> |items[i].markings| >= items[i].quantity
  {
    if items == [] then None
    else if items[0].product.id == product && |items[0].markings| < items[0].quantity then Some(0)
    else match FindMissing(items[1..], product)
      case None => None
      case Some(i) => Some(i + 1)
  }

  function FindCode(items: seq<Item>, product: nat, code: string): (at: Option<nat>)
    ensures at.Some? ==> at.value < |items| && items[at.value].product.id == product && code in items[at.value].markings
    ensures forall i | 0 <= i < (if at.Some? then at.value else |items|) ::
              items[i].product.id == product ==> code !in items[i].markings
  {
    if items == [] then None
    else if items[0].product.id == product && code in items[0].markings then Some(0)
    else match FindCode(items[1..], product, code)
      case None => None
      case Some(i) => Some(i + 1)
  }

  /** The youngest line of the product that is not cancelled. */
  function FindYoungest(items: seq<Item>, product: nat): (at: Option<nat>)
    ensures at.Some? ==> at.value < |items| && items[at.value].product.id == product && items[at.value].IsActive()
    ensures forall i | (if at.Some? then at.value + 1 else 0) <= i < |items| ::
              items[i].product.id == product ==> !items[i].IsActive()
  {
    if items == [] then None
    else
      var last := |items| - 1;
      if items[last].product.id == product && items[last].IsActive() then Some(last)
      else FindYoungest(items[..last], product)
  }

  function NewLine(product: Product, restaurant: Restaurant): Item {
    Item(product, ResolveStation(product, restaurant), 1, product.price, product.price, ItemNew, [])
  }

  /** The add and attach branches; the caller has checked that the code is new to the restaurant. */
  function ScanIn(
      items: seq<Item>, product: Product, code: string, mode: Mode, restaurant: Restaurant): Option<seq<Item>>
  {
    var found := if mode == Add || mode == Attach then FindMissing(items, product.id) else None;
    match found
    case None =>
      if mode == Attach then None
      else
        var line := NewLine(product, restaurant);
        Some(items + [if product.marked then line.(markings := [code]) else line])
    case Some(i) =>
      if product.marked then Some(items[i := items[i].(markings := items[i].markings + [code])]) else Some(items)
  }

  function WithoutCode(codes: seq<string>, code: string): (r: seq<string>)
    ensures code in codes ==> |r| == |codes| - 1 && multiset(r) == multiset(codes) - multiset{code}
  {
    if codes == [] then []
    else if codes[0] == code then
      assert codes == [codes[0]] + codes[1..];
      codes[1..]
    else
      assert codes == [codes[0]] + codes[1..];
      [codes[0]] + WithoutCode(codes[1..], code)
  }

  /** One code goes, and the others stay as they are. */
  lemma {:induction false} WithoutCodeAt(codes: seq<string>, code: string) returns (k: nat)
    requires code in codes
    ensures k < |codes| && codes[k] == code && WithoutCode(codes, code) == codes[..k] + codes[k + 1..]
  {
    k := 0;
    if codes[0] != code {
      var rest := WithoutCodeAt(codes[1..], code);
      k := rest + 1;
    }
  }

  /** One piece less of line i; the line goes when it held a single piece. */
  function TakePiece(items: seq<Item>, i: nat): seq<Item>
    requires i < |items|
  {
    if items[i].quantity > 1 then items[i := OnePieceLess(items[i])] else items[..i] + items[i + 1..]
  }

  function OnePieceLess(item: Item): (less: Item)
    requires item.quantity > 1
    ensures less.markings == item.markings && less.quantity == item.quantity - 1 && less.product == item.product
  {
    item.(quantity := item.quantity - 1, lineTotal := (item.quantity - 1) * item.unitPrice)
  }

  /** _remove_matching_order_item */
  function ScanOut(items: seq<Item>, product: Product, code: string): Option<seq<Item>> {
    match FindCode(items, product.id, code)
    case Some(i) =>
      Some(TakePiece(items[i := items[i].(markings := WithoutCode(items[i].markings, code))], i))
    case None =>
      match FindYoungest(items, product.id)
      case Some(i) => Some(TakePiece(items, i))
      case None => None
  }

  /** One scan of an order's lines; taken holds the codes of the restaurant's other orders. */
  function Scan(
      items: seq<Item>, product: Product, code: string, mode: Mode, restaurant: Restaurant, taken: multiset<string>)
    : Option<seq<Item>>
  {
    if mode == Remove then ScanOut(items, product, code)
    else if code in taken || code in Codes(items) then None
    else ScanIn(items, product, code, mode, restaurant)
  }

  /** Every code held by the lines, with multiplicity. */
  function Codes(items: seq<Item>): multiset<string> {
    if items == [] then multiset{} else multiset(items[0].markings) + Codes(items[1..])
  }

  lemma {:induction false} CodesConcat(a: seq<Item>, b: seq<Item>)
    ensures Codes(a + b) == Codes(a) + Codes(b)
  {
    if a == [] {
      assert a + b == b;
    } else {
      assert (a + b)[1..] == a[1..] + b;
      CodesConcat(a[1..], b);
    }
  }

  lemma {:induction false} CodesCons(item: Item, rest: seq<Item>)
    ensures Codes([item] + rest) == multiset(item.markings) + Codes(rest)
  {
  }

  lemma SplitAround<T>(s: seq<T>, i: nat)
    requires i < |s|
    ensures s == s[..i] + ([s[i]] + s[i + 1..])
  {
  }

  lemma Regroup(a: multiset<string>, b: multiset<string>, c: multiset<string>)
    ensures a + (b + c) == a + b + c
  {
  }

  /** Taking line i out of the account. */
  lemma {:induction false} CodesAround(items: seq<Item>, i: nat)
    requires i < |items|
    ensures Codes(items) == Codes(items[..i]) + multiset(items[i].markings) + Codes(items[i + 1..])
  {
    var before, item, after := items[..i], items[i], items[i + 1..];
    SplitAround(items, i);
    CodesConcat(before, [item] + after);
    CodesCons(item, after);
    Regroup(Codes(before), multiset(item.markings), Codes(after));
  }

  lemma CodesUpdate(items: seq<Item>, i: nat, item: Item)
    requires i < |items|
    ensures Codes(items[i := item]) == Codes(items[..i]) + multiset(item.markings) + Codes(items[i + 1..])
  {
    var after := items[i := item];
    CodesAround(after, i);
    assert after[..i] == items[..i] && after[i + 1..] == items[i + 1..];
  }

  /** A scan in adds the code once if the product is marked, and nothing otherwise. */
  lemma {:induction false} ScanInCodes(
      items: seq<Item>, product: Product, code: string, mode: Mode, restaurant: Restaurant)
    requires ScanIn(items, product, code, mode, restaurant).Some?
    ensures Codes(ScanIn(items, product, code, mode, restaurant).value)
            == Codes(items) + if product.marked then multiset{code} else multiset{}
  {
    var found := if mode == Add || mode == Attach then FindMissing(items, product.id) else None;
    match found
    case None =>
      var line := NewLine(product, restaurant);
      var added := if product.marked then line.(markings := [code]) else line;
      CodesConcat(items, [added]);
      assert [added][1..] == [];
    case Some(i) =>
      if product.marked {
        var more := items[i].(markings := items[i].markings + [code]);
        CodesAround(items, i);
        CodesUpdate(items, i, more);
      }
  }

  lemma {:induction false} TakePieceCodes(items: seq<Item>, i: nat)
    requires i < |items|
    ensures Codes(TakePiece(items, i)) <= Codes(items)
    ensures items[i].quantity > 1 || items[i].markings == [] ==> Codes(TakePiece(items, i)) == Codes(items)
  {
    CodesAround(items, i);
    if items[i].quantity > 1 {
      CodesUpdate(items, i, OnePieceLess(items[i]));
    } else {
      CodesConcat(items[..i], items[i + 1..]);
    }
  }

  /** Scanning a stored code out removes that code and no other, as long as lines hold no surplus codes. */
  lemma {:induction false} ScanOutCodes(items: seq<Item>, product: Product, code: string)
    requires FindCode(items, product.id, code).Some? && WithinQuantity(items)
    ensures ScanOut(items, product, code).Some?
    ensures Codes(ScanOut(items, product, code).value) == Codes(items) - multiset{code}
  {
    var i := FindCode(items, product.id, code).value;
    var less := items[i].(markings := WithoutCode(items[i].markings, code));
    CodeTaken(items, i, code);
    assert |less.markings| == |items[i].markings| - 1;
    if items[i].quantity <= 1 {
      assert less.markings == [];
    }
    TakePieceCodes(items[i := less], i);
  }

  /** Unlinking a code from line i takes that code, once, out of the account. */
  lemma CodeTaken(items: seq<Item>, i: nat, code: string)
    requires i < |items| && code in items[i].markings
    ensures Codes(items[i := items[i].(markings := WithoutCode(items[i].markings, code))])
        == Codes(items) - multiset{code}
  {
    var kept := WithoutCode(items[i].markings, code);
    CodesAround(items, i);
    CodesUpdate(items, i, items[i].(markings := kept));
    TakeFromMiddle(Codes(items[..i]), multiset(items[i].markings), Codes(items[i + 1..]), code);
  }

  lemma TakeFromMiddle(a: multiset<string>, b: multiset<string>, c: multiset<string>, code: string)
    requires code in b
    ensures a + (b - multiset{code}) + c == a + b + c - multiset{code}
  {
  }

  /** No line ends up with more codes than pieces: true of every scan in and of scanning out a stored code. */
  lemma {:induction false} ScanKeepsWithinQuantity(
      items: seq<Item>, product: Product, code: string, mode: Mode, restaurant: Restaurant, taken: multiset<string>)
    requires WithinQuantity(items) && Scan(items, product, code, mode, restaurant, taken).Some?
    requires mode == Remove ==> FindCode(items, product.id, code).Some?
    ensures WithinQuantity(Scan(items, product, code, mode, restaurant, taken).value)
  {
  }

  /** Removing by a code that was never scanned leaves surplus codes exactly when the line it picks was fully scanned
      and keeps at least one piece. */
  lemma {:induction false} RemoveUnscannedIff(items: seq<Item>, product: Product, code: string)
    requires WithinQuantity(items) && FindCode(items, product.id, code).None? && FindYoungest(items, product.id).Some?
    ensures ScanOut(items, product, code).Some?
    ensures var i := FindYoungest(items, product.id).value;
            !WithinQuantity(ScanOut(items, product, code).value) <==>
              items[i].quantity > 1 && |items[i].markings| == items[i].quantity
  {
    var i := FindYoungest(items, product.id).value;
    var after := TakePiece(items, i);
    if items[i].quantity > 1 {
      assert after[i].quantity == items[i].quantity - 1 && |after[i].markings| == |items[i].markings|;
    }
  }

  lemma ScanKeepsPriced(
      items: seq<Item>, product: Product, code: string, mode: Mode, restaurant: Restaurant, taken: multiset<string>)
    requires AllPriced(items) && Scan(items, product, code, mode, restaurant, taken).Some?
    ensures AllPriced(Scan(items, product, code, mode, restaurant, taken).value)
  {
    if mode == Remove {
      ScanOutKeepsPriced(items, product, code);
    }
  }

  lemma ScanOutKeepsPriced(items: seq<Item>, product: Product, code: string)
    requires AllPriced(items) && ScanOut(items, product, code).Some?
    ensures AllPriced(ScanOut(items, product, code).value)
  {
    match FindCode(items, product.id, code)
    case Some(i) => TakePieceKeepsPriced(items[i := items[i].(markings := WithoutCode(items[i].markings, code))], i);
    case None => TakePieceKeepsPriced(items, FindYoungest(items, product.id).value);
  }

  lemma TakePieceKeepsPriced(items: seq<Item>, i: nat)
    requires AllPriced(items) && i < |items|
    ensures AllPriced(TakePiece(items, i))
  {
  }

  /** A scan in lowers the missing count by one if it completes an existing line, and never raises it. */
  lemma {:induction false} ScanInMissing(
      items: seq<Item>, product: Product, code: string, mode: Mode, restaurant: Restaurant)
    requires ScanIn(items, product, code, mode, restaurant).Some?
    requires forall i | 0 <= i < |items| :: items[i].product.id == product.id ==> items[i].product == product
    ensures var after := MissingCount(ScanIn(items, product, code, mode, restaurant).value);
            after == MissingCount(items)
                     - if (mode == Add || mode == Attach) && product.marked
                         && FindMissing(items, product.id).Some? then 1 else 0
  {
    var found := if mode == Add || mode == Attach then FindMissing(items, product.id) else None;
    match found
    case None =>
      var line := NewLine(product, restaurant);
      SumBySnoc(items, if product.marked then line.(markings := [code]) else line, MissingOf);
    case Some(i) =>
      if product.marked {
        SumByUpdate(items, i, items[i].(markings := items[i].markings + [code]), MissingOf);
      }
  }

  // ----- Runs over a whole restaurant -----

  datatype Step = Step(order: nat, product: Product, code: string, mode: Mode)

  /** The codes of all orders but one. */
  function OtherCodes(orders: map<nat, seq<Item>>, order: nat): multiset<string> {
    AllCodes(orders - {order})
  }

  function AllCodes(orders: map<nat, seq<Item>>): multiset<string>
    decreases |orders|
  {
    if orders == map[] then multiset{}
    else
      var least := Least(orders.Keys);
      Codes(orders[least]) + AllCodes(orders - {least})
  }

  function Least(keys: set<nat>): (k: nat)
    requires keys != {}
    ensures k in keys && forall x | x in keys :: k <= x
  {
    var start :| start in keys;
    LeastExists(keys, start);
    var k :| k in keys && forall x | x in keys :: k <= x;
    k
  }

  lemma {:induction false} LeastExists(keys: set<nat>, start: nat)
    requires start in keys
    ensures exists k :: k in keys && forall x | x in keys :: k <= x
    decreases start
  {
    if x :| x in keys && x < start {
      LeastExists(keys, x);
    }
  }

  /** The account of all codes splits at any order. */
  lemma {:induction false} AllCodesAt(orders: map<nat, seq<Item>>, order: nat)
    requires order in orders
    ensures AllCodes(orders) == Codes(orders[order]) + OtherCodes(orders, order)
    decreases |orders|
  {
    var least := Least(orders.Keys);
    if least != order {
      AllCodesAt(orders - {least}, order);
      assert orders - {least} - {order} == orders - {order} - {least};
      var others := orders - {order};
      assert least in others && Least(others.Keys) == least;
    }
  }

  ghost predicate Unique(codes: multiset<string>) {
    forall c | c in codes :: codes[c] <= 1
  }

  ghost predicate NoSurplus(orders: map<nat, seq<Item>>) {
    forall o | o in orders :: WithinQuantity(orders[o])
  }

  /** The step removes by a code that was never scanned, and the line it picks was fully scanned and keeps a piece. */
  predicate LeavesSurplus(orders: map<nat, seq<Item>>, step: Step) {
    && step.order in orders && step.mode == Remove
    && var items, product := orders[step.order], step.product.id;
       && FindCode(items, product, step.code).None? && FindYoungest(items, product).Some?
       && var line := items[FindYoungest(items, product).value];
          line.quantity > 1 && |line.markings| == line.quantity
  }

  function Apply(orders: map<nat, seq<Item>>, step: Step, restaurant: Restaurant): map<nat, seq<Item>> {
    if step.order !in orders then orders
    else match Scan(orders[step.order], step.product, step.code, step.mode, restaurant, OtherCodes(orders, step.order))
      case None => orders
      case Some(items) => orders[step.order := items]
  }

  /** Scanning out never adds a code, surplus or not. */
  lemma {:induction false} ScanOutShrinks(items: seq<Item>, product: Product, code: string)
    requires ScanOut(items, product, code).Some?
    ensures Codes(ScanOut(items, product, code).value) <= Codes(items)
  {
    match FindCode(items, product.id, code)
    case Some(i) =>
      var less := items[i].(markings := WithoutCode(items[i].markings, code));
      CodeTaken(items, i, code);
      TakePieceCodes(items[i := less], i);
    case None => TakePieceCodes(items, FindYoungest(items, product.id).value);
  }

  /** What one accepted scan does to the codes of its own order. */
  lemma {:induction false} ScanCodes(
      items: seq<Item>, product: Product, code: string, mode: Mode, restaurant: Restaurant, taken: multiset<string>)
    requires Scan(items, product, code, mode, restaurant, taken).Some?
    ensures var after := Codes(Scan(items, product, code, mode, restaurant, taken).value);
            || after <= Codes(items)
            || (after == Codes(items) + multiset{code} && code !in taken && code !in Codes(items))
  {
    if mode == Remove {
      ScanOutShrinks(items, product, code);
    } else {
      ScanInCodes(items, product, code, mode, restaurant);
    }
  }

  lemma UniqueAfter(own: multiset<string>, others: multiset<string>, after: multiset<string>, code: string)
    requires Unique(own + others)
    requires after <= own || (after == own + multiset{code} && code !in others && code !in own)
    ensures Unique(after + others)
  {
    forall c | c in after + others
      ensures (after + others)[c] <= 1
    {
      if after <= own {
        assert after[c] <= own[c];
      }
      assert (own + others)[c] == own[c] + others[c];
    }
  }

  /** Every scan, also a removal by an unscanned code, keeps codes unique in the restaurant. */
  lemma {:induction false} ApplyUnique(orders: map<nat, seq<Item>>, step: Step, restaurant: Restaurant)
    requires Unique(AllCodes(orders))
    ensures Unique(AllCodes(Apply(orders, step, restaurant)))
  {
    if step.order in orders {
      var items, others := orders[step.order], OtherCodes(orders, step.order);
      var scanned := Scan(items, step.product, step.code, step.mode, restaurant, others);
      if scanned.Some? {
        ScanCodes(items, step.product, step.code, step.mode, restaurant, others);
        ReplaceOrder(orders, step.order, scanned.value);
        UniqueAfter(Codes(items), others, Codes(scanned.value), step.code);
      }
    }
  }

  lemma {:induction false} ScanWithinIff(orders: map<nat, seq<Item>>, step: Step, restaurant: Restaurant)
    requires step.order in orders && WithinQuantity(orders[step.order])
    ensures var scanned := Scan(orders[step.order], step.product, step.code, step.mode, restaurant,
                                OtherCodes(orders, step.order));
            if scanned.Some? then WithinQuantity(scanned.value) <==> !LeavesSurplus(orders, step)
            else !LeavesSurplus(orders, step)
  {
    var items, others := orders[step.order], OtherCodes(orders, step.order);
    var scanned := Scan(items, step.product, step.code, step.mode, restaurant, others);
    if step.mode == Remove && FindCode(items, step.product.id, step.code).None? {
      if FindYoungest(items, step.product.id).Some? {
        RemoveUnscannedIff(items, step.product, step.code);
      }
    } else if scanned.Some? {
      ScanKeepsWithinQuantity(items, step.product, step.code, step.mode, restaurant, others);
    }
  }

  lemma ApplyWithinIff(orders: map<nat, seq<Item>>, step: Step, restaurant: Restaurant)
    requires NoSurplus(orders)
    ensures NoSurplus(Apply(orders, step, restaurant)) <==> !LeavesSurplus(orders, step)
  {
    if step.order in orders {
      ScanWithinIff(orders, step, restaurant);
      var others := OtherCodes(orders, step.order);
      var scanned := Scan(orders[step.order], step.product, step.code, step.mode, restaurant, others);
      if scanned.Some? {
        var after := orders[step.order := scanned.value];
        assert Apply(orders, step, restaurant) == after && after[step.order] == scanned.value;
        assert forall o | o in orders && o != step.order :: after[o] == orders[o];
      }
    }
  }

  lemma {:induction false} ReplaceOrder(orders: map<nat, seq<Item>>, order: nat, items: seq<Item>)
    requires order in orders
    ensures AllCodes(orders) == Codes(orders[order]) + OtherCodes(orders, order)
    ensures AllCodes(orders[order := items]) == Codes(items) + OtherCodes(orders, order)
  {
    AllCodesAt(orders, order);
    AllCodesAt(orders[order := items], order);
    assert orders[order := items] - {order} == orders - {order};
  }

  function Run(orders: map<nat, seq<Item>>, steps: seq<Step>, restaurant: Restaurant): map<nat, seq<Item>>
    decreases |steps|
  {
    if steps == [] then orders else Run(Apply(orders, steps[0], restaurant), steps[1..], restaurant)
  }

  /** Over every run of scans, codes stay unique in the restaurant. */
  lemma {:induction false} RunUnique(orders: map<nat, seq<Item>>, steps: seq<Step>, restaurant: Restaurant)
    requires Unique(AllCodes(orders))
    ensures Unique(AllCodes(Run(orders, steps, restaurant)))
    decreases |steps|
  {
    if steps != [] {
      ApplyUnique(orders, steps[0], restaurant);
      RunUnique(Apply(orders, steps[0], restaurant), steps[1..], restaurant);
    }
  }

  ghost predicate NeverSurplus(orders: map<nat, seq<Item>>, steps: seq<Step>, restaurant: Restaurant)
    decreases |steps|
  {
    NoSurplus(orders) && (steps == [] || NeverSurplus(Apply(orders, steps[0], restaurant), steps[1..], restaurant))
  }

  predicate NoneLeavesSurplus(orders: map<nat, seq<Item>>, steps: seq<Step>, restaurant: Restaurant)
    decreases |steps|
  {
    steps == []
    || (!LeavesSurplus(orders, steps[0])
        && NoneLeavesSurplus(Apply(orders, steps[0], restaurant), steps[1..], restaurant))
  }

  /** Over a run no line ever holds more codes than pieces exactly when no step leaves a surplus. */
  lemma {:induction false} RunWithinIff(orders: map<nat, seq<Item>>, steps: seq<Step>, restaurant: Restaurant)
    requires NoSurplus(orders)
    ensures NeverSurplus(orders, steps, restaurant) <==> NoneLeavesSurplus(orders, steps, restaurant)
    decreases |steps|
  {
    if steps != [] {
      var next := Apply(orders, steps[0], restaurant);
      ApplyWithinIff(orders, steps[0], restaurant);
      if NoSurplus(next) {
        RunWithinIff(next, steps[1..], restaurant);
      } else {
        assert !NeverSurplus(next, steps[1..], restaurant);
      }
    }
  }
}
