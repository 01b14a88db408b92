/** Restaurant subscriptions and their balance ledger (apps/platform/services). */
module Subscriptions {
  import opened Options
  import opened Arithmetic
  import opened Calendar

  datatype Billing = Monthly | Yearly

  /** Amounts are hundredths of the currency unit. A renewal charge carries the period it pays for. */
  datatype Entry = Entry(amount: int, balanceAfter: int, charged: Option<Span>)

  datatype Span = Span(start: Option<Date>, end: Option<Date>)

  datatype Entitlement = Entitlement(
    active: bool, startsOn: Option<Date>, expiresOn: Option<Date>, billing: Option<Billing>,
    monthly: Option<int>, yearly: Option<int>)

  /** A restaurant with its entitlement and its ledger. */
  datatype Account = Account(active: bool, entitlement: Entitlement, ledger: seq<Entry>)

  function AmountOf(entry: Entry): int { entry.amount }

  /** get_restaurant_current_balance */
  function Balance(ledger: seq<Entry>): int {
    SumBy(ledger, AmountOf)
  }

  /** get_restaurant_next_charge_amount */
  function NextCharge(e: Entitlement): Option<int> {
    match e.billing
    case None => None
    case Some(Monthly) => e.monthly
    case Some(Yearly) => e.yearly
  }

  function AddPeriod(date: Date, billing: Billing): Date {
    if billing == Monthly then AddMonth(date) else AddYear(date)
  }

  /** create_restaurant_balance_transaction */
  function Posted(ledger: seq<Entry>, amount: int, charged: Option<Span>): seq<Entry> {
    ledger + [Entry(amount, Balance(ledger) + amount, charged)]
  }

  /** extend_restaurant_entitlement; an entitlement without a billing period is refused. */
  function Extended(account: Account, today: Date): Account {
    var e := account.entitlement;
    if e.billing.None? then account
    else
      var running := e.expiresOn.Some? && today.UpTo(e.expiresOn.value);
      var base := if running then e.expiresOn.value else today;
      account.(active := true, entitlement := e.(
        startsOn := if running then e.startsOn else Some(today),
        expiresOn := Some(AddPeriod(base, e.billing.value)), active := true))
  }

  predicate CanRenew(account: Account) {
    var charge := NextCharge(account.entitlement);
    charge.Some? && Balance(account.ledger) >= charge.value
  }

  /** try_auto_renew_restaurant_entitlement, when it succeeds. */
  function Renewed(account: Account, today: Date): Account
    requires CanRenew(account)
  {
    var charge := NextCharge(account.entitlement).value;
    var extended := Extended(account, today);
    if charge > 0 then
      extended.(ledger := Posted(account.ledger, -charge,
        Some(Span(extended.entitlement.startsOn, extended.entitlement.expiresOn))))
    else extended
  }

  function Deactivated(account: Account): Account {
    account.(active := false, entitlement := account.entitlement.(active := false))
  }

  predicate Due(account: Account, today: Date) {
    account.active && account.entitlement.active
    && account.entitlement.expiresOn.Some? && account.entitlement.expiresOn.value.Before(today)
  }

  function Swept(account: Account, today: Date): Account {
    if !Due(account, today) then account
    else if CanRenew(account) then Renewed(account, today)
    else Deactivated(account)
  }

  function SweptAll(accounts: seq<Account>, today: Date): (r: seq<Account>)
    ensures |r| == |accounts| && forall i | 0 <= i < |accounts| :: r[i] == Swept(accounts[i], today)
  {
    seq(|accounts|, i requires 0 <= i < |accounts| => Swept(accounts[i], today))
  }

  function DueCount(accounts: seq<Account>, today: Date): nat {
    if accounts == [] then 0
    else DueCount(accounts[..|accounts| - 1], today) + if Due(accounts[|accounts| - 1], today) then 1 else 0
  }

  function ToppedUp(account: Account, amount: int): Account {
    if amount <= 0 then account else account.(ledger := Posted(account.ledger, amount, None))
  }

  class Platform {
    var accounts: seq<Account>

    constructor (accounts: seq<Account>)
      ensures this.accounts == accounts
    {
      this.accounts := accounts;
    }

    method PostEntry(i: nat, amount: int, charged: Option<Span>)
      requires i < |accounts|
      modifies this
      ensures accounts
          == old(accounts)[i := old(accounts)[i].(ledger := Posted(old(accounts)[i].ledger, amount, charged))]
    {
      var ledger := accounts[i].ledger;
      var balance := 0;
      for k := 0 to |ledger|
        invariant balance == Balance(ledger[..k]) && accounts == old(accounts)
      {
        SumByTake(ledger, k, AmountOf);
        balance := balance + ledger[k].amount;
      }
      assert ledger[..|ledger|] == ledger;
      accounts := accounts[i := accounts[i].(ledger := ledger + [Entry(amount, balance + amount, charged)])];
    }

    method Extend(i: nat, today: Date)
      requires i < |accounts|
      modifies this
      ensures accounts == old(accounts)[i := Extended(old(accounts)[i], today)]
    {
      var account := accounts[i];
      var e := account.entitlement;
      if e.billing.None? {
        return;
      }
      if e.expiresOn.Some? && today.UpTo(e.expiresOn.value) {
        e := e.(expiresOn := Some(AddPeriod(e.expiresOn.value, e.billing.value)));
      } else {
        e := e.(startsOn := Some(today), expiresOn := Some(AddPeriod(today, e.billing.value)));
      }
      accounts := accounts[i := account.(active := true, entitlement := e.(active := true))];
    }

    method TryRenew(i: nat, today: Date) returns (renewed: bool)
      requires i < |accounts|
      modifies this
      ensures renewed == CanRenew(old(accounts)[i])
      ensures accounts == if renewed then old(accounts)[i := Renewed(old(accounts)[i], today)] else old(accounts)
    {
      var charge := NextCharge(accounts[i].entitlement);
      if charge.None? || Balance(accounts[i].ledger) < charge.value {
        return false;
      }
      Extend(i, today);
      if charge.value > 0 {
        var e := accounts[i].entitlement;
        PostEntry(i, -charge.value, Some(Span(e.startsOn, e.expiresOn)));
      }
      renewed := true;
    }

    /** expire_restaurant_entitlements */
    method Sweep(today: Date) returns (expired: nat)
      modifies this
      ensures accounts == SweptAll(old(accounts), today) && expired == DueCount(old(accounts), today)
    {
      expired := 0;
      for i := 0 to |accounts|
        invariant |accounts| == |old(accounts)|
        invariant forall k | 0 <= k < |accounts| ::
                    accounts[k] == if k < i then Swept(old(accounts)[k], today) else old(accounts)[k]
        invariant expired == DueCount(old(accounts)[..i], today)
      {
        assert old(accounts)[..i + 1][..i] == old(accounts)[..i];
        if Due(accounts[i], today) {
          var renewed := TryRenew(i, today);
          if !renewed {
            accounts := accounts[i := Deactivated(accounts[i])];
          }
          expired := expired + 1;
        }
      }
      assert old(accounts)[..|accounts|] == old(accounts);
    }
  }

  // ----- After a sweep -----

  /** Afterwards nothing is due: no active entitlement of an active restaurant has run out. */
  lemma NothingDueAfterSweep(accounts: seq<Account>, today: Date)
    requires today.Valid()
    ensures forall i | 0 <= i < |accounts| :: !Due(SweptAll(accounts, today)[i], today)
  {
  }

  lemma {:induction false} NoneDue(accounts: seq<Account>, today: Date)
    requires forall i | 0 <= i < |accounts| :: !Due(accounts[i], today)
    ensures SweptAll(accounts, today) == accounts && DueCount(accounts, today) == 0
  {
    if accounts != [] {
      NoneDue(accounts[..|accounts| - 1], today);
    }
  }

  /** A second sweep of the same day handles nothing and changes nothing. */
  lemma {:induction false} SweepTwice(accounts: seq<Account>, today: Date)
    requires today.Valid()
    ensures SweptAll(SweptAll(accounts, today), today) == SweptAll(accounts, today)
    ensures DueCount(SweptAll(accounts, today), today) == 0
  {
    NothingDueAfterSweep(accounts, today);
    NoneDue(SweptAll(accounts, today), today);
  }

  // ----- What a renewal costs and gives -----

  function PeriodMonths(billing: Billing): nat {
    if billing == Yearly then 12 else 1
  }

  /** The price of the account's own billing period. */
  function PriceOf(e: Entitlement): Option<int> {
    if e.billing == Some(Yearly) then e.yearly else if e.billing == Some(Monthly) then e.monthly else None
  }

  /** The period goes on from its end, if that has not passed, and starts again today otherwise. */
  ghost predicate Prolonged(was: Entitlement, now: Entitlement, today: Date) {
    && was.billing.Some? && now.active
    && now.(active := was.active, startsOn := was.startsOn, expiresOn := was.expiresOn) == was
    && now.expiresOn.Some?
    && if was.expiresOn.Some? && !was.expiresOn.value.Before(today) then
         now.startsOn == was.startsOn
         && MonthsLater(was.expiresOn.value, now.expiresOn.value, PeriodMonths(was.billing.value))
       else
         now.startsOn == Some(today) && MonthsLater(today, now.expiresOn.value, PeriodMonths(was.billing.value))
  }

  lemma BeforeOrUpTo(a: Date, b: Date)
    ensures a.UpTo(b) <==> !b.Before(a)
  {
  }

  lemma ExtendedProlongs(account: Account, today: Date)
    requires today.Valid() && (account.entitlement.expiresOn.Some? ==> account.entitlement.expiresOn.value.Valid())
    ensures account.entitlement.billing.None? ==> Extended(account, today) == account
    ensures account.entitlement.billing.Some? ==>
              var after := Extended(account, today);
              after.active && after.ledger == account.ledger && Prolonged(account.entitlement, after.entitlement, today)
  {
    var e := account.entitlement;
    PeriodsAreMonths(today, AddMonth(today));
    PeriodsAreMonths(today, AddYear(today));
    if e.expiresOn.Some? {
      BeforeOrUpTo(today, e.expiresOn.value);
      PeriodsAreMonths(e.expiresOn.value, AddMonth(e.expiresOn.value));
      PeriodsAreMonths(e.expiresOn.value, AddYear(e.expiresOn.value));
    }
  }

  /** A renewal needs a balance of the period's price, takes exactly that, if it is not free, with the period it paid
      for, and prolongs the period. */
  lemma RenewalCharges(account: Account, today: Date)
    requires today.Valid() && (account.entitlement.expiresOn.Some? ==> account.entitlement.expiresOn.value.Valid())
    ensures CanRenew(account) <==>
              PriceOf(account.entitlement).Some? && Balance(account.ledger) >= PriceOf(account.entitlement).value
    ensures CanRenew(account) ==>
              var after, price := Renewed(account, today), PriceOf(account.entitlement).value;
              && after.active && Prolonged(account.entitlement, after.entitlement, today)
              && Balance(after.ledger) == Balance(account.ledger) - Max(0, price)
              && if price <= 0 then after.ledger == account.ledger
                 else
                   && |after.ledger| == |account.ledger| + 1 && after.ledger[..|account.ledger|] == account.ledger
                   && after.ledger[|account.ledger|]
                      == Entry(-price, Balance(after.ledger),
                               Some(Span(after.entitlement.startsOn, after.entitlement.expiresOn)))
  {
    if CanRenew(account) {
      ExtendedProlongs(account, today);
      var extended := Extended(account, today);
      var price := NextCharge(account.entitlement).value;
      SumBySnoc(account.ledger, Entry(-price, Balance(account.ledger) - price,
          Some(Span(extended.entitlement.startsOn, extended.entitlement.expiresOn))), AmountOf);
    }
  }

  /** A top-up of a positive amount raises the balance by it; any other one is refused. */
  lemma TopUpAdds(account: Account, amount: int)
    ensures var after := ToppedUp(account, amount);
            && after.(ledger := account.ledger) == account
            && Balance(after.ledger) == Balance(account.ledger) + Max(0, amount)
            && (amount <= 0 ==> after == account)
            && (amount > 0 ==>
                  after.ledger == account.ledger + [Entry(amount, Balance(account.ledger) + amount, None)])
  {
    SumBySnoc(account.ledger, Entry(amount, Balance(account.ledger) + amount, None), AmountOf);
  }

  /** A sweep leaves every account that has not run out as it is, renews those that can pay, and takes the access of the
      others, leaving their ledgers and periods. */
  lemma SweepSettles(accounts: seq<Account>, today: Date, i: nat)
    requires i < |accounts|
    ensures var was, now := accounts[i], SweptAll(accounts, today)[i];
            var price := PriceOf(was.entitlement);
            if was.active && was.entitlement.active && was.entitlement.expiresOn.Some?
               && was.entitlement.expiresOn.value.Before(today) then
              if price.Some? && Balance(was.ledger) >= price.value then now == Renewed(was, today)
              else
                && !now.active && !now.entitlement.active
                && now.(active := true, entitlement := now.entitlement.(active := true)) == was
            else now == was
  {
  }

  // ----- Every run -----

  ghost predicate PrefixSums(ledger: seq<Entry>) {
    forall k | 0 <= k < |ledger| :: ledger[k].balanceAfter == Balance(ledger[..k + 1]) && ledger[k].balanceAfter >= 0
  }

  predicate IsCharge(entry: Entry) { entry.charged.Some? }

  /** A charged period is a real interval that began by today and ends by the entitlement's expiry. */
  ghost predicate PeriodFits(span: Span, e: Entitlement, today: Date) {
    && span.start.Some? && span.end.Some? && e.expiresOn.Some?
    && span.start.value.Before(span.end.value)
    && span.start.value.UpTo(today) && span.end.value.UpTo(e.expiresOn.value)
  }

  ghost predicate PeriodsFit(ledger: seq<Entry>, e: Entitlement, today: Date) {
    forall k | 0 <= k < |ledger| && IsCharge(ledger[k]) :: PeriodFits(ledger[k].charged.value, e, today)
  }

  /** Each charged period ends before the next one starts. */
  ghost predicate PeriodsDisjoint(ledger: seq<Entry>) {
    forall j, k | 0 <= j < k < |ledger| && IsCharge(ledger[j]) && IsCharge(ledger[k]) ::
      && ledger[j].charged.value.end.Some? && ledger[k].charged.value.start.Some?
      && ledger[j].charged.value.end.value.Before(ledger[k].charged.value.start.value)
  }

  ghost predicate Sound(account: Account, today: Date) {
    && PrefixSums(account.ledger)
    && PeriodsFit(account.ledger, account.entitlement, today)
    && PeriodsDisjoint(account.ledger)
    && (account.entitlement.expiresOn.Some? ==> account.entitlement.expiresOn.value.Valid())
  }

  lemma BalanceNonNegative(ledger: seq<Entry>)
    requires PrefixSums(ledger)
    ensures Balance(ledger) >= 0
  {
    if ledger != [] {
      assert ledger[..|ledger|] == ledger;
      assert ledger[|ledger| - 1].balanceAfter == Balance(ledger[..|ledger|]);
    }
  }

  lemma PostedPrefixSums(ledger: seq<Entry>, amount: int, charged: Option<Span>)
    requires PrefixSums(ledger) && Balance(ledger) + amount >= 0
    ensures PrefixSums(Posted(ledger, amount, charged))
  {
    var more := Posted(ledger, amount, charged);
    SumBySnoc(ledger, more[|ledger|], AmountOf);
    forall k | 0 <= k < |more|
      ensures more[k].balanceAfter == Balance(more[..k + 1]) && more[k].balanceAfter >= 0
    {
      if k < |ledger| {
        assert more[..k + 1] == ledger[..k + 1];
      } else {
        assert more[..k + 1] == more;
      }
    }
  }

  lemma ExtendedSound(account: Account, today: Date)
    requires Sound(account, today) && today.Valid()
    ensures Sound(Extended(account, today), today)
  {
  }

  lemma SweptSound(account: Account, today: Date)
    requires Sound(account, today) && today.Valid()
    ensures Sound(Swept(account, today), today)
  {
    if Due(account, today) && CanRenew(account) {
      RenewedSound(account, today);
    }
  }

  lemma RenewedSound(account: Account, today: Date)
    requires Sound(account, today) && today.Valid() && Due(account, today) && CanRenew(account)
    ensures Sound(Renewed(account, today), today)
  {
    var charge := NextCharge(account.entitlement).value;
    var extended := Extended(account, today);
    PeriodsAdvance(today);
    ExtendedSound(account, today);
    if charge > 0 {
      var span := Span(extended.entitlement.startsOn, extended.entitlement.expiresOn);
      PostedPrefixSums(account.ledger, -charge, Some(span));
      var more := Posted(account.ledger, -charge, Some(span));
      forall j | 0 <= j < |account.ledger| && IsCharge(account.ledger[j])
        ensures account.ledger[j].charged.value.end.value.Before(today)
      {
        assert PeriodFits(account.ledger[j].charged.value, account.entitlement, today);
      }
      assert forall k | 0 <= k < |account.ledger| :: more[k] == account.ledger[k];
      assert PeriodFits(span, extended.entitlement, today);
    }
  }

  datatype Action =
    | DoSweep(today: Date)
    | DoTopUp(i: nat, amount: int)
    | DoExtend(i: nat, today: Date)
    | DoDeactivate(i: nat)

  datatype State = State(accounts: seq<Account>, today: Date)

  function Step(st: State, action: Action): State {
    match action
    case DoSweep(today) => State(SweptAll(st.accounts, today), today)
    case DoTopUp(i, amount) =>
      if i < |st.accounts| then st.(accounts := st.accounts[i := ToppedUp(st.accounts[i], amount)]) else st
    case DoExtend(i, today) =>
      if i < |st.accounts| then State(st.accounts[i := Extended(st.accounts[i], today)], today) else st
    case DoDeactivate(i) =>
      if i < |st.accounts| then st.(accounts := st.accounts[i := Deactivated(st.accounts[i])]) else st
  }

  /** Days never run backwards. */
  ghost predicate Legal(st: State, action: Action) {
    match action
    case DoSweep(today) => today.Valid() && st.today.UpTo(today)
    case DoExtend(_, today) => today.Valid() && st.today.UpTo(today)
    case _ => true
  }

  ghost predicate AllSound(st: State) {
    forall i | 0 <= i < |st.accounts| :: Sound(st.accounts[i], st.today)
  }

  lemma LaterSound(account: Account, earlier: Date, today: Date)
    requires Sound(account, earlier) && earlier.UpTo(today)
    ensures Sound(account, today)
  {
  }

  lemma ToppedUpSound(account: Account, amount: int, today: Date)
    requires Sound(account, today)
    ensures Sound(ToppedUp(account, amount), today)
  {
    if amount > 0 {
      BalanceNonNegative(account.ledger);
      PostedPrefixSums(account.ledger, amount, None);
      var more := Posted(account.ledger, amount, None);
      assert forall k | 0 <= k < |account.ledger| :: more[k] == account.ledger[k];
      assert !IsCharge(more[|account.ledger|]);
    }
  }

  lemma StepSound(st: State, action: Action)
    requires AllSound(st) && Legal(st, action)
    ensures AllSound(Step(st, action))
  {
    var after := Step(st, action);
    forall i | 0 <= i < |after.accounts|
      ensures Sound(after.accounts[i], after.today)
    {
      LaterSound(st.accounts[i], st.today, after.today);
      match action {
        case DoSweep(today) => SweptSound(st.accounts[i], today);
        case DoTopUp(k, amount) => ToppedUpSound(st.accounts[i], amount, after.today);
        case DoExtend(k, today) => if k < |st.accounts| { ExtendedSound(st.accounts[i], today); }
        case DoDeactivate(k) =>
      }
    }
  }

  ghost predicate LegalRun(st: State, actions: seq<Action>)
    decreases |actions|
  {
    actions == [] || (Legal(st, actions[0]) && LegalRun(Step(st, actions[0]), actions[1..]))
  }

  function Run(st: State, actions: seq<Action>): State
    decreases |actions|
  {
    if actions == [] then st else Run(Step(st, actions[0]), actions[1..])
  }

  /** Over every run: each balance_after is the prefix sum and never negative, and charged periods never overlap. */
  lemma {:induction false} RunSound(st: State, actions: seq<Action>)
    requires AllSound(st) && LegalRun(st, actions)
    ensures AllSound(Run(st, actions))
    decreases |actions|
  {
    if actions != [] {
      StepSound(st, actions[0]);
      RunSound(Step(st, actions[0]), actions[1..]);
    }
  }
}
