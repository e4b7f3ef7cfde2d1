/** The entries of one day of one company: `_prepare_daily_entry`
    (custom_api_sage_x3/models/account_move.py). The records found by the searches are given. */
module SageDaily {
  import opened Digraphs
  import opened Options
  import opened Ordering
  import opened SageEntries
  import opened SageLines
  import opened Sums

  datatype PaymentMode = PaymentMode(account: Option<Account>, isLimit: bool, isFood: bool, isBankCard: bool,
                                     isCheque: bool, isTitre: bool)

  /** `lines` are those of the order that was paid. */
  datatype PosPayment = PosPayment(id: int, amount: Money, mode: Option<PaymentMode>, partner: Option<Partner>,
                                   lines: seq<OrderLine>)

  /** A POS session with its payments not sent yet. */
  datatype Session = Session(closed: bool, payments: seq<PosPayment>)

  /** A customer payment that is not from the POS. */
  datatype Settlement = Settlement(amount: Money, partner: Option<Partner>)

  datatype FoodItem = FoodItem(account: Option<Account>, party: Option<Party>, amount: Money)

  /** Where a payment of a POS session goes. `customer` is the customer account of the company. */
  datatype Destination = Skipped | LimitEntries | FoodLine(item: FoodItem) | Grouped(account: Account) | Cash

  function DestinationOf(c: Company, p: PosPayment): Destination {
    if p.mode.None? || p.amount == 0 then Skipped
    else
      var m := p.mode.value;
      if m.account.None? && !m.isLimit then Skipped
      else if m.isLimit then LimitEntries
      else if m.isFood then
        if p.partner.Some? && p.partner.value.personalAccount.Some?
        then FoodLine(FoodItem(m.account, p.partner.value.personalAccount, Abs(p.amount)))
        else FoodLine(FoodItem(c.customer, if p.partner.Some? && p.partner.value.parentCustomer.Some?
                                           then p.partner.value.parentCustomer else c.sundry, Abs(p.amount)))
      else if m.isBankCard || m.isCheque || m.isTitre then Grouped(m.account.value)
      else Cash
  }

  /** What the loop over the payments collects. */
  datatype Collected = Collected(cashIds: seq<int>, food: seq<FoodItem>, groups: map<Account, Money>, paidIds: seq<int>)

  function Collect(c: Company, payments: seq<PosPayment>): Collected {
    if payments == [] then Collected([], [], map[], [])
    else
      var s, p := Collect(c, payments[..|payments| - 1]), payments[|payments| - 1];
      match DestinationOf(c, p)
      case Skipped => s
      case LimitEntries => s
      case FoodLine(item) => s.(food := s.food + [item], paidIds := s.paidIds + [p.id])
      case Grouped(a) =>
        s.(groups := s.groups[a := (if a in s.groups then s.groups[a] else 0) + Abs(p.amount)],
           paidIds := s.paidIds + [p.id])
      case Cash => s.(cashIds := s.cashIds + [p.id])
  }

  function PaymentsOf(sessions: seq<Session>): seq<PosPayment> {
    if sessions == [] then [] else PaymentsOf(sessions[..|sessions| - 1]) + sessions[|sessions| - 1].payments
  }

  /** The loop over the sessions and their payments. */
  method CollectPayments(c: Company, sessions: seq<Session>) returns (s: Collected)
    requires c.customer.Some?
    ensures s == Collect(c, PaymentsOf(sessions))
  {
    hide Collect;
    NothingCollected(c);
    var cashIds: seq<int>, paidIds: seq<int> := [], [];
    var food: seq<FoodItem> := [];
    var groups: map<Account, Money> := map[];
    for i := 0 to |sessions|
      invariant Collected(cashIds, food, groups, paidIds) == Collect(c, PaymentsOf(sessions[..i]))
    {
      var payments := sessions[i].payments;
      ghost var before := PaymentsOf(sessions[..i]);
      assert before + payments[..0] == before;
      for j := 0 to |payments|
        invariant Collected(cashIds, food, groups, paidIds) == Collect(c, before + payments[..j])
      {
        assert before + payments[..j + 1] == before + payments[..j] + [payments[j]];
        CollectOneMore(c, before + payments[..j], payments[j]);
        var p := payments[j];
        if p.mode.None? || p.amount == 0 {
          continue;
        }
        var m := p.mode.value;
        var account, amount := m.account, Abs(p.amount);
        if account.None? {
          if m.isLimit {
            account := c.customer;
          } else {
            continue;
          }
        }
        if m.isLimit {
          continue;
        } else if m.isFood {
          var party := if p.partner.Some? then p.partner.value.personalAccount else None;
          if party.None? {
            account := c.customer;
            party := if p.partner.Some? && p.partner.value.parentCustomer.Some? then p.partner.value.parentCustomer
                else c.sundry;
          }
          food := food + [FoodItem(account, party, amount)];
          paidIds := paidIds + [p.id];
        } else if m.isBankCard || m.isCheque || m.isTitre {
          if account.value !in groups {
            groups := groups[account.value := 0];
          }
          groups := groups[account.value := groups[account.value] + amount];
          paidIds := paidIds + [p.id];
        } else {
          cashIds := cashIds + [p.id];
        }
      }
      assert payments[..|payments|] == payments && sessions[..i + 1][..i] == sessions[..i];
    }
    assert sessions[..|sessions|] == sessions;
    s := Collected(cashIds, food, groups, paidIds);
  }

  lemma NothingCollected(c: Company)
    ensures Collect(c, []) == Collected([], [], map[], [])
  {
  }

  lemma CollectOneMore(c: Company, payments: seq<PosPayment>, p: PosPayment)
    ensures var s, t := Collect(c, payments), Collect(c, payments + [p]);
            match DestinationOf(c, p)
            case Skipped => t == s
            case LimitEntries => t == s
            case FoodLine(item) => t == s.(food := s.food + [item], paidIds := s.paidIds + [p.id])
            case Grouped(a) =>
              t == s.(groups := s.groups[a := (if a in s.groups then s.groups[a] else 0) + Abs(p.amount)],
                      paidIds := s.paidIds + [p.id])
            case Cash => t == s.(cashIds := s.cashIds + [p.id])
  {
    assert (payments + [p])[..|payments|] == payments;
  }

  // ---------------------------------------------------------------- what was collected

  ghost function FoodAmount(): FoodItem -> Money {
    (x: FoodItem) => x.amount
  }

  predicate GoesToDecai(c: Company, p: PosPayment) {
    DestinationOf(c, p).FoodLine? || DestinationOf(c, p).Grouped?
  }

  /** The absolute amounts of the payments with one of the identifiers. */
  function PaidBy(payments: seq<PosPayment>, ids: seq<int>): Money {
    if payments == [] then 0
    else
      var p := payments[|payments| - 1];
      PaidBy(payments[..|payments| - 1], ids) + if p.id in ids then Abs(p.amount) else 0
  }

  predicate DistinctIds(payments: seq<PosPayment>) {
    forall i, j :: 0 <= i < j < |payments| ==> payments[i].id != payments[j].id
  }

  ghost predicate HasId(payments: seq<PosPayment>, id: int) {
    exists i :: 0 <= i < |payments| && payments[i].id == id
  }

  /** The identifiers kept are those of the payments with the destination, each once. */
  lemma {:induction false} CollectedIds(c: Company, payments: seq<PosPayment>)
    requires DistinctIds(payments)
    ensures var s := Collect(c, payments);
            && NoDuplicates(s.cashIds) && NoDuplicates(s.paidIds)
            && (forall id :: id in s.cashIds || id in s.paidIds ==> HasId(payments, id))
            && (forall i :: 0 <= i < |payments| ==>
                  (payments[i].id in s.cashIds <==> DestinationOf(c, payments[i]).Cash?))
            && (forall i :: 0 <= i < |payments| ==> (payments[i].id in s.paidIds <==> GoesToDecai(c, payments[i])))
  {
    hide Collect, DestinationOf;
    if payments == [] {
      NothingCollected(c);
    } else {
      var init, p := payments[..|payments| - 1], payments[|payments| - 1];
      CollectedIds(c, init);
      assert payments == init + [p];
      CollectOneMore(c, init, p);
      assert !HasId(init, p.id);
      forall id | HasId(init, id) ensures HasId(payments, id) {
        var i :| 0 <= i < |init| && init[i].id == id;
        assert payments[i].id == id;
      }
      assert payments[|init|].id == p.id;
    }
  }

  lemma {:induction false} PaidByOthers(payments: seq<PosPayment>, ids: seq<int>, id: int)
    requires forall i :: 0 <= i < |payments| ==> payments[i].id != id
    ensures PaidBy(payments, ids + [id]) == PaidBy(payments, ids)
  {
    if payments != [] { PaidByOthers(payments[..|payments| - 1], ids, id); }
  }

  /** The food items and the groups hold exactly the amounts of the payments kept for the DECAI. */
  lemma {:induction false} CollectedAmounts(c: Company, payments: seq<PosPayment>)
    requires DistinctIds(payments)
    ensures var s := Collect(c, payments);
            && SumBy(s.food, FoodAmount()) + Total(s.groups) == PaidBy(payments, s.paidIds)
            && (forall i :: 0 <= i < |s.food| ==> s.food[i].amount > 0)
            && (forall a :: a in s.groups ==> s.groups[a] > 0)
            && (s.paidIds == [] <==> s.food == [] && s.groups == map[])
  {
    hide Collect, SumBy, Total, DestinationOf;
    if payments == [] {
      NothingCollected(c);
      NoAmounts();
    } else {
      var init, p := payments[..|payments| - 1], payments[|payments| - 1];
      CollectedAmounts(c, init);
      CollectedIds(c, init);
      assert payments == init + [p];
      CollectOneMore(c, init, p);
      var s := Collect(c, init);
      PaidByOthers(init, s.paidIds, p.id);
      assert p.id !in s.paidIds by { assert !HasId(init, p.id); }
      DestinationAmount(c, p);
      match DestinationOf(c, p)
      case FoodLine(item) =>
        SumByAppend(s.food, item, FoodAmount());
      case Grouped(a) =>
        TotalUpdate(s.groups, a, (if a in s.groups then s.groups[a] else 0) + Abs(p.amount));
      case _ =>
    }
  }

  lemma NoAmounts()
    ensures SumBy([], FoodAmount()) + Total<Account>(map[]) == 0
  {
  }

  lemma DestinationAmount(c: Company, p: PosPayment)
    ensures GoesToDecai(c, p) ==> p.amount != 0
    ensures DestinationOf(c, p).FoodLine? ==> DestinationOf(c, p).item.amount == Abs(p.amount)
  {
  }

  // ---------------------------------------------------------------- ENCAI

  function DayTaxItems(c: Company, rates: seq<int>, grouped: map<int, Money>): (items: seq<Line>)
    requires forall rate :: rate in rates ==> rate in grouped
    ensures forall i :: 0 <= i < |items| ==> items[i].side == Credit
  {
    if rates == [] then []
    else
      var rate := rates[|rates| - 1];
      assert rate in rates;
      var items := DayTaxItems(c, rates[..|rates| - 1], grouped);
      if grouped[rate] > 0 then items + [Line(TaxAccount(c, rate), Credit, grouped[rate], None)] else items
  }

  /** Settlements of customers that have a number. */
  function SettlementItems(c: Company, settlements: seq<Settlement>): (items: seq<Line>)
    ensures forall i :: 0 <= i < |items| ==> items[i].side == Credit
  {
    if settlements == [] then []
    else
      var items, s := SettlementItems(c, settlements[..|settlements| - 1]), settlements[|settlements| - 1];
      if s.partner.None? || s.partner.value.customer.None? then items
      else items + [Line(c.customer, Credit, s.amount, PartyOf(c, s.partner))]
  }

  function SaleItems(c: Company, total: Money): (items: seq<Line>)
    ensures forall i :: 0 <= i < |items| ==> items[i].side == Credit
  {
    if total > 0 then [Line(c.sale, Credit, total, None)] else []
  }

  ghost function EncaiItems(c: Company, lines: seq<OrderLine>, settlements: seq<Settlement>): (items: seq<Line>)
    ensures forall i :: 0 <= i < |items| ==> items[i].side == Credit
  {
    var taxes := GroupedTaxes(AllTaxes(lines));
    SaleItems(c, Round(TotalExcluded(lines))) + DayTaxItems(c, Ascending(taxes.Keys), taxes)
        + SettlementItems(c, settlements)
  }

  /** The cash line against the items, and the entry if there is anything to send. */
  ghost function EncaiEntry(c: Company, lines: seq<OrderLine>, settlements: seq<Settlement>): Option<Entry> {
    var items := EncaiItems(c, lines, settlements);
    var total := Amount(items, Credit);
    if items == [] || total <= 0 then None
    else Some(Entry(Encai, Equilibrated(Rounded(items + [Line(c.cash, Debit, total, None)]), Debit), None))
  }

  method PrepareEncai(c: Company, lines: seq<OrderLine>, settlements: seq<Settlement>) returns (e: Option<Entry>)
    ensures e == EncaiEntry(c, lines, settlements)
  {
    hide Round, Equilibrated, Amount, Rounded, GroupedTaxes, AllTaxes, TotalExcluded, DayTaxItems, SettlementItems;
    var draft := new Draft();
    var total := 0;
    NoItems();
    var posTotal := PosLinesTotal(lines);
    if posTotal > 0 {
      AmountAppend([], Line(c.sale, Credit, posTotal, None), Credit);
      RoundedAppend([], Line(c.sale, Credit, posTotal, None));
      draft.Add(c.sale, Credit, Round(posTotal), None);
      total := total + posTotal;
    }
    assert SaleItems(c, posTotal) == [] + SaleItems(c, posTotal);
    var grouped := PosLinesByTax(lines);
    var rates := SortedKeys(grouped);
    total := AddDayTaxes(draft, SaleItems(c, posTotal), total, c, rates, grouped);
    total := AddSettlements(draft, SaleItems(c, posTotal) + DayTaxItems(c, rates, grouped), total, c, settlements);
    ghost var items := EncaiItems(c, lines, settlements);
    if draft.lines != [] && total > 0 {
      AmountAppend(items, Line(c.cash, Debit, total, None), Credit);
      RoundedAppend(items, Line(c.cash, Debit, total, None));
      draft.Add(c.cash, Debit, Round(total), None);
      draft.Equilibrate(Debit);
      return Some(Entry(Encai, draft.lines, None));
    }
    e := None;
  }

  lemma NoItems()
    ensures Rounded([]) == [] && forall side :: Amount([], side) == 0
  {
  }

  method AddDayTaxes(draft: Draft, ghost items: seq<Line>, start: Money, c: Company, rates: seq<int>,
                     grouped: map<int, Money>)
    returns (total: Money)
    requires draft.lines == Rounded(items) && start == Amount(items, Credit)
    requires forall rate :: rate in rates ==> rate in grouped
    modifies draft
    ensures draft.lines == Rounded(items + DayTaxItems(c, rates, grouped))
    ensures total == Amount(items + DayTaxItems(c, rates, grouped), Credit)
  {
    hide Round, Amount, Rounded, TaxAccount;
    total := start;
    assert items == items + DayTaxItems(c, rates[..0], grouped);
    for i := 0 to |rates|
      invariant forall rate :: rate in rates ==> rate in grouped
      invariant draft.lines == Rounded(items + DayTaxItems(c, rates[..i], grouped))
      invariant total == Amount(items + DayTaxItems(c, rates[..i], grouped), Credit)
    {
      assert rates[i] in rates && rates[..i + 1][..i] == rates[..i];
      ghost var taxes := DayTaxItems(c, rates[..i], grouped);
      var amount := grouped[rates[i]];
      if amount > 0 {
        ghost var l := Line(TaxAccount(c, rates[i]), Credit, amount, None);
        assert items + (taxes + [l]) == (items + taxes) + [l];
        RoundedAppend(items + taxes, l);
        AmountAppend(items + taxes, l, Credit);
        draft.Add(TaxAccount(c, rates[i]), Credit, Round(amount), None);
        total := total + amount;
      }
    }
    assert rates[..|rates|] == rates;
  }

  method AddSettlements(draft: Draft, ghost items: seq<Line>, start: Money, c: Company, settlements: seq<Settlement>)
    returns (total: Money)
    requires draft.lines == Rounded(items) && start == Amount(items, Credit)
    modifies draft
    ensures draft.lines == Rounded(items + SettlementItems(c, settlements))
    ensures total == Amount(items + SettlementItems(c, settlements), Credit)
  {
    hide Round, Amount, Rounded, PartyOf;
    total := start;
    assert items == items + SettlementItems(c, settlements[..0]);
    for i := 0 to |settlements|
      invariant draft.lines == Rounded(items + SettlementItems(c, settlements[..i]))
      invariant total == Amount(items + SettlementItems(c, settlements[..i]), Credit)
    {
      assert settlements[..i + 1][..i] == settlements[..i];
      ghost var done := SettlementItems(c, settlements[..i]);
      var s := settlements[i];
      if s.partner.None? || s.partner.value.customer.None? {
        continue;
      }
      ghost var l := Line(c.customer, Credit, s.amount, PartyOf(c, s.partner));
      assert items + (done + [l]) == (items + done) + [l];
      RoundedAppend(items + done, l);
      AmountAppend(items + done, l, Credit);
      draft.Add(c.customer, Credit, Round(s.amount), PartyOf(c, s.partner));
      total := total + s.amount;
    }
    assert settlements[..|settlements|] == settlements;
  }

  /** An ENCAI is balanced: its cash line is the sum of its credit lines, which are as computed, and is
      off the exact total by half a cent a line at most. */
  lemma EncaiIsBalanced(c: Company, lines: seq<OrderLine>, settlements: seq<Settlement>)
    requires EncaiEntry(c, lines, settlements).Some?
    ensures var e, items := EncaiEntry(c, lines, settlements).value, EncaiItems(c, lines, settlements);
            && e.kind == Encai && InCents(e.lines) && Balanced(e.lines)
            && |e.lines| == |items| + 1 && e.lines[..|items|] == Rounded(items)
            && e.lines[|items|].account == c.cash && e.lines[|items|].amount == Amount(Rounded(items), Credit)
            && 2 * Abs(e.lines[|items|].amount - Amount(items, Credit)) <= Cents(|items|)
  {
    hide Amount, Round, EncaiItems;
    var items, e := EncaiItems(c, lines, settlements), EncaiEntry(c, lines, settlements).value;
    var cash := Line(c.cash, Debit, Amount(items, Credit), None);
    RoundedAppend(items, cash);
    FirstIs(Rounded(items + [cash]), Debit, |items|);
    EquilibratedGap(Rounded(items + [cash]), Debit);
    assert e.lines == Rounded(items) + [e.lines[|items|]];
    AmountAppend(Rounded(items), e.lines[|items|], Debit);
    AmountAppend(Rounded(items), e.lines[|items|], Credit);
    AmountOfOtherSide(Rounded(items), Debit);
    RoundingBound(items, Credit);
  }

  // ---------------------------------------------------------------- DECAI

  predicate NoLater(a: Option<int>, b: Option<int>) {
    a.None? || (b.Some? && a.value <= b.value)
  }

  /** The key of the sort: the account, then the third party, a missing one first. */
  predicate FoodOrder(x: FoodItem, y: FoodItem) {
    if x.account == y.account then NoLater(x.party, y.party) else NoLater(x.account, y.account)
  }

  function FoodSorted(food: seq<FoodItem>): (r: seq<FoodItem>)
    ensures multiset(r) == multiset(food)
  {
    SortedBy(food, FoodOrder)
  }

  lemma FoodSortedInOrder(food: seq<FoodItem>)
    ensures InOrder(FoodSorted(food), FoodOrder)
    ensures SumBy(FoodSorted(food), FoodAmount()) == SumBy(food, FoodAmount())
  {
    SortedByInOrder(food, FoodOrder);
    SumByPermutation(FoodSorted(food), food, FoodAmount());
  }

  function FoodItems(food: seq<FoodItem>): (items: seq<Line>)
    ensures |items| == |food|
  {
    seq(|food|, i requires 0 <= i < |food| => Line(food[i].account, Debit, food[i].amount, food[i].party))
  }

  function GroupItems(accounts: seq<Account>, groups: map<Account, Money>): (items: seq<Line>)
    requires forall a :: a in accounts ==> a in groups
    ensures forall i :: 0 <= i < |items| ==> items[i].side == Debit
  {
    if accounts == [] then []
    else
      var a := accounts[|accounts| - 1];
      assert a in accounts;
      var items := GroupItems(accounts[..|accounts| - 1], groups);
      if groups[a] > 0 then items + [Line(Some(a), Debit, groups[a], None)] else items
  }

  ghost function DecaiItems(s: Collected): (items: seq<Line>)
    ensures forall i :: 0 <= i < |items| ==> items[i].side == Debit
  {
    FoodItems(FoodSorted(s.food)) + GroupItems(Ascending(s.groups.Keys), s.groups)
  }

  ghost function DecaiEntry(c: Company, s: Collected): Option<Entry> {
    var items := DecaiItems(s);
    var total := Amount(items, Debit);
    if items == [] || total <= 0 then None
    else Some(Entry(Decai, Rounded(items + [Line(c.cash, Credit, total, None)]), None))
  }

  method PrepareDecai(c: Company, s: Collected) returns (e: Option<Entry>)
    ensures e == DecaiEntry(c, s)
  {
    hide Round, Amount, Rounded;
    var draft := new Draft();
    var total := 0;
    NoItems();
    var food := FoodSorted(s.food);
    for i := 0 to |food|
      invariant draft.lines == Rounded(FoodItems(food[..i])) && total == Amount(FoodItems(food[..i]), Debit)
    {
      ghost var l := Line(food[i].account, Debit, food[i].amount, food[i].party);
      assert FoodItems(food[..i + 1]) == FoodItems(food[..i]) + [l];
      RoundedAppend(FoodItems(food[..i]), l);
      AmountAppend(FoodItems(food[..i]), l, Debit);
      draft.Add(food[i].account, Debit, Round(food[i].amount), food[i].party);
      total := total + food[i].amount;
    }
    assert food[..|food|] == food;
    var accounts := SortedKeys(s.groups);
    total := AddGroups(draft, FoodItems(food), total, accounts, s.groups);
    ghost var items := DecaiItems(s);
    if draft.lines != [] && total > 0 {
      RoundedAppend(items, Line(c.cash, Credit, total, None));
      draft.Add(c.cash, Credit, Round(total), None);
      return Some(Entry(Decai, draft.lines, None));
    }
    e := None;
  }

  method AddGroups(draft: Draft, ghost items: seq<Line>, start: Money, accounts: seq<Account>,
                   groups: map<Account, Money>)
    returns (total: Money)
    requires draft.lines == Rounded(items) && start == Amount(items, Debit)
    requires forall a :: a in accounts ==> a in groups
    modifies draft
    ensures draft.lines == Rounded(items + GroupItems(accounts, groups))
    ensures total == Amount(items + GroupItems(accounts, groups), Debit)
  {
    hide Round, Amount, Rounded;
    total := start;
    assert items == items + GroupItems(accounts[..0], groups);
    for i := 0 to |accounts|
      invariant forall a :: a in accounts ==> a in groups
      invariant draft.lines == Rounded(items + GroupItems(accounts[..i], groups))
      invariant total == Amount(items + GroupItems(accounts[..i], groups), Debit)
    {
      assert accounts[i] in accounts && accounts[..i + 1][..i] == accounts[..i];
      ghost var done := GroupItems(accounts[..i], groups);
      var amount := groups[accounts[i]];
      if amount > 0 {
        ghost var l := Line(Some(accounts[i]), Debit, amount, None);
        assert items + (done + [l]) == (items + done) + [l];
        RoundedAppend(items + done, l);
        AmountAppend(items + done, l, Debit);
        draft.Add(Some(accounts[i]), Debit, Round(amount), None);
        total := total + amount;
      }
    }
    assert accounts[..|accounts|] == accounts;
  }

  // ---------------------------------------------------------------- conservation in the DECAI

  lemma {:induction false} FoodItemsAmount(food: seq<FoodItem>)
    ensures Amount(FoodItems(food), Debit) == SumBy(food, FoodAmount())
  {
    hide Amount;
    if food == [] {
      NoItems();
      assert FoodItems([]) == [];
    } else {
      var init, last := food[..|food| - 1], food[|food| - 1];
      FoodItemsAmount(init);
      AmountAppend(FoodItems(init), Line(last.account, Debit, last.amount, last.party), Debit);
      assert FoodItems(food) == FoodItems(init) + [Line(last.account, Debit, last.amount, last.party)];
    }
  }

  lemma {:induction false} GroupItemsOfSubmap(accounts: seq<Account>, groups: map<Account, Money>, k: Account)
    requires k !in accounts && forall a :: a in accounts ==> a in groups
    ensures GroupItems(accounts, groups - {k}) == GroupItems(accounts, groups)
  {
    if accounts != [] {
      assert accounts[|accounts| - 1] in accounts;
      GroupItemsOfSubmap(accounts[..|accounts| - 1], groups, k);
    }
  }

  lemma {:induction false} GroupItemsAmount(groups: map<Account, Money>)
    requires forall a :: a in groups ==> groups[a] > 0
    ensures var items := GroupItems(Ascending(groups.Keys), groups);
            Amount(items, Debit) == Total(groups) && |items| == |groups|
    decreases |groups|
  {
    hide Amount, Total, GroupItems, Ascending, Largest;
    NoItems();
    NoTotal();
    if groups == map[] {
      NoGroups(groups);
    } else {
      assert groups.Keys != {};
      var k := Largest(groups.Keys);
      var rest := groups - {k};
      TotalSplit(groups, k);
      GroupItemsAmount(rest);
      assert rest.Keys == groups.Keys - {k};
      AscendingStep(groups.Keys);
      GroupItemsStep(Ascending(rest.Keys), groups, k);
    }
  }

  lemma NoGroups(groups: map<Account, Money>)
    requires groups == map[]
    ensures GroupItems(Ascending(groups.Keys), groups) == []
  {
  }

  lemma GroupItemsStep(accounts: seq<Account>, groups: map<Account, Money>, k: Account)
    requires k in groups && k !in accounts && groups[k] > 0 && forall a :: a in accounts ==> a in groups
    ensures var items, before := GroupItems(accounts + [k], groups), GroupItems(accounts, groups - {k});
            Amount(items, Debit) == Amount(before, Debit) + groups[k] && |items| == |before| + 1
  {
    hide Amount;
    GroupItemsOfSubmap(accounts, groups, k);
    assert (accounts + [k])[..|accounts|] == accounts;
    AmountAppend(GroupItems(accounts, groups), Line(Some(k), Debit, groups[k], None), Debit);
  }

  lemma NoTotal()
    ensures Total<Account>(map[]) == 0
  {
  }

  /** Conservation and bound. Before rounding, the DECAI debit lines sum to the absolute amounts of
      exactly the payments listed for it; it is sent whenever there is one. After rounding, it is off
      by half a cent a line at most. */
  lemma DecaiConserves(c: Company, payments: seq<PosPayment>)
    requires DistinctIds(payments)
    ensures var s := Collect(c, payments);
            && Amount(DecaiItems(s), Debit) == PaidBy(payments, s.paidIds)
            && (DecaiEntry(c, s).Some? <==> s.paidIds != [])
            && (DecaiEntry(c, s).Some? ==>
                 var lines := DecaiEntry(c, s).value.lines;
                 && InCents(lines) && 2 * Abs(Gap(lines)) <= Cents(|lines|)
                 && |lines| == |s.food| + |s.groups| + 1)
  {
    hide Amount, Round, FoodSorted, FoodItems, GroupItems, Total, SumBy;
    var s, items := Collect(c, payments), DecaiItems(Collect(c, payments));
    CollectedAmounts(c, payments);
    DecaiTotal(s);
    if items != [] && Amount(items, Debit) > 0 { RoundedCashLine(c, items); }
    if s.paidIds != [] { PositiveTotal(items); }
  }

  lemma DecaiTotal(s: Collected)
    requires (forall i :: 0 <= i < |s.food| ==> s.food[i].amount > 0) && (forall a :: a in s.groups ==> s.groups[a] > 0)
    ensures Amount(DecaiItems(s), Debit) == SumBy(s.food, FoodAmount()) + Total(s.groups)
    ensures |DecaiItems(s)| == |s.food| + |s.groups|
    ensures forall i :: 0 <= i < |DecaiItems(s)| ==> DecaiItems(s)[i].amount > 0
  {
    hide Amount, Total, SumBy, FoodSorted, GroupItems, Ascending;
    var food, groups := FoodSorted(s.food), GroupItems(Ascending(s.groups.Keys), s.groups);
    FoodSortedInOrder(s.food);
    FoodSortedHas(s.food);
    assert forall x :: x in s.food ==> x.amount > 0;
    FoodItemsAmount(food);
    GroupItemsAmount(s.groups);
    AmountConcat(FoodItems(food), groups, Debit);
    GroupItemsPositive(Ascending(s.groups.Keys), s.groups);
  }

  lemma FoodSortedHas(food: seq<FoodItem>)
    ensures |FoodSorted(food)| == |food| && forall i :: 0 <= i < |FoodSorted(food)| ==> FoodSorted(food)[i] in food
  {
    hide FoodSorted;
    var sorted := FoodSorted(food);
    assert |multiset(sorted)| == |multiset(food)|;
    forall i | 0 <= i < |sorted| ensures sorted[i] in food {
      assert sorted[i] in multiset(sorted);
    }
  }

  lemma {:induction false} GroupItemsPositive(accounts: seq<Account>, groups: map<Account, Money>)
    requires forall a :: a in accounts ==> a in groups
    ensures forall i :: 0 <= i < |GroupItems(accounts, groups)| ==> GroupItems(accounts, groups)[i].amount > 0
  {
    if accounts != [] { GroupItemsPositive(accounts[..|accounts| - 1], groups); }
  }

  lemma {:induction false} PositiveTotal(items: seq<Line>)
    requires forall i :: 0 <= i < |items| ==> items[i].side == Debit && items[i].amount > 0
    ensures items != [] ==> Amount(items, Debit) > 0
  {
    if |items| > 1 { PositiveTotal(items[..|items| - 1]); }
  }

  lemma RoundedCashLine(c: Company, items: seq<Line>)
    requires forall i :: 0 <= i < |items| ==> items[i].side == Debit
    ensures var lines := Rounded(items + [Line(c.cash, Credit, Amount(items, Debit), None)]);
            2 * Abs(Gap(lines)) <= Cents(|lines|)
  {
    hide Amount, Round;
    var cash := Line(c.cash, Credit, Amount(items, Debit), None);
    RoundedAppend(items, cash);
    RoundingBound(items, Debit);
    AmountAppend(Rounded(items), RoundedLine(cash), Debit);
    AmountAppend(Rounded(items), RoundedLine(cash), Credit);
    AmountOfOtherSide(Rounded(items), Credit);
  }
}
