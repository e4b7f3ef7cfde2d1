/** Where the payments of a day go, read from the payments: the lines of the DECAI, the identifiers listed
    with each entry, and when a day is refused (custom_api_sage_x3/models/account_move.py). */
module SageDestinations {
  import opened Options
  import opened Ordering
  import opened SageAccounts
  import opened SageDaily
  import opened SageDay
  import opened SageEntries
  import opened SageLines
  import opened Sums

  /** A payment of some amount, not on credit, with a method that has an account. */
  predicate IsPaid(p: PosPayment) {
    p.amount != 0 && p.mode.Some? && p.mode.value.account.Some? && !p.mode.value.isLimit
  }

  predicate PaysFood(p: PosPayment) {
    IsPaid(p) && p.mode.value.isFood
  }

  /** By card, by cheque or by voucher. */
  predicate PaysByAccount(p: PosPayment) {
    IsPaid(p) && !p.mode.value.isFood && (p.mode.value.isBankCard || p.mode.value.isCheque || p.mode.value.isTitre)
  }

  predicate PaysCash(p: PosPayment) {
    IsPaid(p) && !p.mode.value.isFood
    && !p.mode.value.isBankCard && !p.mode.value.isCheque && !p.mode.value.isTitre
  }

  /** The partner has a personal account: the third party of its food payments. */
  predicate HasOwnAccount(p: PosPayment) {
    p.partner.Some? && p.partner.value.personalAccount.Some?
  }

  /** The customer that pays for a partner without personal account: its parent, or the sundry customer. */
  function Guarantor(c: Company, p: PosPayment): Option<Party> {
    if p.partner.None? || p.partner.value.parentCustomer.None? then c.sundry else p.partner.value.parentCustomer
  }

  /** The line of a food payment. */
  function FoodPaymentLine(c: Company, p: PosPayment): Line
    requires PaysFood(p)
  {
    if HasOwnAccount(p)
    then Line(p.mode.value.account, Debit, Round(Abs(p.amount)), p.partner.value.personalAccount)
    else Line(c.customer, Debit, Round(Abs(p.amount)), Guarantor(c, p))
  }

  lemma Destinations(c: Company, p: PosPayment)
    ensures DestinationOf(c, p).FoodLine? <==> PaysFood(p)
    ensures DestinationOf(c, p).Grouped? <==> PaysByAccount(p)
    ensures DestinationOf(c, p).Cash? <==> PaysCash(p)
    ensures PaysFood(p) ==>
              var item := DestinationOf(c, p).item;
              RoundedLine(Line(item.account, Debit, item.amount, item.party)) == FoodPaymentLine(c, p)
    ensures PaysByAccount(p) ==> p.mode.value.account == Some(DestinationOf(c, p).account)
  {
  }

  /** The identifiers listed with the ENCAI are those of the cash payments, and with the DECAI those of
      the food, card, cheque and voucher payments. */
  lemma ListedByMethod(c: Company, payments: seq<PosPayment>, i: nat)
    requires DistinctIds(payments) && i < |payments|
    ensures payments[i].id in Collect(c, payments).cashIds <==> PaysCash(payments[i])
    ensures payments[i].id in Collect(c, payments).paidIds <==> PaysFood(payments[i]) || PaysByAccount(payments[i])
  {
    CollectedIds(c, payments);
    Destinations(c, payments[i]);
  }

  /** The payments with an entry of their own are those whose method is on credit, in their order. */
  lemma {:induction false} OnCreditByMethod(payments: seq<PosPayment>)
    ensures forall p :: p in LimitPayments(payments) <==> p in payments && p.mode.Some? && p.mode.value.isLimit
    ensures forall p :: multiset(LimitPayments(payments))[p] ==
              if p.mode.Some? && p.mode.value.isLimit then multiset(payments)[p] else 0
  {
    if payments != [] {
      var init, last := payments[..|payments| - 1], payments[|payments| - 1];
      OnCreditByMethod(init);
      assert payments == init + [last];
    }
  }

  /** The entry of a payment on credit is for its partner, its amount and the lines of its order. */
  lemma CreditPaymentPosts(c: Company, p: PosPayment)
    requires SeparateAccounts(c)
    ensures var e, refund := LimitEntry(c, LimitOf(p)), p.amount <= 0;
            var paid, vat := Round(Abs(p.amount)), AllVat(c, p.lines, refund);
            && e.kind == (if refund then Avcli else Facli) && |e.lines| >= 2
            && e.lines[0].account == ClientAccount(c, p.partner) && e.lines[0].party == ClientParty(c, p.partner)
            && e.lines[0].side == (if refund then Credit else Debit)
            && e.lines[0].amount == (if refund then paid
                                     else if AnyTaxed(p.lines) then Round(SumBy(p.lines, Excluded())) + vat
                                     else paid + vat)
  {
    hide Round, AllVat, SumBy, Rounded, Equilibrated, LimitItems;
    LimitEntryPosts(c, LimitOf(p));
  }

  // ---------------------------------------------------------------- the lines of the DECAI

  ghost function FoodIs(l: Line): FoodItem -> int {
    (x: FoodItem) => if RoundedLine(Line(x.account, Debit, x.amount, x.party)) == l then 1 else 0
  }

  ghost function PaymentIs(c: Company, l: Line): PosPayment -> int {
    (p: PosPayment) => if PaysFood(p) && FoodPaymentLine(c, p) == l then 1 else 0
  }

  /** What a payment by card, cheque or voucher brings to an account. */
  ghost function PaidOn(a: Account): PosPayment -> Money {
    (p: PosPayment) => if PaysByAccount(p) && p.mode.value.account == Some(a) then Abs(p.amount) else 0
  }

  /** The accounts of these payments. */
  ghost function AccountsPaid(payments: seq<PosPayment>): set<Account> {
    set p | p in payments && PaysByAccount(p) :: p.mode.value.account.value
  }

  /** One line an account, for the rounded sum of its payments. */
  ghost function AccountLines(payments: seq<PosPayment>): seq<Line> {
    var accounts := Ascending(AccountsPaid(payments));
    seq(|accounts|, i requires 0 <= i < |accounts| =>
      Line(Some(accounts[i]), Debit, Round(SumBy(payments, PaidOn(accounts[i]))), None))
  }

  lemma {:induction false} CountLines(food: seq<FoodItem>, l: Line)
    ensures multiset(Rounded(FoodItems(food)))[l] == SumBy(food, FoodIs(l))
  {
    hide SumBy, Rounded, Round;
    if food == [] {
      NoItems();
      assert FoodItems([]) == [];
      NothingCounted(l);
    } else {
      var init, x := food[..|food| - 1], food[|food| - 1];
      var line := Line(x.account, Debit, x.amount, x.party);
      assert food == init + [x];
      CountLines(init, l);
      assert FoodItems(food) == FoodItems(init) + [line];
      RoundedAppend(FoodItems(init), line);
      SumByAppend(init, x, FoodIs(l));
    }
  }

  lemma NothingCounted(l: Line)
    ensures SumBy([], FoodIs(l)) == 0 && forall c :: SumBy([], PaymentIs(c, l)) == 0
  {
  }

  lemma {:induction false} CountPayments(c: Company, payments: seq<PosPayment>, l: Line)
    ensures SumBy(Collect(c, payments).food, FoodIs(l)) == SumBy(payments, PaymentIs(c, l))
  {
    hide Collect, DestinationOf, SumBy, Round, PaysFood, PaysByAccount, FoodPaymentLine;
    if payments == [] {
      NothingCollected(c);
      NothingCounted(l);
    } else {
      var init, p := payments[..|payments| - 1], payments[|payments| - 1];
      assert payments == init + [p];
      CountPayments(c, init, l);
      CollectOneMore(c, init, p);
      Destinations(c, p);
      SumByAppend(init, p, PaymentIs(c, l));
      if DestinationOf(c, p).FoodLine? {
        SumByAppend(Collect(c, init).food, DestinationOf(c, p).item, FoodIs(l));
      }
    }
  }

  lemma {:induction false} SamePaid(c: Company, payments: seq<PosPayment>, a: Account)
    ensures SumBy(payments, ToGroup(c, a)) == SumBy(payments, PaidOn(a))
  {
    hide DestinationOf, PaysByAccount, PaysFood;
    if payments != [] {
      Destinations(c, payments[|payments| - 1]);
      SamePaid(c, payments[..|payments| - 1], a);
    }
  }

  lemma GroupsArePaid(c: Company, payments: seq<PosPayment>)
    ensures Collect(c, payments).groups ==
            map a | a in AccountsPaid(payments) :: SumBy(payments, PaidOn(a))
  {
    hide DestinationOf, SumBy, Collect;
    CollectedGroups(c, payments);
    forall p { Destinations(c, p); }
    forall a ensures a in GroupAccounts(c, payments) <==> a in AccountsPaid(payments) {
      if a in GroupAccounts(c, payments) {
        var p :| p in payments && DestinationOf(c, p).Grouped? && DestinationOf(c, p).account == a;
      }
      if a in AccountsPaid(payments) {
        var p :| p in payments && PaysByAccount(p) && p.mode.value.account.value == a;
      }
    }
    forall a { SamePaid(c, payments, a); }
  }

  lemma {:induction false} GroupItemsAre(accounts: seq<Account>, groups: map<Account, Money>)
    requires forall a :: a in accounts ==> a in groups && groups[a] > 0
    ensures |GroupItems(accounts, groups)| == |accounts|
    ensures forall i :: 0 <= i < |accounts| ==>
              GroupItems(accounts, groups)[i] == Line(Some(accounts[i]), Debit, groups[accounts[i]], None)
  {
    if accounts != [] {
      assert accounts[|accounts| - 1] in accounts;
      GroupItemsAre(accounts[..|accounts| - 1], groups);
    }
  }

  /** The lines of a DECAI: one for each food payment, on its account and for its third party; then one an
      account for the other payments; then the cash line for everything listed. */
  lemma DecaiPosts(c: Company, payments: seq<PosPayment>) returns (food: seq<Line>)
    requires DistinctIds(payments) && DecaiEntry(c, Collect(c, payments)).Some?
    ensures DecaiEntry(c, Collect(c, payments)).value.lines ==
            food + AccountLines(payments) +
            [Line(c.cash, Credit, Round(PaidBy(payments, Collect(c, payments).paidIds)), None)]
    ensures forall l :: multiset(food)[l] == SumBy(payments, PaymentIs(c, l))
    ensures forall i, j :: 0 <= i < j < |food| ==> InSequence(food[i], food[j])
  {
    FoodSortedInOrder(Collect(c, payments).food);
    LinesInSequence(FoodSorted(Collect(c, payments).food));
    hide Amount, Round, Rounded, FoodSorted, FoodItems, GroupItems, Ascending, SumBy, Collect, Total, PaidBy;
    var s := Collect(c, payments);
    var items := DecaiItems(s);
    var first, groups := FoodItems(FoodSorted(s.food)), GroupItems(Ascending(s.groups.Keys), s.groups);
    food := Rounded(first);
    DecaiConserves(c, payments);
    CollectedAmounts(c, payments);
    GroupLinesAre(c, payments);
    RoundedAppend(items, Line(c.cash, Credit, Amount(items, Debit), None));
    RoundedConcat(first, groups);
    forall l ensures multiset(food)[l] == SumBy(payments, PaymentIs(c, l)) {
      CountLines(FoodSorted(s.food), l);
      SumByPermutation(FoodSorted(s.food), s.food, FoodIs(l));
      CountPayments(c, payments, l);
    }
  }

  /** By account, and on one account by third party, what is missing coming first. */
  predicate InSequence(x: Line, y: Line) {
    || (x.account.None? && y.account.Some?)
    || (x.account.Some? && y.account.Some? && x.account.value < y.account.value)
    || (x.account == y.account && (x.party.None? || (y.party.Some? && x.party.value <= y.party.value)))
  }

  lemma LinesInSequence(food: seq<FoodItem>)
    requires InOrder(food, FoodOrder)
    ensures var lines := Rounded(FoodItems(food));
            forall i, j :: 0 <= i < j < |lines| ==> InSequence(lines[i], lines[j])
  {
    hide Round;
    var lines := Rounded(FoodItems(food));
    forall i, j | 0 <= i < j < |lines| ensures InSequence(lines[i], lines[j]) { assert FoodOrder(food[i], food[j]); }
  }

  lemma GroupLinesAre(c: Company, payments: seq<PosPayment>)
    requires DistinctIds(payments)
    ensures var groups := Collect(c, payments).groups;
            Rounded(GroupItems(Ascending(groups.Keys), groups)) == AccountLines(payments)
  {
    hide Round, SumBy, Collect, Ascending, GroupItems, Total, PaidBy;
    var groups := Collect(c, payments).groups;
    CollectedAmounts(c, payments);
    GroupsArePaid(c, payments);
    assert groups.Keys == AccountsPaid(payments);
    GroupItemsAre(Ascending(groups.Keys), groups);
    var lines := Rounded(GroupItems(Ascending(groups.Keys), groups));
    forall i | 0 <= i < |lines| ensures lines[i] == AccountLines(payments)[i] { }
  }

  // ---------------------------------------------------------------- refusals

  /** A day with sessions, settlements or payments on credit is refused when one of its sessions is open,
      or else a setting or a client account is missing; and only then. */
  lemma DayIsRefusedIff(c: Company, day: Day)
    requires day.sessions != [] || day.limitSessions != [] || day.settlements != []
    ensures DailyEntry(c, day).Err? <==>
            || (exists s :: (s in day.sessions || s in day.limitSessions) && !s.closed)
            || c.site == "" || c.cashJournal == "" || c.sale.None? || c.customer.None? || c.cash.None?
            || exists p :: p in LimitPayments(PaymentsOf(day.limitSessions)) &&
                 if p.partner.Some? && p.partner.value.interior then c.customerInterior.None? else c.customer.None?
    ensures DailyEntry(c, day) == Err(OpenSession) <==>
            exists s :: (s in day.sessions || s in day.limitSessions) && !s.closed
  {
    hide DayEntries, LimitPayments, PaymentsOf;
    var limits := DayLimits(day);
    assert (exists s :: s in day.sessions + day.limitSessions && !s.closed) <==>
           (exists s :: (s in day.sessions || s in day.limitSessions) && !s.closed);
    if !AllReceivable(c, limits) {
      var i :| 0 <= i < |limits| && Receivable(c, limits[i].partner).None?;
      assert limits[i] in limits;
    }
    if p :| p in limits && Receivable(c, p.partner).None? {
      var i :| 0 <= i < |limits| && limits[i] == p;
      assert !AllReceivable(c, limits);
    }
  }
}
