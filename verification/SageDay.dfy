/** The assembly of the entries of a day (custom_api_sage_x3/models/account_move.py). */
module SageDay {
  import opened Digraphs
  import opened Options
  import opened Ordering
  import opened SageDaily
  import opened SageEntries
  import opened SageLines
  import opened Sums

  // ---------------------------------------------------------------- a DECAI in whole cents

  predicate GroupsInCents(groups: map<Account, Money>) {
    forall a :: a in groups ==> WholeCents(groups[a])
  }

  lemma {:induction false} CollectedInCents(c: Company, payments: seq<PosPayment>)
    requires forall i :: 0 <= i < |payments| ==> WholeCents(payments[i].amount)
    ensures var s := Collect(c, payments);
            && (forall x :: x in s.food ==> WholeCents(x.amount))
            && GroupsInCents(s.groups)
  {
    hide Collect, DestinationOf;
    if payments == [] {
      NothingCollected(c);
    } else {
      var init, p := payments[..|payments| - 1], payments[|payments| - 1];
      CollectedInCents(c, init);
      assert payments == init + [p];
      CollectOneMore(c, init, p);
      DestinationAmount(c, p);
    }
  }

  lemma {:induction false} GroupItemsInCents(accounts: seq<Account>, groups: map<Account, Money>)
    requires forall a :: a in accounts ==> a in groups
    requires GroupsInCents(groups)
    ensures InCents(GroupItems(accounts, groups))
  {
    if accounts != [] { GroupItemsInCents(accounts[..|accounts| - 1], groups); }
  }

  /** When every payment is in whole cents the DECAI is balanced. */
  lemma DecaiIsBalancedInCents(c: Company, payments: seq<PosPayment>)
    requires forall i :: 0 <= i < |payments| ==> WholeCents(payments[i].amount)
    ensures DecaiEntry(c, Collect(c, payments)).Some? ==> Balanced(DecaiEntry(c, Collect(c, payments)).value.lines)
  {
    hide Amount, Collect, FoodSorted, GroupItems, Rounded, GroupsInCents;
    var s := Collect(c, payments);
    CollectedInCents(c, payments);
    GroupItemsInCents(Ascending(s.groups.Keys), s.groups);
    var items, food := DecaiItems(s), FoodSorted(s.food);
    FoodSortedHas(s.food);
    assert InCents(items);
    AmountInCents(items, Debit);
    var cash := Line(c.cash, Credit, Amount(items, Debit), None);
    RoundingKeepsCents(items + [cash]);
    AmountAppend(items, cash, Debit);
    AmountAppend(items, cash, Credit);
    AmountOfOtherSide(items, Credit);
  }

  // ---------------------------------------------------------------- when a DECAI is balanced

  ghost function RoundedFood(): FoodItem -> Money {
    (x: FoodItem) => Round(x.amount)
  }

  /** What a food payment is on the DECAI. */
  ghost function FoodCents(c: Company): PosPayment -> Money {
    (p: PosPayment) => if DestinationOf(c, p).FoodLine? then Round(Abs(p.amount)) else 0
  }

  ghost function ToGroup(c: Company, a: Account): PosPayment -> Money {
    (p: PosPayment) => if DestinationOf(c, p) == Grouped(a) then Abs(p.amount) else 0
  }

  ghost function GroupAccounts(c: Company, payments: seq<PosPayment>): set<Account> {
    set p | p in payments && DestinationOf(c, p).Grouped? :: DestinationOf(c, p).account
  }

  ghost function GroupTotals(c: Company, payments: seq<PosPayment>): map<Account, Money> {
    map a | a in GroupAccounts(c, payments) :: SumBy(payments, ToGroup(c, a))
  }

  /** What the payments by card, cheque or voucher are on the DECAI, by account. */
  ghost function GroupCents(c: Company, payments: seq<PosPayment>): map<Account, Money> {
    map a | a in GroupAccounts(c, payments) :: Round(SumBy(payments, ToGroup(c, a)))
  }

  lemma {:induction false} NotGrouped(c: Company, payments: seq<PosPayment>, a: Account)
    requires a !in GroupAccounts(c, payments)
    ensures SumBy(payments, ToGroup(c, a)) == 0
  {
    hide DestinationOf;
    if payments != [] {
      var init, p := payments[..|payments| - 1], payments[|payments| - 1];
      assert p in payments && forall q :: q in init ==> q in payments;
      NotGrouped(c, init, a);
    }
  }

  lemma GroupTotalsOneMore(c: Company, init: seq<PosPayment>, p: PosPayment)
    ensures var before := GroupTotals(c, init);
            GroupTotals(c, init + [p]) ==
              if !DestinationOf(c, p).Grouped? then before
              else
                var a := DestinationOf(c, p).account;
                before[a := (if a in before then before[a] else 0) + Abs(p.amount)]
  {
    hide DestinationOf, SumBy;
    var payments := init + [p];
    assert forall q :: q in payments <==> q in init || q == p;
    forall a ensures SumBy(payments, ToGroup(c, a)) ==
                     SumBy(init, ToGroup(c, a)) + if DestinationOf(c, p) == Grouped(a) then Abs(p.amount) else 0 {
      SumByAppend(init, p, ToGroup(c, a));
    }
    if DestinationOf(c, p).Grouped? {
      var a := DestinationOf(c, p).account;
      if a !in GroupAccounts(c, init) { NotGrouped(c, init, a); }
      assert GroupAccounts(c, payments) == GroupAccounts(c, init) + {a};
    } else {
      assert GroupAccounts(c, payments) == GroupAccounts(c, init);
    }
  }

  lemma {:induction false} CollectedGroups(c: Company, payments: seq<PosPayment>)
    ensures Collect(c, payments).groups == GroupTotals(c, payments)
  {
    hide Collect, DestinationOf, SumBy;
    if payments == [] {
      NothingCollected(c);
    } else {
      hide GroupTotals;
      var init, p := payments[..|payments| - 1], payments[|payments| - 1];
      assert payments == init + [p];
      CollectedGroups(c, init);
      CollectOneMore(c, init, p);
      GroupTotalsOneMore(c, init, p);
    }
  }

  lemma {:induction false} CollectedFood(c: Company, payments: seq<PosPayment>)
    ensures SumBy(Collect(c, payments).food, RoundedFood()) == SumBy(payments, FoodCents(c))
  {
    hide Collect, DestinationOf, SumBy, Round;
    if payments == [] {
      NothingCollected(c);
      NothingRounded(c);
    } else {
      var init, p := payments[..|payments| - 1], payments[|payments| - 1];
      assert payments == init + [p];
      CollectedFood(c, init);
      CollectOneMore(c, init, p);
      DestinationAmount(c, p);
      SumByAppend(init, p, FoodCents(c));
      if DestinationOf(c, p).FoodLine? {
        SumByAppend(Collect(c, init).food, DestinationOf(c, p).item, RoundedFood());
      }
    }
  }

  lemma NothingRounded(c: Company)
    ensures SumBy([], RoundedFood()) == 0 == SumBy([], FoodCents(c))
  {
  }

  lemma {:induction false} RoundedFoodItems(food: seq<FoodItem>)
    ensures Amount(Rounded(FoodItems(food)), Debit) == SumBy(food, RoundedFood())
  {
    hide Amount, Rounded, Round;
    if food == [] {
      NoItems();
      assert FoodItems([]) == [];
    } else {
      var init, last := food[..|food| - 1], food[|food| - 1];
      var l := Line(last.account, Debit, last.amount, last.party);
      RoundedFoodItems(init);
      RoundedAppend(FoodItems(init), l);
      AmountAppend(Rounded(FoodItems(init)), RoundedLine(l), Debit);
      assert FoodItems(food) == FoodItems(init) + [l];
    }
  }

  ghost function RoundedGroups(groups: map<Account, Money>): map<Account, Money> {
    map a | a in groups :: Round(groups[a])
  }

  lemma {:induction false} RoundedGroupItems(groups: map<Account, Money>)
    requires forall a :: a in groups ==> groups[a] > 0
    ensures Amount(Rounded(GroupItems(Ascending(groups.Keys), groups)), Debit) == Total(RoundedGroups(groups))
    decreases |groups|
  {
    hide Amount, Total, GroupItems, Ascending, Largest, Rounded, Round;
    NoItems();
    SageDaily.NoTotal();
    if groups == map[] {
      NoGroups(groups);
      assert RoundedGroups(groups) == map[];
    } else {
      assert groups.Keys != {};
      var k := Largest(groups.Keys);
      var rest := groups - {k};
      TotalSplit(RoundedGroups(groups), k);
      assert RoundedGroups(groups) - {k} == RoundedGroups(rest);
      RoundedGroupItems(rest);
      assert rest.Keys == groups.Keys - {k};
      AscendingStep(groups.Keys);
      RoundedGroupStep(Ascending(rest.Keys), groups, k);
    }
  }

  lemma RoundedGroupStep(accounts: seq<Account>, groups: map<Account, Money>, k: Account)
    requires k in groups && k !in accounts && groups[k] > 0 && forall a :: a in accounts ==> a in groups
    ensures Amount(Rounded(GroupItems(accounts + [k], groups)), Debit) ==
            Amount(Rounded(GroupItems(accounts, groups - {k})), Debit) + Round(groups[k])
  {
    hide Amount, Rounded, Round;
    var l := Line(Some(k), Debit, groups[k], None);
    GroupItemsOfSubmap(accounts, groups, k);
    assert (accounts + [k])[..|accounts|] == accounts;
    RoundedAppend(GroupItems(accounts, groups), l);
    AmountAppend(Rounded(GroupItems(accounts, groups)), RoundedLine(l), Debit);
  }

  /** How far a DECAI is off: its rounded food payments and its rounded groups, less the rounded sum of
      all that was paid. */
  lemma DecaiGap(c: Company, payments: seq<PosPayment>)
    requires DistinctIds(payments) && DecaiEntry(c, Collect(c, payments)).Some?
    ensures Gap(DecaiEntry(c, Collect(c, payments)).value.lines) ==
            SumBy(payments, FoodCents(c)) + Total(GroupCents(c, payments))
            - Round(PaidBy(payments, Collect(c, payments).paidIds))
  {
    hide Amount, Round, Rounded, FoodSorted, FoodItems, GroupItems, Ascending, Total, SumBy, Collect;
    var s := Collect(c, payments);
    var food, groups := FoodItems(FoodSorted(s.food)), GroupItems(Ascending(s.groups.Keys), s.groups);
    CollectedAmounts(c, payments);
    DecaiConserves(c, payments);
    CollectedFood(c, payments);
    CollectedGroups(c, payments);
    RoundedFoodItems(FoodSorted(s.food));
    SumByPermutation(FoodSorted(s.food), s.food, RoundedFood());
    RoundedGroupItems(s.groups);
    assert RoundedGroups(s.groups) == GroupCents(c, payments);
    RoundedConcat(food, groups);
    AmountConcat(Rounded(food), Rounded(groups), Debit);
    CashLineGap(c, DecaiItems(s));
  }

  lemma CashLineGap(c: Company, items: seq<Line>)
    requires forall i :: 0 <= i < |items| ==> items[i].side == Debit
    ensures var cash := Line(c.cash, Credit, Amount(items, Debit), None);
            Gap(Rounded(items + [cash])) == Amount(Rounded(items), Debit) - Round(Amount(items, Debit))
  {
    hide Amount, Round, Rounded;
    var cash := Line(c.cash, Credit, Amount(items, Debit), None);
    RoundedAppend(items, cash);
    AmountAppend(Rounded(items), RoundedLine(cash), Debit);
    AmountAppend(Rounded(items), RoundedLine(cash), Credit);
    AmountOfOtherSide(Rounded(items), Credit);
  }

  /** A DECAI is balanced if and only if its payments, rounded one by one for food and account by account
      for the others, sum to their rounded sum. */
  lemma DecaiIsBalancedIff(c: Company, payments: seq<PosPayment>)
    requires DistinctIds(payments) && DecaiEntry(c, Collect(c, payments)).Some?
    ensures Balanced(DecaiEntry(c, Collect(c, payments)).value.lines) <==>
            SumBy(payments, FoodCents(c)) + Total(GroupCents(c, payments))
              == Round(PaidBy(payments, Collect(c, payments).paidIds))
  {
    hide Collect, DecaiEntry, SumBy, Total, Round, PaidBy, Amount;
    DecaiGap(c, payments);
  }

  /** A payment of half a cent with a food method. */
  function HalfCent(id: int, account: Account, partner: Option<Partner>): PosPayment {
    PosPayment(id, CENT / 2, Some(PaymentMode(Some(account), false, true, false, false, false)), partner, [])
  }

  /** Two food payments of half a cent: each rounds to nothing, their sum is a cent. */
  lemma DecaiCanBeUnbalanced(c: Company, account: Account, partner: Option<Partner>)
    ensures var payments := [HalfCent(1, account, partner), HalfCent(2, account, partner)];
            var e := DecaiEntry(c, Collect(c, payments));
            DistinctIds(payments) && e.Some? && Gap(e.value.lines) == 0 - CENT
  {
    hide DecaiEntry, DestinationOf, Collect, FoodCents, GroupCents, Round, SumBy, Total, PaidBy, HalfCent;
    var p, q := HalfCent(1, account, partner), HalfCent(2, account, partner);
    var payments := [p, q];
    HalfCentIsFood(c, 1, account, partner);
    HalfCentIsFood(c, 2, account, partner);
    TwoCollected(c, p, q);
    NoGroupCents(c, payments);
    SageDaily.NoTotal();
    DecaiConserves(c, payments);
    TwoSummed(payments, FoodCents(c));
    TwoPaid(payments, [1, 2]);
    DecaiGap(c, payments);
  }

  lemma HalfCentIsFood(c: Company, id: int, account: Account, partner: Option<Partner>)
    ensures var p := HalfCent(id, account, partner);
            && DestinationOf(c, p).FoodLine? && FoodCents(c)(p) == 0 && Abs(p.amount) == CENT / 2 && p.id == id
    ensures Round(CENT) == CENT
  {
    assert Round(CENT / 2) == 0;
  }

  lemma NoGroupCents(c: Company, payments: seq<PosPayment>)
    requires forall p :: p in payments ==> DestinationOf(c, p).FoodLine?
    ensures GroupCents(c, payments) == map[]
  {
    hide DestinationOf;
    assert GroupAccounts(c, payments) == {};
  }

  lemma TwoCollected(c: Company, p: PosPayment, q: PosPayment)
    requires DestinationOf(c, p).FoodLine? && DestinationOf(c, q).FoodLine?
    ensures Collect(c, [p, q]).paidIds == [p.id, q.id]
  {
    hide DestinationOf;
    NothingCollected(c);
    CollectOneMore(c, [], p);
    CollectOneMore(c, [p], q);
    assert [] + [p] == [p] && [p] + [q] == [p, q];
  }

  lemma TwoSummed(payments: seq<PosPayment>, weight: PosPayment -> int)
    requires |payments| == 2
    ensures SumBy(payments, weight) == weight(payments[0]) + weight(payments[1])
  {
    SumByAppend([], payments[0], weight);
    SumByAppend([payments[0]], payments[1], weight);
    assert [] + [payments[0]] == [payments[0]] && [payments[0]] + [payments[1]] == payments;
  }

  lemma TwoPaid(payments: seq<PosPayment>, ids: seq<int>)
    requires |payments| == 2 && payments[0].id in ids && payments[1].id in ids
    ensures PaidBy(payments, ids) == Abs(payments[0].amount) + Abs(payments[1].amount)
  {
    var p, q := payments[0], payments[1];
    assert payments == [p] + [q] && [p] == [] + [p];
    assert ([p] + [q])[..1] == [p] && ([] + [p])[..0] == [];
    assert PaidBy([p], ids) == Abs(p.amount);
  }

  // ---------------------------------------------------------------- sales on credit

  predicate IsLimit(p: PosPayment) {
    p.mode.Some? && p.mode.value.isLimit
  }

  function LimitOf(p: PosPayment): LimitPayment {
    LimitPayment(p.amount, p.partner, p.lines)
  }

  /** The payments of the sessions that are made with a limit method. */
  function LimitPayments(payments: seq<PosPayment>): seq<PosPayment> {
    if payments == [] then []
    else
      var found, p := LimitPayments(payments[..|payments| - 1]), payments[|payments| - 1];
      if IsLimit(p) then found + [p] else found
  }

  function Ids(payments: seq<PosPayment>): (ids: seq<int>)
    ensures |ids| == |payments|
  {
    seq(|payments|, i requires 0 <= i < |payments| => payments[i].id)
  }

  ghost function EntriesFor(c: Company, payments: seq<PosPayment>): (entries: seq<Entry>)
    ensures |entries| == |payments|
  {
    seq(|payments|, i requires 0 <= i < |payments| => LimitEntry(c, LimitOf(payments[i])))
  }

  predicate AllReceivable(c: Company, payments: seq<PosPayment>) {
    forall i :: 0 <= i < |payments| ==> Receivable(c, payments[i].partner).Some?
  }

  /** `_ligne_ecritures_is_limit`: an entry and an identifier per payment, in the same order. */
  method PrepareLimitEntries(c: Company, sessions: seq<Session>) returns (r: Result<(seq<Entry>, seq<int>), SageError>)
    ensures var all := LimitPayments(PaymentsOf(sessions));
            r == if AllReceivable(c, all) then Ok((EntriesFor(c, all), Ids(all))) else Err(NoReceivable)
  {
    hide LimitEntry, Receivable, LimitPayments, PaymentsOf, EntriesFor, Ids, AllReceivable;
    var entries: seq<Entry>, ids: seq<int> := [], [];
    NoLimitPayments(c);
    for i := 0 to |sessions|
      invariant LimitsDone(c, PaymentsOf(sessions[..i]), entries, ids)
    {
      var payments := sessions[i].payments;
      ghost var before := PaymentsOf(sessions[..i]);
      assert before + payments[..0] == before;
      for j := 0 to |payments|
        invariant LimitsDone(c, before + payments[..j], entries, ids)
      {
        assert before + payments[..j + 1] == (before + payments[..j]) + [payments[j]];
        OneMoreLimit(c, before + payments[..j], payments[j]);
        if IsLimit(payments[j]) {
          var e := PrepareLimitEntry(c, LimitOf(payments[j]));
          if e.Err? {
            RefusedPayment(c, sessions, i, j);
            return Err(NoReceivable);
          }
          entries := entries + [e.value];
          ids := ids + [payments[j].id];
        }
      }
      assert payments[..|payments|] == payments;
      PaymentsOfOneMore(sessions, i);
    }
    assert sessions[..|sessions|] == sessions;
    r := Ok((entries, ids));
  }

  ghost predicate LimitsDone(c: Company, payments: seq<PosPayment>, entries: seq<Entry>, ids: seq<int>) {
    var limits := LimitPayments(payments);
    AllReceivable(c, limits) && entries == EntriesFor(c, limits) && ids == Ids(limits)
  }

  lemma NoLimitPayments(c: Company)
    ensures PaymentsOf([]) == [] && LimitsDone(c, [], [], [])
  {
  }

  lemma OneMoreLimit(c: Company, payments: seq<PosPayment>, p: PosPayment)
    ensures var found := LimitPayments(payments);
            if !IsLimit(p) then LimitPayments(payments + [p]) == found
            else
              && LimitPayments(payments + [p]) == found + [p]
              && (AllReceivable(c, found + [p]) <==> AllReceivable(c, found) && Receivable(c, p.partner).Some?)
              && EntriesFor(c, found + [p]) == EntriesFor(c, found) + [LimitEntry(c, LimitOf(p))]
              && Ids(found + [p]) == Ids(found) + [p.id]
  {
    hide LimitEntry, Receivable;
    assert (payments + [p])[..|payments|] == payments;
    var found := LimitPayments(payments);
    if AllReceivable(c, found + [p]) {
      forall i | 0 <= i < |found| ensures Receivable(c, found[i].partner).Some? { assert (found + [p])[i] == found[i]; }
      assert (found + [p])[|found|] == p;
    }
  }

  lemma PaymentsOfOneMore(sessions: seq<Session>, i: nat)
    requires i < |sessions|
    ensures PaymentsOf(sessions[..i + 1]) == PaymentsOf(sessions[..i]) + sessions[i].payments
  {
    assert sessions[..i + 1][..i] == sessions[..i];
  }

  lemma {:induction false} LimitPaymentsAre(payments: seq<PosPayment>)
    ensures forall p :: p in LimitPayments(payments) <==> p in payments && IsLimit(p)
    ensures DistinctIds(payments) ==> DistinctIds(LimitPayments(payments))
  {
    if payments != [] {
      var init, p := payments[..|payments| - 1], payments[|payments| - 1];
      LimitPaymentsAre(init);
      assert payments == init + [p];
      if DistinctIds(payments) {
        forall q | q in LimitPayments(init) ensures q.id != p.id { assert q in init; }
      }
    }
  }

  lemma {:induction false} InPaymentsOf(sessions: seq<Session>, i: nat, j: nat)
    requires i < |sessions| && j < |sessions[i].payments|
    ensures sessions[i].payments[j] in PaymentsOf(sessions)
  {
    if i < |sessions| - 1 { InPaymentsOf(sessions[..|sessions| - 1], i, j); }
  }

  lemma RefusedPayment(c: Company, sessions: seq<Session>, i: nat, j: nat)
    requires i < |sessions| && j < |sessions[i].payments|
    requires IsLimit(sessions[i].payments[j]) && Receivable(c, sessions[i].payments[j].partner).None?
    ensures !AllReceivable(c, LimitPayments(PaymentsOf(sessions)))
  {
    InPaymentsOf(sessions, i, j);
    LimitPaymentsAre(PaymentsOf(sessions));
    assert sessions[i].payments[j] in LimitPayments(PaymentsOf(sessions));
  }

  // ---------------------------------------------------------------- the day

  /** `sessions` are those not marked as sent, `limitSessions` those that hold a limit payment to send,
      `orderLines` the lines of the orders with a payment to send that is not a limit one. */
  datatype Day = Day(sessions: seq<Session>, limitSessions: seq<Session>, orderLines: seq<OrderLine>,
                     settlements: seq<Settlement>)

  datatype Daily = Daily(entries: seq<Entry>, paymentMap: map<nat, seq<int>>)

  predicate DayConfigured(c: Company) {
    c.site != "" && c.cashJournal != "" && c.sale.Some? && c.customer.Some? && c.cash.Some?
  }

  function Listed<T>(o: Option<T>): seq<T> {
    if o.Some? then [o.value] else []
  }

  ghost function DayEncai(c: Company, day: Day): Option<Entry> {
    EncaiEntry(c, if day.sessions == [] then [] else day.orderLines, day.settlements)
  }

  ghost function DayCollected(c: Company, day: Day): Collected {
    Collect(c, PaymentsOf(day.sessions))
  }

  ghost function DayLimits(day: Day): seq<PosPayment> {
    LimitPayments(PaymentsOf(day.limitSessions))
  }

  ghost function DayEntries(c: Company, day: Day): seq<Entry> {
    Listed(DayEncai(c, day)) + Listed(DecaiEntry(c, DayCollected(c, day))) + EntriesFor(c, DayLimits(day))
  }

  function ListedIf<T>(listed: bool, x: T): seq<T> {
    if listed then [x] else []
  }

  function Singletons(ids: seq<int>): seq<seq<int>> {
    seq(|ids|, i requires 0 <= i < |ids| => [ids[i]])
  }

  /** The payments of each entry. */
  ghost function DayIds(c: Company, day: Day): seq<seq<int>> {
    var s := DayCollected(c, day);
    ListedIf(DayEncai(c, day).Some?, s.cashIds) + ListedIf(DecaiEntry(c, s).Some?, s.paidIds)
        + Singletons(Ids(DayLimits(day)))
  }

  ghost function Indexed(ids: seq<seq<int>>): map<nat, seq<int>> {
    map i: nat | i < |ids| :: ids[i]
  }

  /** The entries with their payment map. */
  ghost function DailyOf(c: Company, day: Day): Daily {
    Daily(DayEntries(c, day), Indexed(DayIds(c, day)))
  }

  ghost function DailyEntry(c: Company, day: Day): Result<Option<Daily>, SageError> {
    if day.sessions == [] && day.settlements == [] && day.limitSessions == [] then Ok(None)
    else if exists s :: s in day.sessions + day.limitSessions && !s.closed then Err(OpenSession)
    else if !DayConfigured(c) then Err(MissingSetting)
    else if !AllReceivable(c, DayLimits(day)) then Err(NoReceivable)
    else if DayEntries(c, day) == [] then Ok(None)
    else Ok(Some(DailyOf(c, day)))
  }

  /** `_prepare_daily_entry`. */
  method PrepareDailyEntry(c: Company, day: Day) returns (r: Result<Option<Daily>, SageError>)
    ensures r == DailyEntry(c, day)
  {
    hide EncaiEntry, DecaiEntry, Collect, LimitPayments, PaymentsOf, AllReceivable, EntriesFor, Ids, Singletons,
         Indexed, Listed, ListedIf;
    if day.sessions == [] && day.settlements == [] && day.limitSessions == [] {
      return Ok(None);
    }
    var all := day.sessions + day.limitSessions;
    if exists i :: 0 <= i < |all| && !all[i].closed {
      return Err(OpenSession);
    }
    if !DayConfigured(c) {
      return Err(MissingSetting);
    }
    var s := CollectPayments(c, day.sessions);
    var encai := PrepareEncai(c, if day.sessions == [] then [] else day.orderLines, day.settlements);
    var decai := PrepareDecai(c, s);
    var limits := PrepareLimitEntries(c, day.limitSessions);
    if limits.Err? {
      return Err(limits.error);
    }
    var (limitEntries, limitIds) := limits.value;
    var entries, paymentMap := Assemble(s, encai, decai, limitEntries, limitIds);
    if entries == [] {
      return Ok(None);
    }
    r := Ok(Some(Daily(entries, paymentMap)));
  }

  /** The final assembly: every entry is mapped to its payments by its index. */
  method Assemble(s: Collected, encai: Option<Entry>, decai: Option<Entry>, limitEntries: seq<Entry>,
                  limitIds: seq<int>)
    returns (entries: seq<Entry>, paymentMap: map<nat, seq<int>>)
    requires |limitEntries| == |limitIds|
    ensures entries == Listed(encai) + Listed(decai) + limitEntries
    ensures paymentMap ==
            Indexed(ListedIf(encai.Some?, s.cashIds) + ListedIf(decai.Some?, s.paidIds) + Singletons(limitIds))
  {
    hide Indexed, Singletons;
    entries, paymentMap := [], map[];
    NothingIndexed();
    OneMoreIndex([], s.cashIds);
    if encai.Some? {
      paymentMap := paymentMap[|entries| := s.cashIds];
      entries := entries + [encai.value];
    }
    ghost var ids := ListedIf(encai.Some?, s.cashIds);
    assert [] + [s.cashIds] == [s.cashIds];
    assert paymentMap == Indexed(ids) && |ids| == |entries|;
    OneMoreIndex(ids, s.paidIds);
    assert ids + [] == ids;
    if decai.Some? {
      paymentMap := paymentMap[|entries| := s.paidIds];
      entries := entries + [decai.value];
    }
    ids := ids + ListedIf(decai.Some?, s.paidIds);
    entries, paymentMap := AddLimitEntries(entries, paymentMap, ids, limitEntries, limitIds);
  }

  method AddLimitEntries(start: seq<Entry>, startMap: map<nat, seq<int>>, ghost ids: seq<seq<int>>,
                         limitEntries: seq<Entry>, limitIds: seq<int>)
    returns (entries: seq<Entry>, paymentMap: map<nat, seq<int>>)
    requires |limitEntries| == |limitIds| && startMap == Indexed(ids) && |ids| == |start|
    ensures entries == start + limitEntries && paymentMap == Indexed(ids + Singletons(limitIds))
  {
    hide Indexed;
    entries, paymentMap := start, startMap;
    assert ids + Singletons(limitIds[..0]) == ids;
    for i := 0 to |limitEntries|
      invariant entries == start + limitEntries[..i]
      invariant paymentMap == Indexed(ids + Singletons(limitIds[..i]))
    {
      OneMoreIndex(ids + Singletons(limitIds[..i]), [limitIds[i]]);
      assert ids + Singletons(limitIds[..i + 1]) == ids + Singletons(limitIds[..i]) + [[limitIds[i]]];
      paymentMap := paymentMap[|entries| := [limitIds[i]]];
      entries := entries + [limitEntries[i]];
    }
    assert limitIds[..|limitIds|] == limitIds;
  }

  lemma NothingIndexed()
    ensures Indexed([]) == map[] && Singletons([]) == []
  {
  }

  lemma OneMoreIndex(ids: seq<seq<int>>, x: seq<int>)
    ensures Indexed(ids + [x]) == Indexed(ids)[|ids| := x]
  {
  }

  // ---------------------------------------------------------------- what a day's entries keep

  /** The payments of the day are records of one table, each found once. */
  ghost predicate OneTable(day: Day) {
    var s, t := PaymentsOf(day.sessions), PaymentsOf(day.limitSessions);
    && DistinctIds(s) && DistinctIds(t)
    && forall i, j :: 0 <= i < |s| && 0 <= j < |t| && s[i].id == t[j].id ==> s[i] == t[j]
  }

  /** Where each entry is, with its payments. */
  lemma Positions(c: Company, day: Day)
    ensures var d, encai, s, limits := DailyOf(c, day), DayEncai(c, day), DayCollected(c, day), DayLimits(day);
            var decai := DecaiEntry(c, s);
            var m, n := |Listed(encai)|, |Listed(encai)| + |Listed(decai)|;
            && (forall i: nat :: i in d.paymentMap <==> i < |d.entries|) && |d.entries| == n + |limits|
            && (encai.Some? ==>
                 && d.entries != [] && 0 in d.paymentMap
                 && d.entries[0] == encai.value && d.paymentMap[0] == s.cashIds)
            && (decai.Some? ==>
                 && m < |d.entries| && m in d.paymentMap
                 && d.entries[m] == decai.value && d.paymentMap[m] == s.paidIds)
            && forall i: nat | n <= i < |d.entries| ::
                 d.entries[i] == LimitEntry(c, LimitOf(limits[i - n])) && d.paymentMap[i] == [limits[i - n].id]
  {
    hide DayEncai, DayCollected, DayLimits, DecaiEntry, LimitEntry;
    var d := DailyOf(c, day);
    assert |DayIds(c, day)| == |DayEntries(c, day)|;
    assert forall i: nat :: i < |d.entries| ==> d.paymentMap[i] == DayIds(c, day)[i];
  }

  /** Balanced unless it is a DECAI; a FACLI asks for one due amount, its client debit, which is the
      sum of its credit lines. */
  ghost predicate GoodEntry(e: Entry) {
    && InCents(e.lines) && (e.kind != Decai ==> Balanced(e.lines))
    && (e.kind == Facli ==> e.lines != [] && e.lines[0].side == Debit && e.due == Some(e.lines[0].amount))
    && (e.kind == Facli ==> e.lines[0].amount == Amount(e.lines, Credit))
  }

  lemma LimitEntryIsGood(c: Company, p: LimitPayment)
    ensures GoodEntry(LimitEntry(c, p)) && LimitEntry(c, p).kind in {Facli, Avcli}
  {
    hide Amount, TaxItems, Rounded;
    LimitEntryIsBalanced(c, p);
  }

  lemma DecaiIsGood(c: Company, s: Collected)
    ensures DecaiEntry(c, s).Some? ==> GoodEntry(DecaiEntry(c, s).value)
  {
    hide Amount, DecaiItems;
  }

  /** Every entry of every day is good. */
  lemma DayIsBalanced(c: Company, day: Day)
    ensures forall e :: e in DailyOf(c, day).entries ==> GoodEntry(e)
  {
    hide LimitEntry, DecaiEntry, DayEncai, DayCollected, DayLimits, GoodEntry, DailyOf;
    Positions(c, day);
    var d, limits := DailyOf(c, day), DayLimits(day);
    forall i: nat | i < |d.entries| ensures GoodEntry(d.entries[i]) {
      var n := |Listed(DayEncai(c, day))| + |Listed(DecaiEntry(c, DayCollected(c, day)))|;
      if n <= i {
        LimitEntryIsGood(c, LimitOf(limits[i - n]));
      } else {
        DayEncaiIsGood(c, day);
        DecaiIsGood(c, DayCollected(c, day));
      }
    }
  }

  lemma DayEncaiIsGood(c: Company, day: Day)
    ensures DayEncai(c, day).Some? ==> GoodEntry(DayEncai(c, day).value)
  {
    hide EncaiEntry, GoodEntry;
    if DayEncai(c, day).Some? { EncaiIsGood(c, if day.sessions == [] then [] else day.orderLines, day.settlements); }
  }

  lemma EncaiIsGood(c: Company, lines: seq<OrderLine>, settlements: seq<Settlement>)
    requires EncaiEntry(c, lines, settlements).Some?
    ensures GoodEntry(EncaiEntry(c, lines, settlements).value)
  {
    hide Amount, EncaiItems, Equilibrated, Rounded;
    EncaiIsBalanced(c, lines, settlements);
  }

  /** Every entry index is mapped, and no payment is listed twice: not under two entries, not within one. */
  lemma PaymentsAreMappedOnce(c: Company, day: Day)
    requires OneTable(day)
    ensures var d := DailyOf(c, day);
            && (forall i: nat :: i in d.paymentMap <==> i < |d.entries|)
            && (forall i: nat :: i < |d.entries| ==> NoDuplicates(d.paymentMap[i]))
            && (forall i: nat, j: nat, id :: i < j < |d.entries| && id in d.paymentMap[i] ==> id !in d.paymentMap[j])
  {
    hide DayEncai, DecaiEntry, LimitEntry, DailyOf, DayCollected, DayLimits;
    Positions(c, day);
    DisjointIds(c, day);
  }

  /** The identifiers collected and those of the limit payments are all different. */
  lemma DisjointIds(c: Company, day: Day)
    requires OneTable(day)
    ensures var s, limits := DayCollected(c, day), DayLimits(day);
            && NoDuplicates(s.cashIds) && NoDuplicates(s.paidIds) && DistinctIds(limits)
            && (forall id :: id in s.cashIds ==> id !in s.paidIds)
            && (forall k :: 0 <= k < |limits| ==> limits[k].id !in s.cashIds && limits[k].id !in s.paidIds)
  {
    hide Collect, PaymentsOf, LimitPayments, DestinationOf;
    var payments, s, limits := PaymentsOf(day.sessions), DayCollected(c, day), DayLimits(day);
    CollectedIds(c, payments);
    LimitPaymentsAre(PaymentsOf(day.limitSessions));
    forall id | id in s.cashIds ensures id !in s.paidIds {
      assert HasId(payments, id);
    }
    forall k | 0 <= k < |limits| ensures limits[k].id !in s.cashIds && limits[k].id !in s.paidIds {
      if HasId(payments, limits[k].id) {
        var i :| 0 <= i < |payments| && payments[i].id == limits[k].id;
        assert limits[k] in PaymentsOf(day.limitSessions);
        LimitGoesElsewhere(c, payments[i]);
      }
    }
  }

  lemma LimitGoesElsewhere(c: Company, p: PosPayment)
    ensures IsLimit(p) ==> !DestinationOf(c, p).Cash? && !GoesToDecai(c, p)
  {
  }

  // Nothing to send is lost.

  /** Every food, card, cheque or voucher payment is listed with the DECAI. */
  lemma PaidAreListed(c: Company, day: Day, p: PosPayment)
    requires OneTable(day)
    requires p in PaymentsOf(day.sessions) && GoesToDecai(c, p)
    ensures var d := DailyOf(c, day);
            exists i: nat :: i < |d.entries| && i in d.paymentMap
                             && d.entries[i].kind == Decai && p.id in d.paymentMap[i]
  {
    hide DayCollected, PaymentsOf, GoesToDecai, DayEncai, DayLimits, LimitEntry, DailyOf, DecaiEntry;
    Positions(c, day);
    PaidAreCollected(c, day, p);
    assert DailyOf(c, day).entries[|Listed(DayEncai(c, day))|].kind == Decai;
  }

  lemma PaidAreCollected(c: Company, day: Day, p: PosPayment)
    requires OneTable(day) && p in PaymentsOf(day.sessions) && GoesToDecai(c, p)
    ensures var s := DayCollected(c, day);
            p.id in s.paidIds && DecaiEntry(c, s).Some? && DecaiEntry(c, s).value.kind == Decai
  {
    hide Collect, PaymentsOf, GoesToDecai, DecaiItems, Amount, Rounded, Gap;
    var payments := PaymentsOf(day.sessions);
    CollectedIds(c, payments);
    DecaiConserves(c, payments);
    var k :| 0 <= k < |payments| && payments[k] == p;
  }

  /** Every payment on credit has an entry of its own. */
  lemma CreditIsListed(c: Company, day: Day, p: PosPayment)
    requires p in PaymentsOf(day.limitSessions) && IsLimit(p)
    ensures var d := DailyOf(c, day);
            exists i: nat :: i < |d.entries| && i in d.paymentMap
                             && d.entries[i] == LimitEntry(c, LimitOf(p)) && d.paymentMap[i] == [p.id]
  {
    hide *;
    var k := LimitAmongDay(day, p);
    var at := LimitPosition(c, day, k);
  }

  lemma LimitPosition(c: Company, day: Day, k: nat) returns (at: nat)
    requires k < |DayLimits(day)|
    ensures var d := DailyOf(c, day);
            && at < |d.entries| && at in d.paymentMap
            && d.entries[at] == LimitEntry(c, LimitOf(DayLimits(day)[k]))
            && d.paymentMap[at] == [DayLimits(day)[k].id]
  {
    hide DayEncai, DayCollected, DayLimits, DecaiEntry, LimitEntry, DailyOf;
    Positions(c, day);
    at := |Listed(DayEncai(c, day))| + |Listed(DecaiEntry(c, DayCollected(c, day)))| + k;
  }

  lemma LimitAmongDay(day: Day, p: PosPayment) returns (k: nat)
    requires p in PaymentsOf(day.limitSessions) && IsLimit(p)
    ensures k < |DayLimits(day)| && DayLimits(day)[k] == p
  {
    hide PaymentsOf, LimitPayments;
    LimitPaymentsAre(PaymentsOf(day.limitSessions));
    k :| 0 <= k < |DayLimits(day)| && DayLimits(day)[k] == p;
  }

  /** Every cash payment is listed with the ENCAI when there is one. */
  lemma CashIsListed(c: Company, day: Day, p: PosPayment)
    requires OneTable(day)
    requires p in PaymentsOf(day.sessions) && DestinationOf(c, p).Cash?
    requires DayEncai(c, day).Some?
    ensures var d := DailyOf(c, day);
            && d.entries != [] && 0 in d.paymentMap
            && d.entries[0] == DayEncai(c, day).value && d.entries[0].kind == Encai && p.id in d.paymentMap[0]
  {
    hide DayCollected, PaymentsOf, DayEncai, DayLimits, LimitEntry, DailyOf, DecaiEntry, DestinationOf;
    Positions(c, day);
    CashAreCollected(c, day, p);
    DayEncaiIsEncai(c, day);
  }

  lemma CashAreCollected(c: Company, day: Day, p: PosPayment)
    requires OneTable(day) && p in PaymentsOf(day.sessions) && DestinationOf(c, p).Cash?
    ensures p.id in DayCollected(c, day).cashIds
  {
    hide Collect, PaymentsOf, DestinationOf;
    var payments := PaymentsOf(day.sessions);
    CollectedIds(c, payments);
    var k :| 0 <= k < |payments| && payments[k] == p;
  }

  lemma DayEncaiIsEncai(c: Company, day: Day)
    ensures DayEncai(c, day).Some? ==> DayEncai(c, day).value.kind == Encai
  {
  }
}
