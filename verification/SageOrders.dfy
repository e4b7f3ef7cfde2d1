/** The sales of a day by order (custom_api_sage_x3/models/account_move.py): the ENCAI takes every order with a
    payment to send that is not on credit, and each payment on credit charges its whole order again. */
module SageOrders {
  import opened Options
  import opened Ordering
  import opened SageAccounts
  import opened SageDaily
  import opened SageDay
  import opened SageEntries
  import opened SageLines
  import opened Sums

  /** An order of the POS with its payments to send. */
  datatype PaidOrder = PaidOrder(lines: seq<OrderLine>, payments: seq<PosPayment>)

  /** `_get_eligible_pos_order_ids`: some payment to send is not on credit. */
  predicate Eligible(o: PaidOrder) {
    exists i :: 0 <= i < |o.payments| && o.payments[i].mode.Some? && !IsLimit(o.payments[i])
  }

  function EligibleLines(orders: seq<PaidOrder>): seq<OrderLine> {
    if orders == [] then []
    else
      var o := orders[|orders| - 1];
      EligibleLines(orders[..|orders| - 1]) + if Eligible(o) then o.lines else []
  }

  function LimitsOf(orders: seq<PaidOrder>): seq<PosPayment> {
    if orders == [] then [] else LimitsOf(orders[..|orders| - 1]) + LimitPayments(orders[|orders| - 1].payments)
  }

  /** What the searches find for the day, when these are the orders of its sessions. */
  ghost predicate DayOf(day: Day, orders: seq<PaidOrder>) {
    && day.orderLines == EligibleLines(orders) && (day.orderLines != [] ==> day.sessions != [])
    && multiset(DayLimits(day)) == multiset(LimitsOf(orders))
    && forall o, p :: o in orders && p in o.payments ==> p.lines == o.lines
  }

  // ---------------------------------------------------------------- the sale account

  /** What an entry credits to the sale account. */
  ghost function SaleIn(c: Company, e: Option<Entry>): Money {
    if e.Some? then Credited(e.value.lines, c.sale) else 0
  }

  ghost function FacliSale(c: Company): PosPayment -> Money {
    (p: PosPayment) => SaleIn(c, Some(LimitEntry(c, LimitOf(p))))
  }

  /** What the ENCAI and the FACLI of a day credit to the sale account. */
  ghost function SalesSent(c: Company, day: Day): Money {
    SaleIn(c, DayEncai(c, day)) + SumBy(DayLimits(day), FacliSale(c))
  }

  /** The sale account is none of the others. */
  predicate SaleIsSeparate(c: Company) {
    c.sale.Some? && c.sale !in {c.customer, c.customerInterior, c.cash, c.vat9, c.vat18, c.airsi}
  }

  lemma {:induction false} TaxItemAccounts(c: Company, rates: seq<int>, grouped: map<int, Money>, refund: bool)
    requires SaleIsSeparate(c) && forall rate :: rate in rates ==> rate in grouped
    ensures forall i :: 0 <= i < |TaxItems(c, rates, grouped, refund)| ==>
                          TaxItems(c, rates, grouped, refund)[i].account != c.sale
  {
    if rates != [] {
      assert rates[|rates| - 1] in rates;
      TaxItemAccounts(c, rates[..|rates| - 1], grouped, refund);
    }
  }

  lemma {:induction false} DayTaxItemAccounts(c: Company, rates: seq<int>, grouped: map<int, Money>)
    requires SaleIsSeparate(c) && forall rate :: rate in rates ==> rate in grouped
    ensures forall i :: 0 <= i < |DayTaxItems(c, rates, grouped)| ==>
              DayTaxItems(c, rates, grouped)[i].account != c.sale
    ensures Amount(DayTaxItems(c, rates, grouped), Credit) >= 0
  {
    hide Amount, Round, TaxAccount;
    NoItems();
    if rates != [] {
      var rate := rates[|rates| - 1];
      assert rate in rates;
      DayTaxItemAccounts(c, rates[..|rates| - 1], grouped);
      AmountAppend(DayTaxItems(c, rates[..|rates| - 1], grouped),
                   Line(TaxAccount(c, rate), Credit, grouped[rate], None), Credit);
      TaxAccountIsNotSale(c, rate);
    }
  }

  lemma TaxAccountIsNotSale(c: Company, rate: int)
    requires SaleIsSeparate(c)
    ensures TaxAccount(c, rate) != c.sale
  {
  }

  predicate NoNegative(settlements: seq<Settlement>) {
    forall i :: 0 <= i < |settlements| ==> settlements[i].amount >= 0
  }

  lemma {:induction false} SettlementAccounts(c: Company, settlements: seq<Settlement>)
    requires SaleIsSeparate(c)
    ensures forall i :: 0 <= i < |SettlementItems(c, settlements)| ==>
              SettlementItems(c, settlements)[i].account != c.sale
    ensures NoNegative(settlements) ==> Amount(SettlementItems(c, settlements), Credit) >= 0
  {
    if settlements != [] { SettlementAccounts(c, settlements[..|settlements| - 1]); }
  }

  /** A FACLI credits the sale of the whole order, whatever was paid of it, unless no line is taxed. */
  lemma FacliCreditsTheOrder(c: Company, p: LimitPayment)
    requires SaleIsSeparate(c) && p.amount > 0
    ensures SaleIn(c, Some(LimitEntry(c, p))) ==
            if AnyTaxed(p.lines) then Round(TotalExcluded(p.lines)) else Round(p.amount)
  {
    hide TaxItems, Amount, Round, Rounded, Equilibrated, TotalExcluded, AnyTaxed, Credited;
    var items, lines := LimitItems(c, p), LimitEntry(c, p).lines;
    var taxes := TaxItems(c, Ascending(TaxesOf(p).Keys), TaxesOf(p), false);
    LimitEntryIsBalanced(c, p);
    assert lines[1..] == Rounded(items)[1..];
    var item := items[1];
    assert item == Line(c.sale, Credit, if AnyTaxed(p.lines) then Round(TotalExcluded(p.lines)) else p.amount, None);
    assert items == [items[0], item] + taxes;
    TaxItemAccounts(c, Ascending(TaxesOf(p).Keys), TaxesOf(p), false);
    RoundKeepsCents(Round(TotalExcluded(p.lines)));
    var rest, sale := lines[2..], RoundedLine(item);
    assert lines[1] == Rounded(items)[1] == sale;
    assert lines == [lines[0]] + ([sale] + rest);
    forall i | 0 <= i < |rest| ensures rest[i].account != c.sale {
      assert rest[i] == lines[1..][i + 1] == Rounded(items)[i + 2];
      assert items[i + 2] == taxes[i];
    }
    NothingOn(c.sale, rest);
    ClientIsNotSale(c, p);
    CreditedConcat([lines[0]], [sale] + rest, c.sale);
    CreditedConcat([sale], rest, c.sale);
    OneLine(c.sale, lines[0]);
    OneLine(c.sale, sale);
  }

  lemma ClientIsNotSale(c: Company, p: LimitPayment)
    requires SaleIsSeparate(c)
    ensures LimitEntry(c, p).lines[0].account != c.sale
  {
  }

  /** The ENCAI credits the sale of the orders it takes. */
  lemma EncaiCreditsItsOrders(c: Company, lines: seq<OrderLine>, settlements: seq<Settlement>)
    requires SaleIsSeparate(c) && NoNegative(settlements) && TotalExcluded(lines) >= 0
    ensures SaleIn(c, EncaiEntry(c, lines, settlements)) == Round(TotalExcluded(lines))
  {
    hide Amount, Round, Rounded, Equilibrated, DayTaxItems, SettlementItems, TotalExcluded, GroupedTaxes, AllTaxes,
         Credited;
    var items, e := EncaiItems(c, lines, settlements), EncaiEntry(c, lines, settlements);
    var total, taxes := Round(TotalExcluded(lines)), GroupedTaxes(AllTaxes(lines));
    var others := DayTaxItems(c, Ascending(taxes.Keys), taxes) + SettlementItems(c, settlements);
    assert items == SaleItems(c, total) + others;
    DayTaxItemAccounts(c, Ascending(taxes.Keys), taxes);
    SettlementAccounts(c, settlements);
    RoundNotNegative(TotalExcluded(lines));
    AmountConcat(DayTaxItems(c, Ascending(taxes.Keys), taxes), SettlementItems(c, settlements), Credit);
    AmountConcat(SaleItems(c, total), others, Credit);
    SaleItemsAmount(c, total);
    if e.Some? {
      EncaiIsBalanced(c, lines, settlements);
      var cash := e.value.lines[|items|];
      assert e.value.lines == Rounded(items) + [cash];
      RoundedConcat(SaleItems(c, total), others);
      forall i | 0 <= i < |others| ensures Rounded(others)[i].account != c.sale { }
      NothingOn(c.sale, Rounded(others));
      OneLine(c.sale, cash);
      CreditedConcat(Rounded(items), [cash], c.sale);
      CreditedConcat(Rounded(SaleItems(c, total)), Rounded(others), c.sale);
    }
  }

  lemma SaleItemsAmount(c: Company, total: Money)
    requires total >= 0 && WholeCents(total) && c.sale.Some?
    ensures Amount(SaleItems(c, total), Credit) == total
    ensures Credited(Rounded(SaleItems(c, total)), c.sale) == total
  {
    hide Round;
    var l := Line(c.sale, Credit, total, None);
    RoundKeepsCents(total);
    NoItems();
    RoundedAppend([], l);
    AmountAppend([], l, Credit);
    assert [] + [l] == [l];
    OneLine(c.sale, l);
    NoLines(c.sale);
  }

  // ---------------------------------------------------------------- every order

  /** How many entries of the day credit the sale of the order. */
  function Times(o: PaidOrder): nat {
    (if Eligible(o) then 1 else 0) + |LimitPayments(o.payments)|
  }

  /** An order with something to pay, all payments on credit being positive. */
  predicate IsSale(o: PaidOrder) {
    && TotalExcluded(o.lines) > 0
    && forall i :: 0 <= i < |o.payments| && IsLimit(o.payments[i]) ==> o.payments[i].amount > 0
  }

  ghost function EligibleSale(): PaidOrder -> Money {
    (o: PaidOrder) => if Eligible(o) then TotalExcluded(o.lines) else 0
  }

  /** What a payment on credit of an order with these lines credits. */
  ghost function CreditSale(lines: seq<OrderLine>): PosPayment -> Money {
    (p: PosPayment) => if AnyTaxed(lines) then Round(TotalExcluded(lines)) else Round(p.amount)
  }

  ghost function LimitSale(): PaidOrder -> Money {
    (o: PaidOrder) => SumBy(LimitPayments(o.payments), CreditSale(o.lines))
  }

  lemma {:induction false} EligibleTotal(orders: seq<PaidOrder>)
    ensures TotalExcluded(EligibleLines(orders)) == SumBy(orders, EligibleSale())
  {
    hide TotalExcluded, Eligible;
    if orders == [] {
      NothingSold();
    } else {
      var init, o := orders[..|orders| - 1], orders[|orders| - 1];
      EligibleTotal(init);
      TotalExcludedConcat(EligibleLines(init), if Eligible(o) then o.lines else []);
      NothingSold();
    }
  }

  lemma NothingSold()
    ensures TotalExcluded([]) == 0 == SumBy([], EligibleSale()) && SumBy([], LimitSale()) == 0 == SumBy([], Sale())
  {
  }

  lemma {:induction false} TotalExcludedConcat(s: seq<OrderLine>, t: seq<OrderLine>)
    ensures TotalExcluded(s + t) == TotalExcluded(s) + TotalExcluded(t)
  {
    if t == [] {
      assert s + t == s;
    } else {
      TotalExcludedConcat(s, t[..|t| - 1]);
      assert (s + t)[..|s + t| - 1] == s + t[..|t| - 1];
    }
  }

  lemma {:induction false} LimitTotal(c: Company, orders: seq<PaidOrder>)
    requires SaleIsSeparate(c) && forall o :: o in orders ==> IsSale(o)
    requires forall o, p :: o in orders && p in o.payments ==> p.lines == o.lines
    ensures SumBy(LimitsOf(orders), FacliSale(c)) == SumBy(orders, LimitSale())
  {
    hide IsSale, SaleIsSeparate, TotalExcluded, LimitPayments, FacliSale;
    if orders == [] {
      NothingSold();
      NoFacli(c);
    } else {
      var init, o := orders[..|orders| - 1], orders[|orders| - 1];
      assert o in orders && forall x :: x in init ==> x in orders;
      LimitTotal(c, init);
      OrderLimits(c, o);
      SumByConcat(LimitsOf(init), LimitPayments(o.payments), FacliSale(c));
    }
  }

  lemma NoFacli(c: Company)
    ensures SumBy([], FacliSale(c)) == 0
  {
  }

  lemma OrderLimits(c: Company, o: PaidOrder)
    requires SaleIsSeparate(c) && IsSale(o) && forall p :: p in o.payments ==> p.lines == o.lines
    ensures SumBy(LimitPayments(o.payments), FacliSale(c)) == SumBy(LimitPayments(o.payments), CreditSale(o.lines))
  {
    hide LimitPayments, Round, LimitEntry, TotalExcluded, AnyTaxed, SaleIn;
    LimitPaymentsAre(o.payments);
    forall p | p in LimitPayments(o.payments) ensures FacliSale(c)(p) == CreditSale(o.lines)(p) {
      FacliCreditsTheOrder(c, LimitOf(p));
    }
    SameWeights(LimitPayments(o.payments), FacliSale(c), CreditSale(o.lines));
  }

  lemma {:induction false} SameWeights(payments: seq<PosPayment>, v: PosPayment -> Money, w: PosPayment -> Money)
    requires forall p :: p in payments ==> v(p) == w(p)
    ensures SumBy(payments, v) == SumBy(payments, w)
  {
    if payments != [] {
      assert payments[|payments| - 1] in payments;
      SameWeights(payments[..|payments| - 1], v, w);
    }
  }

  lemma {:induction false} SameSale(payments: seq<PosPayment>, weight: PosPayment -> Money, x: Money)
    requires forall p :: p in payments ==> weight(p) == x
    ensures SumBy(payments, weight) == |payments| * x
  {
    if payments != [] {
      assert payments[|payments| - 1] in payments;
      SameSale(payments[..|payments| - 1], weight, x);
    }
  }

  lemma {:induction false} EligibleIsPositive(orders: seq<PaidOrder>)
    requires forall o :: o in orders ==> IsSale(o)
    ensures SumBy(orders, EligibleSale()) >= 0
  {
    if orders != [] {
      assert orders[|orders| - 1] in orders;
      EligibleIsPositive(orders[..|orders| - 1]);
    }
  }

  /** What a day credits to the sale account: once the rounded sum of the orders with a payment not on
      credit, and for each payment on credit the whole order again, or the payment if no line is taxed. */
  lemma SalesSentAre(c: Company, day: Day, orders: seq<PaidOrder>)
    requires SaleIsSeparate(c) && NoNegative(day.settlements) && DayOf(day, orders)
    requires forall o :: o in orders ==> IsSale(o)
    ensures SalesSent(c, day) == Round(SumBy(orders, EligibleSale())) + SumBy(orders, LimitSale())
  {
    hide EncaiEntry, LimitPayments, SumBy, Round, IsSale, SaleIsSeparate, TotalExcluded, EligibleLines, FacliSale,
         SaleIn;
    EligibleTotal(orders);
    EligibleIsPositive(orders);
    EncaiCreditsItsOrders(c, EligibleLines(orders), day.settlements);
    SumByPermutation(DayLimits(day), LimitsOf(orders), FacliSale(c));
    LimitTotal(c, orders);
  }

  /** A taxed sale in whole cents, with at least one payment to send. */
  predicate SaleInCents(o: PaidOrder) {
    IsSale(o) && AnyTaxed(o.lines) && WholeCents(TotalExcluded(o.lines)) && Times(o) >= 1
  }

  ghost function Sale(): PaidOrder -> Money {
    (o: PaidOrder) => TotalExcluded(o.lines)
  }

  lemma {:induction false} SumsByTimes(orders: seq<PaidOrder>)
    requires forall o :: o in orders ==> SaleInCents(o)
    ensures WholeCents(SumBy(orders, EligibleSale()))
    ensures SumBy(orders, EligibleSale()) + SumBy(orders, LimitSale()) >= SumBy(orders, Sale())
    ensures SumBy(orders, EligibleSale()) + SumBy(orders, LimitSale()) == SumBy(orders, Sale()) <==>
            forall o :: o in orders ==> Times(o) == 1
  {
    hide SumBy, SaleInCents, Times, EligibleSale, LimitSale, Sale;
    if orders == [] {
      NothingSold();
    } else {
      var init, o := orders[..|orders| - 1], orders[|orders| - 1];
      assert orders == init + [o];
      assert forall x :: x in orders <==> x in init || x == o;
      SumsByTimes(init);
      OneSale(o);
      SumByAppend(init, o, EligibleSale());
      SumByAppend(init, o, LimitSale());
      SumByAppend(init, o, Sale());
    }
  }

  lemma OneSale(o: PaidOrder)
    requires SaleInCents(o)
    ensures WholeCents(EligibleSale()(o))
    ensures EligibleSale()(o) + LimitSale()(o) >= Sale()(o)
    ensures EligibleSale()(o) + LimitSale()(o) == Sale()(o) <==> Times(o) == 1
  {
    hide TotalExcluded, Eligible, LimitPayments, Round, AnyTaxed;
    var sale := TotalExcluded(o.lines);
    RoundKeepsCents(sale);
    SameSale(LimitPayments(o.payments), CreditSale(o.lines), sale);
    AtLeast(|LimitPayments(o.payments)|, sale);
  }

  lemma AtLeast(n: nat, x: int)
    requires x > 0
    ensures n == 0 ==> n * x == 0
    ensures n == 1 ==> n * x == x && n * x != 0
    ensures n >= 2 ==> n * x > x
    ensures n >= 1 ==> n * x >= x
  {
    if n >= 2 { assert n * x == x + (n - 1) * x; }
  }

  /** The sale account gets every order of the day once if and only if no order has both a payment on
      credit and another one to send, and none has two payments on credit. */
  lemma EverySaleIsSentOnceIff(c: Company, day: Day, orders: seq<PaidOrder>)
    requires SaleIsSeparate(c) && NoNegative(day.settlements) && DayOf(day, orders)
    requires forall o :: o in orders ==> SaleInCents(o)
    ensures SalesSent(c, day) >= SumBy(orders, Sale())
    ensures SalesSent(c, day) == SumBy(orders, Sale()) <==>
            forall o :: o in orders ==>
              |LimitPayments(o.payments)| <= 1 && (Eligible(o) ==> |LimitPayments(o.payments)| == 0)
  {
    hide SumBy, Round, IsSale, Eligible, LimitPayments, SalesSent, TotalExcluded;
    SalesSentAre(c, day, orders);
    SumsByTimes(orders);
    RoundKeepsCents(SumBy(orders, EligibleSale()));
  }
}
