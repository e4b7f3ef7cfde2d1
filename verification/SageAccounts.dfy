/** What each account gets from an entry, read from the order lines, the settlements and the tax lines. */
module SageAccounts {
  import opened Digraphs
  import opened Options
  import opened Ordering
  import opened SageDaily
  import opened SageEntries
  import opened SageLines
  import opened Sums

  // ---------------------------------------------------------------- one account of an entry

  /** What a line adds to the credit of an account. */
  ghost function CreditOn(a: Option<Account>): Line -> Money {
    (l: Line) => if l.account != a then 0 else if l.side == Credit then l.amount else 0 - l.amount
  }

  /** What the lines credit to an account, less what they debit. */
  ghost function Credited(lines: seq<Line>, a: Option<Account>): Money {
    SumBy(lines, CreditOn(a))
  }

  lemma CreditedConcat(s: seq<Line>, t: seq<Line>, a: Option<Account>)
    ensures Credited(s + t, a) == Credited(s, a) + Credited(t, a)
  {
    SumByConcat(s, t, CreditOn(a));
  }

  lemma CreditedAppend(s: seq<Line>, l: Line, a: Option<Account>)
    ensures Credited(s + [l], a) == Credited(s, a) + CreditOn(a)(l)
  {
    SumByAppend(s, l, CreditOn(a));
  }

  lemma NoLines(a: Option<Account>)
    ensures Credited([], a) == 0
  {
  }

  lemma OneLine(a: Option<Account>, l: Line)
    ensures Credited([l], a) == CreditOn(a)(l)
  {
    CreditedAppend([], l, a);
    assert [] + [l] == [l];
  }

  lemma {:induction false} NothingOn(a: Option<Account>, lines: seq<Line>)
    requires forall i :: 0 <= i < |lines| ==> lines[i].account != a
    ensures Credited(lines, a) == 0
  {
    if lines != [] { NothingOn(a, lines[..|lines| - 1]); }
  }

  ghost function OnEach(lines: seq<Line>): Option<Account> -> Money {
    (a: Option<Account>) => Credited(lines, a)
  }

  /** Lines of one side add up, account by account. */
  lemma {:induction false} SideByAccount(lines: seq<Line>, side: Side, accounts: seq<Option<Account>>)
    requires NoDuplicates(accounts)
    requires forall i :: 0 <= i < |lines| ==> lines[i].side == side && lines[i].account in accounts
    ensures SumBy(accounts, OnEach(lines)) == if side == Credit then Amount(lines, side) else 0 - Amount(lines, side)
  {
    if lines == [] {
      NoneEach(accounts);
    } else {
      hide SumBy;
      var init, last := lines[..|lines| - 1], lines[|lines| - 1];
      assert lines == init + [last];
      SideByAccount(init, side, accounts);
      OneEach(accounts, init, last);
    }
  }

  lemma {:induction false} NoneEach(accounts: seq<Option<Account>>)
    ensures SumBy(accounts, OnEach([])) == 0
  {
    if accounts != [] { NoneEach(accounts[..|accounts| - 1]); }
  }

  lemma {:induction false} OneEach(accounts: seq<Option<Account>>, init: seq<Line>, last: Line)
    requires NoDuplicates(accounts)
    ensures SumBy(accounts, OnEach(init + [last])) == SumBy(accounts, OnEach(init)) +
              if last.account !in accounts then 0 else if last.side == Credit then last.amount else 0 - last.amount
  {
    if accounts != [] {
      var rest, a := accounts[..|accounts| - 1], accounts[|accounts| - 1];
      assert accounts == rest + [a];
      OneEach(rest, init, last);
      CreditedAppend(init, last, a);
    }
  }

  // ---------------------------------------------------------------- the taxes of order lines

  ghost function Excluded(): OrderLine -> Money {
    (l: OrderLine) => l.excluded
  }

  ghost function AtRate(rate: int): Tax -> Money {
    (t: Tax) => if t.rate == rate then t.amount else 0
  }

  ghost function LineTax(rate: int): OrderLine -> Money {
    (l: OrderLine) => SumBy(l.taxes, AtRate(rate))
  }

  /** The tax of the order lines at a rate. */
  ghost function TaxedAt(lines: seq<OrderLine>, rate: int): Money {
    SumBy(lines, LineTax(rate))
  }

  ghost function Rates(lines: seq<OrderLine>): set<int> {
    set l, t | l in lines && t in l.taxes :: t.rate
  }

  lemma {:induction false} TotalExcludedIs(lines: seq<OrderLine>)
    ensures TotalExcluded(lines) == SumBy(lines, Excluded())
  {
    if lines != [] { TotalExcludedIs(lines[..|lines| - 1]); }
  }

  lemma {:induction false} TaxAtIs(taxes: seq<Tax>, rate: int)
    ensures TaxAt(taxes, rate) == SumBy(taxes, AtRate(rate))
  {
    if taxes != [] { TaxAtIs(taxes[..|taxes| - 1], rate); }
  }

  lemma {:induction false} AllTaxesAre(lines: seq<OrderLine>, rate: int)
    ensures SumBy(AllTaxes(lines), AtRate(rate)) == TaxedAt(lines, rate)
    ensures rate in Rates(lines) <==> exists t :: t in AllTaxes(lines) && t.rate == rate
  {
    if lines != [] {
      var init, last := lines[..|lines| - 1], lines[|lines| - 1];
      assert lines == init + [last];
      assert forall l :: l in lines <==> l in init || l == last;
      AllTaxesAre(init, rate);
      SumByConcat(AllTaxes(init), last.taxes, AtRate(rate));
    }
  }

  lemma GroupedAre(lines: seq<OrderLine>)
    ensures GroupedTaxes(AllTaxes(lines)) == map rate | rate in Rates(lines) :: TaxedAt(lines, rate)
  {
    hide SumBy, AllTaxes, TaxAt;
    forall rate ensures TaxAt(AllTaxes(lines), rate) == TaxedAt(lines, rate)
                && (rate in Rates(lines) <==> exists t :: t in AllTaxes(lines) && t.rate == rate) {
      TaxAtIs(AllTaxes(lines), rate);
      AllTaxesAre(lines, rate);
    }
  }

  // ---------------------------------------------------------------- three tax accounts

  datatype Vat = Vat18 | Vat9 | Airsi

  /** The rate in whole percents, by distance: 17.5 and 18.5 round to 18, 8.5 and 9.5 do not round to 9. */
  predicate Rounds(rate: int, vat: Vat) {
    match vat
    case Vat18 => 2 * Abs(rate - Cents(18)) <= CENT
    case Vat9 => 2 * Abs(rate - Cents(9)) < CENT
    case Airsi => 2 * Abs(rate - Cents(18)) > CENT && 2 * Abs(rate - Cents(9)) >= CENT
  }

  function VatAccount(c: Company, vat: Vat): Option<Account> {
    match vat
    case Vat18 => c.vat18
    case Vat9 => c.vat9
    case Airsi => c.airsi
  }

  /** No account serves two purposes. */
  predicate SeparateAccounts(c: Company) {
    && c.sale !in {c.customer, c.customerInterior, c.cash, c.vat9, c.vat18, c.airsi}
    && c.vat18 !in {c.customer, c.customerInterior, c.cash, c.vat9, c.airsi}
    && c.vat9 !in {c.customer, c.customerInterior, c.cash, c.airsi}
    && c.airsi !in {c.customer, c.customerInterior, c.cash}
    && c.cash !in {c.customer, c.customerInterior}
  }

  lemma TaxAccountIs(c: Company, rate: int, vat: Vat)
    requires SeparateAccounts(c)
    ensures TaxAccount(c, rate) == VatAccount(c, vat) <==> Rounds(rate, vat)
  {
    RoundTo(rate, 18);
    RoundTo(rate, 9);
  }

  lemma RoundTo(x: Money, n: int)
    ensures Round(x) / CENT == n <==>
            2 * Abs(x - CENT * n) < CENT || (2 * Abs(x - CENT * n) == CENT && n % 2 == 0)
  {
    if 2 * Abs(x - CENT * n) < CENT || (2 * Abs(x - CENT * n) == CENT && n % 2 == 0) {
      RoundIsUnique(x, CENT * n);
    }
    assert Round(x) == CENT * (Round(x) / CENT);
  }

  ghost function VatWeight(lines: seq<OrderLine>, vat: Vat): int -> Money {
    (rate: int) => if Rounds(rate, vat) && TaxedAt(lines, rate) > 0 then Round(TaxedAt(lines, rate)) else 0
  }

  /** The rounded taxes of the rates of one account, those that are positive. */
  ghost function VatOf(lines: seq<OrderLine>, vat: Vat): Money {
    Total(map rate | rate in Rates(lines) :: VatWeight(lines, vat)(rate))
  }

  ghost function PositiveTax(lines: seq<OrderLine>): int -> Money {
    (rate: int) => if TaxedAt(lines, rate) > 0 then TaxedAt(lines, rate) else 0
  }

  /** The exact taxes of all rates, those that are positive. */
  ghost function ExactTaxes(lines: seq<OrderLine>): Money {
    Total(map rate | rate in Rates(lines) :: PositiveTax(lines)(rate))
  }

  lemma {:induction false} SumOfKeys(keys: seq<int>, s: set<int>, weight: int -> int)
    requires NoDuplicates(keys) && forall k :: k in keys <==> k in s
    ensures SumBy(keys, weight) == Total(map k | k in s :: weight(k))
    decreases |keys|
  {
    var m := map k | k in s :: weight(k);
    hide Total, SumBy;
    if keys == [] {
      forall k ensures k !in s { assert k !in keys; }
      assert m == map[];
      NoWeight(weight);
      SageDaily.NoTotal();
    } else {
      var init, last := keys[..|keys| - 1], keys[|keys| - 1];
      SumByAppend(init, last, weight);
      assert keys == init + [last];
      forall k ensures k in init <==> k in s - {last} {
        if k in init { assert k in keys; }
      }
      SumOfKeys(init, s - {last}, weight);
      TotalSplit(m, last);
      assert m - {last} == map k | k in s - {last} :: weight(k);
    }
  }

  lemma AscendingRates(lines: seq<OrderLine>, weight: int -> int)
    ensures SumBy(Ascending(Rates(lines)), weight) == Total(map rate | rate in Rates(lines) :: weight(rate))
  {
    hide Total, SumBy, Rates;
    SumOfKeys(Ascending(Rates(lines)), Rates(lines), weight);
  }

  /** The lines that are neither for the client nor for the cash, added up. */
  lemma FourAccounts(c: Company, lines: seq<Line>, side: Side)
    requires SeparateAccounts(c)
    requires forall i :: 0 <= i < |lines| ==>
               lines[i].side == side && lines[i].account in {c.sale, c.vat18, c.vat9, c.airsi}
    ensures (if side == Credit then Amount(lines, side) else 0 - Amount(lines, side)) ==
            Credited(lines, c.sale) + Credited(lines, c.vat18) + Credited(lines, c.vat9) + Credited(lines, c.airsi)
  {
    var w := OnEach(lines);
    SideByAccount(lines, side, [c.sale, c.vat18, c.vat9, c.airsi]);
    hide SumBy, Amount;
    assert SumBy([], w) == 0 by { NoWeight(w); }
    SumByAppend([], c.sale, w);
    SumByAppend([c.sale], c.vat18, w);
    SumByAppend([c.sale, c.vat18], c.vat9, w);
    SumByAppend([c.sale, c.vat18, c.vat9], c.airsi, w);
    assert [] + [c.sale] == [c.sale] && [c.sale] + [c.vat18] == [c.sale, c.vat18]
      && [c.sale, c.vat18] + [c.vat9] == [c.sale, c.vat18, c.vat9]
      && [c.sale, c.vat18, c.vat9] + [c.airsi] == [c.sale, c.vat18, c.vat9, c.airsi];
  }

  // ---------------------------------------------------------------- the ENCAI

  /** The settlements of customers that have a number. */
  function Kept(settlements: seq<Settlement>): seq<Settlement> {
    if settlements == [] then []
    else
      var s := settlements[|settlements| - 1];
      Kept(settlements[..|settlements| - 1]) +
      if s.partner.Some? && s.partner.value.customer.Some? then [s] else []
  }

  /** The credit line of a settlement kept: on the customer account, for the customer itself, or for the
      sundry customer when its number is generic. */
  function SettlementLine(c: Company, s: Settlement): Line
    requires s.partner.Some?
  {
    Line(c.customer, Credit, Round(s.amount), if s.partner.value.generic then c.sundry else s.partner.value.customer)
  }

  lemma {:induction false} KeptHaveNumbers(settlements: seq<Settlement>)
    ensures forall i :: 0 <= i < |Kept(settlements)| ==>
              Kept(settlements)[i].partner.Some? && Kept(settlements)[i].partner.value.customer.Some?
  {
    if settlements != [] { KeptHaveNumbers(settlements[..|settlements| - 1]); }
  }

  lemma {:induction false} SettlementLines(c: Company, settlements: seq<Settlement>)
    ensures var kept, lines := Kept(settlements), Rounded(SettlementItems(c, settlements));
            && |lines| == |kept|
            && forall i :: 0 <= i < |kept| ==> kept[i].partner.Some? && lines[i] == SettlementLine(c, kept[i])
  {
    hide Round;
    if settlements != [] {
      var init, s := settlements[..|settlements| - 1], settlements[|settlements| - 1];
      SettlementLines(c, init);
      RoundedAppend(SettlementItems(c, init), Line(c.customer, Credit, s.amount, PartyOf(c, s.partner)));
    }
  }

  ghost function RoundedAmount(): Settlement -> Money {
    (s: Settlement) => Round(s.amount)
  }

  ghost function ExactAmount(): Settlement -> Money {
    (s: Settlement) => s.amount
  }

  lemma {:induction false} SettlementTotal(c: Company, settlements: seq<Settlement>)
    ensures Amount(Rounded(SettlementItems(c, settlements)), Credit) == SumBy(Kept(settlements), RoundedAmount())
    ensures Amount(SettlementItems(c, settlements), Credit) == SumBy(Kept(settlements), ExactAmount())
  {
    hide Round, Amount, Rounded, SumBy;
    if settlements == [] {
      NoItems();
      assert SumBy([], RoundedAmount()) == 0 == SumBy([], ExactAmount()) by { NoSettlements(); }
    } else {
      var init, s := settlements[..|settlements| - 1], settlements[|settlements| - 1];
      var l := Line(c.customer, Credit, s.amount, PartyOf(c, s.partner));
      SettlementTotal(c, init);
      RoundedAppend(SettlementItems(c, init), l);
      AmountAppend(Rounded(SettlementItems(c, init)), RoundedLine(l), Credit);
      AmountAppend(SettlementItems(c, init), l, Credit);
      SumByAppend(Kept(init), s, RoundedAmount());
      SumByAppend(Kept(init), s, ExactAmount());
      assert Kept(init) + [] == Kept(init);
    }
  }

  lemma NoSettlements()
    ensures SumBy([], RoundedAmount()) == 0 == SumBy([], ExactAmount())
  {
  }

  /** The tax lines of an ENCAI, by account and in all. */
  lemma {:induction false} DayTaxesOn(c: Company, lines: seq<OrderLine>, rates: seq<int>, grouped: map<int, Money>,
                                      vat: Vat)
    requires SeparateAccounts(c)
    requires forall rate :: rate in rates ==> rate in grouped && grouped[rate] == TaxedAt(lines, rate)
    ensures Credited(Rounded(DayTaxItems(c, rates, grouped)), VatAccount(c, vat)) == SumBy(rates, VatWeight(lines, vat))
  {
    hide Round, Rounded, TaxAccount, TaxedAt, Credited, SumBy, Rounds;
    NoItems();
    if rates == [] {
      NoLines(VatAccount(c, vat));
      assert SumBy([], VatWeight(lines, vat)) == 0 by { NoWeight(VatWeight(lines, vat)); }
    } else {
      var init, rate := rates[..|rates| - 1], rates[|rates| - 1];
      assert rates == init + [rate];
      assert rate in rates;
      DayTaxesOn(c, lines, init, grouped, vat);
      var l := Line(TaxAccount(c, rate), Credit, grouped[rate], None);
      TaxAccountIs(c, rate, vat);
      RoundedAppend(DayTaxItems(c, init, grouped), l);
      CreditedAppend(Rounded(DayTaxItems(c, init, grouped)), RoundedLine(l), VatAccount(c, vat));
      SumByAppend(init, rate, VatWeight(lines, vat));
    }
  }

  lemma NoWeight<T>(weight: T -> int)
    ensures SumBy([], weight) == 0
  {
  }

  lemma {:induction false} DayTaxAccounts(c: Company, rates: seq<int>, grouped: map<int, Money>)
    requires forall rate :: rate in rates ==> rate in grouped
    ensures forall i :: 0 <= i < |DayTaxItems(c, rates, grouped)| ==>
              DayTaxItems(c, rates, grouped)[i].account in {c.vat18, c.vat9, c.airsi}
  {
    if rates != [] {
      assert rates[|rates| - 1] in rates;
      DayTaxAccounts(c, rates[..|rates| - 1], grouped);
    }
  }

  lemma {:induction false} DayTaxesExact(c: Company, lines: seq<OrderLine>, rates: seq<int>, grouped: map<int, Money>)
    requires forall rate :: rate in rates ==> rate in grouped && grouped[rate] == TaxedAt(lines, rate)
    ensures Amount(DayTaxItems(c, rates, grouped), Credit) == SumBy(rates, PositiveTax(lines))
  {
    hide Amount, TaxAccount, TaxedAt, SumBy;
    NoItems();
    if rates == [] {
      assert SumBy([], PositiveTax(lines)) == 0 by { NoWeight(PositiveTax(lines)); }
    } else {
      var init, rate := rates[..|rates| - 1], rates[|rates| - 1];
      assert rates == init + [rate];
      assert rate in rates;
      DayTaxesExact(c, lines, init, grouped);
      AmountAppend(DayTaxItems(c, init, grouped), Line(TaxAccount(c, rate), Credit, grouped[rate], None), Credit);
      SumByAppend(init, rate, PositiveTax(lines));
    }
  }

  function Positive(x: Money): Money {
    if x > 0 then x else 0
  }

  /** The rounded amount without tax, if it is positive. */
  ghost function SaleOf(lines: seq<OrderLine>): Money {
    Positive(Round(SumBy(lines, Excluded())))
  }

  /** The sale and tax lines of an ENCAI, as they are sent. */
  ghost function SaleAndTaxes(c: Company, lines: seq<OrderLine>): seq<Line> {
    var taxes := GroupedTaxes(AllTaxes(lines));
    Rounded(SaleItems(c, Round(TotalExcluded(lines))) + DayTaxItems(c, Ascending(taxes.Keys), taxes))
  }

  lemma SaleItemsOn(c: Company, total: Money, a: Option<Account>)
    requires WholeCents(total)
    ensures Credited(Rounded(SaleItems(c, total)), a) == if a == c.sale then Positive(total) else 0
    ensures Amount(SaleItems(c, total), Credit) == Positive(total)
  {
    hide Round;
    var l := Line(c.sale, Credit, total, None);
    RoundKeepsCents(total);
    NoItems();
    NoLines(a);
    RoundedAppend([], l);
    assert [] + [l] == [l] && Rounded([l]) == [l];
    OneLine(a, l);
    AmountAppend([], l, Credit);
  }

  /** The sale and tax accounts. */
  lemma SaleAndTaxesPosted(c: Company, lines: seq<OrderLine>)
    requires SeparateAccounts(c)
    ensures Credited(SaleAndTaxes(c, lines), c.sale) == SaleOf(lines)
    ensures forall vat: Vat :: Credited(SaleAndTaxes(c, lines), VatAccount(c, vat)) == VatOf(lines, vat)
    ensures forall i :: 0 <= i < |SaleAndTaxes(c, lines)| ==>
              && SaleAndTaxes(c, lines)[i].account in {c.sale, c.vat18, c.vat9, c.airsi}
              && SaleAndTaxes(c, lines)[i].side == Credit
  {
    hide Round, Rounded, Credited, GroupedTaxes, AllTaxes, TotalExcluded, SumBy, TaxedAt, Rates, Total;
    GroupedAre(lines);
    TotalExcludedIs(lines);
    var taxes, total := GroupedTaxes(AllTaxes(lines)), Round(TotalExcluded(lines));
    assert taxes.Keys == Rates(lines);
    var rates := Ascending(taxes.Keys);
    var sale, day := SaleItems(c, total), DayTaxItems(c, rates, taxes);
    RoundedConcat(sale, day);
    DayTaxAccounts(c, rates, taxes);
    forall vat: Vat ensures Credited(SaleAndTaxes(c, lines), VatAccount(c, vat)) == VatOf(lines, vat) {
      CreditedConcat(Rounded(sale), Rounded(day), VatAccount(c, vat));
      SaleItemsOn(c, total, VatAccount(c, vat));
      DayTaxesOn(c, lines, rates, taxes, vat);
      AscendingRates(lines, VatWeight(lines, vat));
    }
    CreditedConcat(Rounded(sale), Rounded(day), c.sale);
    SaleItemsOn(c, total, c.sale);
    NothingOn(c.sale, Rounded(day));
  }

  /** An ENCAI is sent if and only if the sale, the positive taxes and the settlements kept are positive
      in all. */
  lemma EncaiIsSentIff(c: Company, lines: seq<OrderLine>, settlements: seq<Settlement>)
    ensures EncaiEntry(c, lines, settlements).Some? <==>
            SaleOf(lines) + ExactTaxes(lines) + SumBy(Kept(settlements), ExactAmount()) > 0
  {
    hide Round, Amount, Rounded, GroupedTaxes, AllTaxes, TotalExcluded, SumBy, TaxedAt, Rates, Total, Equilibrated;
    GroupedAre(lines);
    TotalExcludedIs(lines);
    var taxes, total := GroupedTaxes(AllTaxes(lines)), Round(TotalExcluded(lines));
    assert taxes.Keys == Rates(lines);
    var rates := Ascending(taxes.Keys);
    var sale, day, settled := SaleItems(c, total), DayTaxItems(c, rates, taxes), SettlementItems(c, settlements);
    AmountConcat(sale + day, settled, Credit);
    AmountConcat(sale, day, Credit);
    SaleItemsOn(c, total, c.sale);
    DayTaxesExact(c, lines, rates, taxes);
    AscendingRates(lines, PositiveTax(lines));
    SettlementTotal(c, settlements);
    NoItems();
    assert EncaiItems(c, lines, settlements) == sale + day + settled;
  }

  /** What an ENCAI posts: on the sale account the rounded amount without tax, on each tax account the
      rounded taxes of its rates, a line for each settlement kept, and on the cash account their sum. */
  lemma EncaiPosts(c: Company, lines: seq<OrderLine>, settlements: seq<Settlement>)
    requires SeparateAccounts(c) && EncaiEntry(c, lines, settlements).Some?
    ensures var sent, kept := EncaiEntry(c, lines, settlements).value.lines, Kept(settlements);
            && Credited(sent, c.sale) == SaleOf(lines)
            && (forall vat: Vat :: Credited(sent, VatAccount(c, vat)) == VatOf(lines, vat))
            && |sent| >= |kept| + 1
            && (forall i :: 0 <= i < |kept| ==>
                  && kept[i].partner.Some?
                  && sent[|sent| - 1 - |kept| + i] == SettlementLine(c, kept[i]))
            && sent[|sent| - 1] == Line(c.cash, Debit,
                 SaleOf(lines) + VatOf(lines, Vat18) + VatOf(lines, Vat9) + VatOf(lines, Airsi)
                   + SumBy(kept, RoundedAmount()), None)
  {
    hide *;
    EncaiSettlements(c, lines, settlements);
    EncaiAccounts(c, lines, settlements);
  }

  lemma EncaiSettlements(c: Company, lines: seq<OrderLine>, settlements: seq<Settlement>)
    requires EncaiEntry(c, lines, settlements).Some?
    ensures var sent, kept := EncaiEntry(c, lines, settlements).value.lines, Kept(settlements);
            && |sent| >= |kept| + 1
            && forall i :: 0 <= i < |kept| ==>
                 kept[i].partner.Some? && sent[|sent| - 1 - |kept| + i] == SettlementLine(c, kept[i])
  {
    hide *;
    var sent, kept := EncaiEntry(c, lines, settlements).value.lines, Kept(settlements);
    var first, settled := SaleAndTaxes(c, lines), Rounded(SettlementItems(c, settlements));
    var cash := EncaiShape(c, lines, settlements);
    SettlementLines(c, settlements);
    assert |sent| == |first| + |kept| + 1;
    forall i | 0 <= i < |kept|
      ensures kept[i].partner.Some? && sent[|sent| - 1 - |kept| + i] == SettlementLine(c, kept[i])
    {
      assert sent[|first| + i] == settled[i];
    }
  }

  lemma EncaiAccounts(c: Company, lines: seq<OrderLine>, settlements: seq<Settlement>)
    requires SeparateAccounts(c) && EncaiEntry(c, lines, settlements).Some?
    ensures var sent := EncaiEntry(c, lines, settlements).value.lines;
            && Credited(sent, c.sale) == SaleOf(lines)
            && (forall vat: Vat :: Credited(sent, VatAccount(c, vat)) == VatOf(lines, vat))
            && |sent| >= 1
            && sent[|sent| - 1] == Line(c.cash, Debit,
                 SaleOf(lines) + VatOf(lines, Vat18) + VatOf(lines, Vat9) + VatOf(lines, Airsi)
                   + SumBy(Kept(settlements), RoundedAmount()), None)
  {
    hide *;
    var first, settled := SaleAndTaxes(c, lines), Rounded(SettlementItems(c, settlements));
    var cash := EncaiShape(c, lines, settlements);
    SaleAndTaxesPosted(c, lines);
    OnOthers(c, first, settled, cash, settlements);
    forall vat: Vat { VatAccountIs(c, vat); }
    VatAccountIs(c, Vat18);
    VatAccountIs(c, Vat9);
    VatAccountIs(c, Airsi);
    FourAccounts(c, first, Credit);
    SettlementTotal(c, settlements);
    AmountConcat(first, settled, Credit);
  }

  lemma VatAccountIs(c: Company, vat: Vat)
    ensures VatAccount(c, vat) in {c.sale, c.vat18, c.vat9, c.airsi}
    ensures VatAccount(c, vat) == match vat case Vat18 => c.vat18 case Vat9 => c.vat9 case Airsi => c.airsi
  {
  }

  /** The sale and taxes, the settlements, and the cash line for the sum of both. */
  lemma EncaiShape(c: Company, lines: seq<OrderLine>, settlements: seq<Settlement>) returns (cash: Line)
    requires EncaiEntry(c, lines, settlements).Some?
    ensures var first, settled := SaleAndTaxes(c, lines), Rounded(SettlementItems(c, settlements));
            && EncaiEntry(c, lines, settlements).value.lines == first + settled + [cash]
            && cash == Line(c.cash, Debit, Amount(first + settled, Credit), None)
  {
    hide Round, Amount, EncaiItems, SaleAndTaxes, SettlementItems, Rounded, Equilibrated;
    var sent := EncaiEntry(c, lines, settlements).value.lines;
    EncaiIsBalanced(c, lines, settlements);
    EncaiParts(c, lines, settlements);
    EncaiCash(c, lines, settlements);
    cash := sent[|sent| - 1];
    assert sent == sent[..|sent| - 1] + [cash];
  }

  /** The settlements and the cash are on other accounts. */
  lemma OnOthers(c: Company, first: seq<Line>, settled: seq<Line>, cash: Line, settlements: seq<Settlement>)
    requires SeparateAccounts(c) && settled == Rounded(SettlementItems(c, settlements)) && cash.account == c.cash
    ensures forall a: Option<Account> | a in {c.sale, c.vat18, c.vat9, c.airsi} ::
              Credited(first + settled + [cash], a) == Credited(first, a)
  {
    hide Round, Rounded, Credited, SettlementItems;
    SettlementAccount(c, settlements);
    forall a: Option<Account> | a in {c.sale, c.vat18, c.vat9, c.airsi}
      ensures Credited(first + settled + [cash], a) == Credited(first, a)
    {
      CreditedConcat(first + settled, [cash], a);
      CreditedConcat(first, settled, a);
      NothingOn(a, settled);
      OneLine(a, cash);
    }
  }

  lemma EncaiParts(c: Company, lines: seq<OrderLine>, settlements: seq<Settlement>)
    ensures Rounded(EncaiItems(c, lines, settlements)) ==
            SaleAndTaxes(c, lines) + Rounded(SettlementItems(c, settlements))
  {
    hide Round, Rounded, GroupedTaxes, AllTaxes, TotalExcluded, DayTaxItems, SettlementItems;
    var taxes := GroupedTaxes(AllTaxes(lines));
    var first := SaleItems(c, Round(TotalExcluded(lines))) + DayTaxItems(c, Ascending(taxes.Keys), taxes);
    RoundedConcat(first, SettlementItems(c, settlements));
    assert EncaiItems(c, lines, settlements) == first + SettlementItems(c, settlements);
  }

  lemma EncaiCash(c: Company, lines: seq<OrderLine>, settlements: seq<Settlement>)
    requires EncaiEntry(c, lines, settlements).Some?
    ensures var sent, items := EncaiEntry(c, lines, settlements).value.lines, EncaiItems(c, lines, settlements);
            && |sent| == |items| + 1
            && sent[|items|].account == c.cash && sent[|items|].side == Debit && sent[|items|].party == None
  {
    hide Round, Amount, EncaiItems;
  }

  lemma {:induction false} SettlementAccount(c: Company, settlements: seq<Settlement>)
    ensures forall i :: 0 <= i < |SettlementItems(c, settlements)| ==>
              SettlementItems(c, settlements)[i].account == c.customer
  {
    if settlements != [] { SettlementAccount(c, settlements[..|settlements| - 1]); }
  }

  // ---------------------------------------------------------------- one payment on credit

  /** The account of a client, by where it is. */
  function ClientAccount(c: Company, partner: Option<Partner>): Option<Account> {
    match partner
    case Some(p) => if p.interior then c.customerInterior else c.customer
    case None => c.customer
  }

  /** The third party of a client: its number, or the sundry customer when the number is generic. */
  function ClientParty(c: Company, partner: Option<Partner>): Option<Party> {
    match partner
    case Some(p) => if p.generic then c.sundry else p.customer
    case None => None
  }

  /** What a rate brings to a tax account in a FACLI, or in an AVCLI. */
  ghost function LimitWeight(lines: seq<OrderLine>, vat: Vat, refund: bool): int -> Money {
    (rate: int) =>
      if !Rounds(rate, vat) then 0
      else if refund then Abs(Round(TaxedAt(lines, rate)))
      else Positive(Round(TaxedAt(lines, rate)))
  }

  /** What the tax account gets, when there is one. */
  ghost function LimitVat(c: Company, lines: seq<OrderLine>, vat: Vat, refund: bool): Money {
    if VatAccount(c, vat).None? then 0
    else Total(map rate | rate in Rates(lines) :: LimitWeight(lines, vat, refund)(rate))
  }

  ghost function AllVat(c: Company, lines: seq<OrderLine>, refund: bool): Money {
    LimitVat(c, lines, Vat18, refund) + LimitVat(c, lines, Vat9, refund) + LimitVat(c, lines, Airsi, refund)
  }

  lemma {:induction false} LimitTaxesOn(c: Company, lines: seq<OrderLine>, rates: seq<int>, grouped: map<int, Money>,
                                        refund: bool, vat: Vat)
    requires SeparateAccounts(c)
    requires forall rate :: rate in rates ==> rate in grouped && grouped[rate] == Round(TaxedAt(lines, rate))
    ensures Credited(Rounded(TaxItems(c, rates, grouped, refund)), VatAccount(c, vat)) ==
            if VatAccount(c, vat).None? then 0
            else if refund then 0 - SumBy(rates, LimitWeight(lines, vat, refund))
            else SumBy(rates, LimitWeight(lines, vat, refund))
  {
    hide Round, Rounded, TaxAccount, TaxedAt, Credited, SumBy, Rounds, VatAccount;
    NoItems();
    if rates == [] {
      NoLines(VatAccount(c, vat));
      assert SumBy([], LimitWeight(lines, vat, refund)) == 0 by { NoWeight(LimitWeight(lines, vat, refund)); }
    } else {
      var init, rate := rates[..|rates| - 1], rates[|rates| - 1];
      assert rates == init + [rate];
      assert rate in rates;
      LimitTaxesOn(c, lines, init, grouped, refund, vat);
      SumByAppend(init, rate, LimitWeight(lines, vat, refund));
      TaxAccountIs(c, rate, vat);
      RoundKeepsCents(grouped[rate]);
      RoundKeepsCents(Abs(grouped[rate]));
      var l := if refund then Line(TaxAccount(c, rate), Debit, Abs(grouped[rate]), None)
               else Line(TaxAccount(c, rate), Credit, grouped[rate], None);
      RoundedAppend(TaxItems(c, init, grouped, refund), l);
      CreditedAppend(Rounded(TaxItems(c, init, grouped, refund)), RoundedLine(l), VatAccount(c, vat));
    }
  }

  lemma {:induction false} LimitTaxAccounts(c: Company, rates: seq<int>, grouped: map<int, Money>, refund: bool)
    requires forall rate :: rate in rates ==> rate in grouped
    ensures forall i :: 0 <= i < |TaxItems(c, rates, grouped, refund)| ==>
              TaxItems(c, rates, grouped, refund)[i].account in {c.vat18, c.vat9, c.airsi}
  {
    if rates != [] {
      assert rates[|rates| - 1] in rates;
      LimitTaxAccounts(c, rates[..|rates| - 1], grouped, refund);
    }
  }

  /** The lines after the client and the sale. */
  lemma LimitTaxLines(c: Company, p: LimitPayment) returns (taxes: seq<Line>)
    requires SeparateAccounts(c)
    ensures var lines, refund := LimitEntry(c, p).lines, p.amount <= 0;
            && |lines| == |taxes| + 2 && lines[2..] == taxes
            && (forall i :: 0 <= i < |taxes| ==> taxes[i].side == if refund then Debit else Credit)
            && (forall i :: 0 <= i < |taxes| ==> taxes[i].account in {c.sale, c.vat18, c.vat9, c.airsi})
            && Credited(taxes, c.sale) == 0
            && forall vat: Vat :: Credited(taxes, VatAccount(c, vat)) ==
                 if refund then 0 - LimitVat(c, p.lines, vat, refund) else LimitVat(c, p.lines, vat, refund)
  {
    hide Round, Rounded, Credited, GroupedTaxes, AllTaxes, TotalExcluded, SumBy, TaxedAt, Rates, Total, TaxItems;
    hide Equilibrated, AnyTaxed, Amount;
    var lines, refund := LimitEntry(c, p).lines, p.amount <= 0;
    GroupedAre(p.lines);
    var grouped := TaxesOf(p);
    assert grouped.Keys == Rates(p.lines);
    var rates := Ascending(grouped.Keys);
    var items := TaxItems(c, rates, grouped, refund);
    taxes := Rounded(items);
    LimitEntryIsBalanced(c, p);
    LimitTail(c, p, items);
    LimitTaxAccounts(c, rates, grouped, refund);
    NothingOn(c.sale, taxes);
    forall vat: Vat ensures Credited(taxes, VatAccount(c, vat)) ==
        if refund then 0 - LimitVat(c, p.lines, vat, refund) else LimitVat(c, p.lines, vat, refund) {
      LimitTaxesOn(c, p.lines, rates, grouped, refund, vat);
      AscendingRates(p.lines, LimitWeight(p.lines, vat, refund));
    }
  }

  lemma LimitTail(c: Company, p: LimitPayment, items: seq<Line>)
    requires items == TaxItems(c, Ascending(TaxesOf(p).Keys), TaxesOf(p), p.amount <= 0)
    ensures var lines := LimitEntry(c, p).lines;
            && |lines| == |items| + 2 && lines[2..] == Rounded(items)
  {
    hide Round, TaxItems, Amount, Equilibrated;
    var all, lines := LimitItems(c, p), LimitEntry(c, p).lines;
    LimitEntryIsBalanced(c, p);
    assert all == all[..2] + items;
    RoundedConcat(all[..2], items);
    if p.amount > 0 { assert lines[2..] == lines[1..][1..] == Rounded(all)[1..][1..] == Rounded(all)[2..]; }
  }

  /** What the sale line of an order paid on credit is: the order without tax, or the payment when no line
      is taxed. */
  ghost function OrderSale(p: LimitPayment): Money {
    if exists i :: 0 <= i < |p.lines| && p.lines[i].taxed
    then Round(SumBy(p.lines, Excluded()))
    else Round(Abs(p.amount))
  }

  /** What a FACLI or AVCLI posts: the taxes of the order on their accounts, the sale, and the client with
      its account and third party. A FACLI charges the client with the sum; an AVCLI gives back the
      payment, and debits on the sale account what the taxes leave of it. */
  lemma LimitEntryPosts(c: Company, p: LimitPayment)
    requires SeparateAccounts(c)
    ensures var sent, refund := LimitEntry(c, p).lines, p.amount <= 0;
            var sign := if refund then 0 - 1 else 1;
            var vat, paid := AllVat(c, p.lines, refund), Round(Abs(p.amount));
            && (forall vat: Vat :: Credited(sent, VatAccount(c, vat)) == sign * LimitVat(c, p.lines, vat, refund))
            && |sent| >= 2
            && sent[0] == Line(ClientAccount(c, p.partner), if refund then Credit else Debit,
                               if refund then paid else OrderSale(p) + vat, ClientParty(c, p.partner))
            && sent[1] == Line(c.sale, if refund then Debit else Credit,
                               if refund then paid - vat else OrderSale(p), None)
  {
    hide Round, Rounded, Credited, TotalExcluded, SumBy, TaxedAt, TaxItems, Amount, LimitVat, Equilibrated;
    var sent, refund := LimitEntry(c, p).lines, p.amount <= 0;
    var taxes := LimitTaxLines(c, p);
    var side := if refund then Debit else Credit;
    LimitEntryIsBalanced(c, p);
    LimitHead(c, p);
    forall vat: Vat { VatAccountIs(c, vat); }
    VatAccountIs(c, Vat18);
    VatAccountIs(c, Vat9);
    VatAccountIs(c, Airsi);
    FourAccounts(c, taxes, side);
    assert sent == [sent[0]] + ([sent[1]] + taxes);
    HeadAmounts(sent[0], sent[1], taxes, side);
    forall vat: Vat ensures Credited(sent, VatAccount(c, vat)) == Credited(taxes, VatAccount(c, vat)) {
      var a := VatAccount(c, vat);
      CreditedConcat([sent[0]], [sent[1]] + taxes, a);
      CreditedConcat([sent[1]], taxes, a);
      OneLine(a, sent[0]);
      OneLine(a, sent[1]);
    }
  }

  lemma LimitHead(c: Company, p: LimitPayment)
    ensures var sent, refund := LimitEntry(c, p).lines, p.amount <= 0;
            && |sent| >= 2
            && sent[0] == Line(ClientAccount(c, p.partner), if refund then Credit else Debit, sent[0].amount,
                               ClientParty(c, p.partner))
            && sent[1] == Line(c.sale, if refund then Debit else Credit, sent[1].amount, None)
            && (!refund ==> sent[1].amount == OrderSale(p))
  {
    hide Round, TaxItems, Amount, Rounded;
    LimitEntryIsBalanced(c, p);
    TotalExcludedIs(p.lines);
    RoundKeepsCents(Round(TotalExcluded(p.lines)));
    var lines := LimitEntry(c, p).lines;
    if p.amount > 0 { assert lines[1] == lines[1..][0] == Rounded(LimitItems(c, p))[1]; }
  }

  /** A client line, a line on the other side, and more lines on that side. */
  lemma HeadAmounts(client: Line, first: Line, rest: seq<Line>, side: Side)
    requires client.side != side && first.side == side
    requires forall i :: 0 <= i < |rest| ==> rest[i].side == side
    ensures var lines := [client] + ([first] + rest);
            Amount(lines, side) == first.amount + Amount(rest, side) && Amount(lines, client.side) == client.amount
  {
    hide Amount;
    NoItems();
    assert [] + [client] == [client] && [] + [first] == [first];
    forall x ensures Amount([client], x) == (if client.side == x then client.amount else 0)
             && Amount([first], x) == if first.side == x then first.amount else 0 {
      AmountAppend([], client, x);
      AmountAppend([], first, x);
    }
    AmountConcat([client], [first] + rest, side);
    AmountConcat([client], [first] + rest, client.side);
    AmountConcat([first], rest, side);
    AmountConcat([first], rest, client.side);
    AmountOfOtherSide(rest, client.side);
  }

  // ---------------------------------------------------------------- one invoice

  /** The absolute balance of a tax line of the rates of one account: 9 and 18 percent exactly, and all
      others. */
  ghost function InvoiceTax(vat: Vat): MoveLine -> Money {
    (l: MoveLine) => if l.rate.Some? && IsRate(l.rate.value, vat) then Abs(l.balance) else 0
  }

  predicate IsRate(rate: int, vat: Vat) {
    match vat
    case Vat18 => rate == Cents(18)
    case Vat9 => rate == Cents(9)
    case Airsi => rate != Cents(18) && rate != Cents(9)
  }

  ghost function InvoiceVat(inv: Invoice, vat: Vat): Money {
    Round(SumBy(inv.lines, InvoiceTax(vat)))
  }

  /** The sale and the taxes of an invoice. */
  ghost function InvoiceSum(inv: Invoice): Money {
    Positive(Round(inv.untaxed)) + InvoiceVat(inv, Vat18) + InvoiceVat(inv, Vat9) + InvoiceVat(inv, Airsi)
  }

  lemma {:induction false} TaxOnIs(c: Company, partner: Partner, lines: seq<MoveLine>, vat: Vat)
    requires SeparateAccounts(c) && Configured(c, partner)
    ensures TaxOn(c, partner, lines, VatAccount(c, vat).value) == SumBy(lines, InvoiceTax(vat)) >= 0
  {
    if lines != [] { TaxOnIs(c, partner, lines[..|lines| - 1], vat); }
  }

  lemma {:induction false} TaxAccountsAre(c: Company, partner: Partner, lines: seq<MoveLine>)
    requires Configured(c, partner)
    ensures NoDuplicates(TaxAccounts(c, partner, lines))
    ensures forall a :: a in TaxAccounts(c, partner, lines) ==> Some(a) in {c.vat18, c.vat9, c.airsi}
  {
    if lines != [] { TaxAccountsAre(c, partner, lines[..|lines| - 1]); }
  }

  /** The line of an account that gets an amount, if it is positive. */
  lemma {:induction false} AccountItemsOn(side: Side, accounts: seq<Account>, amounts: map<Account, Money>, a: Account)
    requires NoDuplicates(accounts)
    requires forall x :: x in accounts ==> x in amounts && WholeCents(amounts[x]) && amounts[x] >= 0
    ensures Credited(Rounded(AccountItems(side, accounts, amounts)), Some(a)) ==
            if a !in accounts then 0 else if side == Credit then amounts[a] else 0 - amounts[a]
  {
    hide Round, Rounded, Credited;
    NoItems();
    NoLines(Some(a));
    if accounts != [] {
      var init, last := accounts[..|accounts| - 1], accounts[|accounts| - 1];
      assert accounts == init + [last];
      assert last in accounts && forall x :: x in init ==> x in accounts;
      AccountItemsOn(side, init, amounts, a);
      RoundKeepsCents(amounts[last]);
      var l := Line(Some(last), side, amounts[last], None);
      RoundedAppend(AccountItems(side, init, amounts), l);
      CreditedAppend(Rounded(AccountItems(side, init, amounts)), RoundedLine(l), Some(a));
    }
  }

  lemma {:induction false} AccountItemAccounts(side: Side, accounts: seq<Account>, amounts: map<Account, Money>)
    requires forall x :: x in accounts ==> x in amounts
    ensures forall i :: 0 <= i < |AccountItems(side, accounts, amounts)| ==>
              var l := AccountItems(side, accounts, amounts)[i]; l.account.Some? && l.account.value in accounts
  {
    if accounts != [] {
      var init, last := accounts[..|accounts| - 1], accounts[|accounts| - 1];
      assert last in accounts && forall x :: x in init ==> x in accounts;
      AccountItemAccounts(side, init, amounts);
    }
  }

  /** The tax lines of an invoice. */
  lemma InvoiceTaxesOn(c: Company, inv: Invoice, side: Side)
    requires SeparateAccounts(c) && Configured(c, inv.partner)
    ensures var taxes := Rounded(AccountItems(side, TaxAccounts(c, inv.partner, inv.lines), InvoiceTaxes(c, inv)));
            && (forall i :: 0 <= i < |taxes| ==>
                  taxes[i].side == side && taxes[i].account in {c.vat18, c.vat9, c.airsi})
            && Credited(taxes, c.sale) == 0
            && forall vat: Vat :: Credited(taxes, VatAccount(c, vat)) ==
                 if side == Credit then InvoiceVat(inv, vat) else 0 - InvoiceVat(inv, vat)
  {
    hide Round, Rounded, Credited, AccountItems, TaxAccounts, TaxOn, SumBy;
    var accounts, amounts := TaxAccounts(c, inv.partner, inv.lines), InvoiceTaxes(c, inv);
    var taxes := Rounded(AccountItems(side, accounts, amounts));
    TaxAccountsAre(c, inv.partner, inv.lines);
    AccountItemAccounts(side, accounts, amounts);
    forall a | a in accounts ensures amounts[a] >= 0 {
      var vat := if Some(a) == c.vat18 then Vat18 else if Some(a) == c.vat9 then Vat9 else Airsi;
      TaxOnIs(c, inv.partner, inv.lines, vat);
      RoundNotNegative(TaxOn(c, inv.partner, inv.lines, a));
    }
    NothingOn(c.sale, taxes);
    forall vat: Vat ensures Credited(taxes, VatAccount(c, vat)) ==
        if side == Credit then InvoiceVat(inv, vat) else 0 - InvoiceVat(inv, vat) {
      var a := VatAccount(c, vat).value;
      AccountItemsOn(side, accounts, amounts, a);
      TaxOnIs(c, inv.partner, inv.lines, vat);
      NoTaxYet(c, inv.partner, inv.lines, a);
      RoundKeepsCents(0);
    }
  }

  lemma RoundNotNegative(x: Money)
    requires x >= 0
    ensures Round(x) >= 0
  {
  }

  /** All lines but the client's, as they are sent: the sale, then the taxes. */
  lemma InvoiceTail(c: Company, inv: Invoice) returns (sale: seq<Line>, taxes: seq<Line>)
    requires InvoiceEntry(c, inv).Ok?
    ensures var sent, side := InvoiceEntry(c, inv).value.lines, if inv.refund then Debit else Credit;
            && |sent| >= 1 && sent == [sent[0]] + (sale + taxes)
            && sent[0].side != side
            && sent[0].account == ClientAccount(c, Some(inv.partner)) && sent[0].party == inv.partner.customer
            && sale == (if inv.untaxed > 0 then [Line(c.sale, side, Round(inv.untaxed), None)] else [])
            && taxes == Rounded(AccountItems(side, TaxAccounts(c, inv.partner, inv.lines), InvoiceTaxes(c, inv)))
  {
    hide Round, Amount, AccountItems, TaxAccounts, TaxOn, Rounded, Equilibrated, InvoiceItems, InvoiceEntry;
    InvoiceClient(c, inv);
    var side := if inv.refund then Debit else Credit;
    var items, sent := InvoiceItems(c, inv), InvoiceEntry(c, inv).value.lines;
    InvoiceEntryBalance(c, inv);
    var others := AccountItems(side, TaxAccounts(c, inv.partner, inv.lines), InvoiceTaxes(c, inv));
    var l := Line(c.sale, side, inv.untaxed, None);
    var head := if inv.untaxed > 0 then [l] else [];
    InvoiceParts(c, inv, head, others);
    RoundedConcat([items[0]], head + others);
    RoundedConcat(head, others);
    RoundedOne(l);
    RoundedOne(items[0]);
    NoItems();
    sale, taxes := Rounded(head), Rounded(others);
    assert Rounded(items)[1..] == sale + taxes;
    assert sent == [sent[0]] + sent[1..];
  }

  lemma RoundedOne(l: Line)
    ensures Rounded([l]) == [RoundedLine(l)]
  {
    NoItems();
    RoundedAppend([], l);
    assert [] + [l] == [l];
  }

  lemma InvoiceParts(c: Company, inv: Invoice, head: seq<Line>, others: seq<Line>)
    requires Configured(c, inv.partner)
    requires var side := if inv.refund then Debit else Credit;
      && head == (if inv.untaxed > 0 then [Line(c.sale, side, inv.untaxed, None)] else [])
      && others == AccountItems(side, TaxAccounts(c, inv.partner, inv.lines), InvoiceTaxes(c, inv))
    ensures InvoiceItems(c, inv) == [InvoiceItems(c, inv)[0]] + (head + others)
  {
    hide AccountItems, TaxAccounts, InvoiceTaxes;
  }

  lemma InvoiceClient(c: Company, inv: Invoice)
    requires InvoiceEntry(c, inv).Ok?
    ensures Configured(c, inv.partner)
    ensures var sent := InvoiceEntry(c, inv).value.lines;
            && |sent| >= 1 && sent[0].side == (if inv.refund then Credit else Debit)
            && sent[0].account == ClientAccount(c, Some(inv.partner)) && sent[0].party == inv.partner.customer
  {
    hide Round, Amount, AccountItems, TaxAccounts, TaxOn;
  }

  lemma SaleLineOn(c: Company, inv: Invoice, side: Side, a: Option<Account>)
    ensures var sale := if inv.untaxed > 0 then [Line(c.sale, side, Round(inv.untaxed), None)] else [];
            Credited(sale, a) == if a != c.sale then 0
                                 else if side == Credit then Positive(Round(inv.untaxed))
                                 else 0 - Positive(Round(inv.untaxed))
  {
    var l := Line(c.sale, side, Round(inv.untaxed), None);
    NoLines(a);
    OneLine(a, l);
    if inv.untaxed > 0 { RoundNotNegative(inv.untaxed); } else { RoundNotPositive(inv.untaxed); }
  }

  lemma RoundNotPositive(x: Money)
    requires x <= 0
    ensures Round(x) <= 0
  {
  }

  /** What the entry of an invoice posts: on each tax account the rounded sum of the tax lines of its
      rates, on the sale account the rounded untaxed amount, and to the client their sum, which is the
      due amount. A refund has them on the other side, and its client line is the rounded total, moved
      away by as much as the sum differs from it. */
  lemma InvoicePosts(c: Company, inv: Invoice)
    requires SeparateAccounts(c) && InvoiceEntry(c, inv).Ok?
    ensures var e, sign := InvoiceEntry(c, inv).value, if inv.refund then 0 - 1 else 1;
            && (forall vat: Vat :: Credited(e.lines, VatAccount(c, vat)) == sign * InvoiceVat(inv, vat))
            && Credited(e.lines, c.sale) == sign * Positive(Round(inv.untaxed))
            && |e.lines| >= 1
            && e.lines[0] == Line(ClientAccount(c, Some(inv.partner)), if inv.refund then Credit else Debit,
                                  if inv.refund then 2 * Round(inv.total) - InvoiceSum(inv) else InvoiceSum(inv),
                                  inv.partner.customer)
            && e.due == if inv.refund then None else Some(InvoiceSum(inv))
  {
    hide Round, Rounded, Credited, AccountItems, TaxAccounts, TaxOn, SumBy, Amount, InvoiceVat, InvoiceTaxes;
    hide Equilibrated, ClientAccount, InvoiceItems, InvoiceHead, Receivable;
    var side := if inv.refund then Debit else Credit;
    var e := InvoiceEntry(c, inv).value;
    var sale, taxes := InvoiceTail(c, inv);
    InvoiceTaxesOn(c, inv, side);
    InvoiceEntryBalance(c, inv);
    forall vat: Vat { VatAccountIs(c, vat); }
    VatAccountIs(c, Vat18);
    VatAccountIs(c, Vat9);
    VatAccountIs(c, Airsi);
    forall a: Option<Account> | a in {c.sale, c.vat18, c.vat9, c.airsi}
      ensures Credited(e.lines, a) == Credited(sale, a) + Credited(taxes, a) == Credited(sale + taxes, a)
    {
      CreditedConcat([e.lines[0]], sale + taxes, a);
      CreditedConcat(sale, taxes, a);
      ClientElsewhere(c, inv, a);
      OneLine(a, e.lines[0]);
    }
    SaleLineOn(c, inv, side, c.sale);
    forall vat: Vat { SaleLineOn(c, inv, side, VatAccount(c, vat)); }
    FourAccounts(c, sale + taxes, side);
    ClientAmount(e.lines[0], sale + taxes, side);
  }

  lemma ClientElsewhere(c: Company, inv: Invoice, a: Option<Account>)
    requires SeparateAccounts(c) && a in {c.sale, c.vat18, c.vat9, c.airsi}
    ensures ClientAccount(c, Some(inv.partner)) != a
  {
  }

  lemma ClientAmount(client: Line, rest: seq<Line>, side: Side)
    requires client.side != side && forall i :: 0 <= i < |rest| ==> rest[i].side == side
    ensures Amount([client] + rest, side) == Amount(rest, side) && Amount([client] + rest, client.side) == client.amount
  {
    hide Amount;
    NoItems();
    assert [] + [client] == [client];
    AmountAppend([], client, side);
    AmountAppend([], client, client.side);
    AmountConcat([client], rest, side);
    AmountConcat([client], rest, client.side);
    AmountOfOtherSide(rest, client.side);
  }

  /** The entry of an invoice is refused if and only if a setting is missing or there is no untaxed amount. */
  lemma InvoiceIsRefusedIff(c: Company, inv: Invoice)
    ensures InvoiceEntry(c, inv).Err? <==>
            || ClientAccount(c, Some(inv.partner)).None? || c.sale.None? || c.site == "" || c.saleJournal == ""
            || c.vat9.None? || c.vat18.None? || c.airsi.None? || inv.untaxed == 0
  {
  }
}
