/** The entries made for one sale on credit, one refund or one invoice
    (custom_api_sage_x3/models/account_move.py). Tax amounts are taken as computed; tax rates are in
    thousandths of a percentage point. */
module SageEntries {
  import opened Options
  import opened Ordering
  import opened SageLines
  import opened Sums

  datatype Company = Company(
    site: string, cashJournal: string, saleJournal: string,
    sale: Option<Account>, customer: Option<Account>, customerInterior: Option<Account>, cash: Option<Account>,
    vat9: Option<Account>, vat18: Option<Account>, airsi: Option<Account>, sundry: Option<Party>)

  /** `generic` customers have a number starting with 10 or 20. */
  datatype Partner = Partner(
    interior: bool, customer: Option<Party>, generic: bool,
    personalAccount: Option<Party>, parentCustomer: Option<Party>)

  datatype Tax = Tax(rate: int, amount: Money)

  datatype OrderLine = OrderLine(taxed: bool, excluded: Money, taxes: seq<Tax>)

  datatype Kind = Encai | Decai | Facli | Avcli

  datatype Entry = Entry(kind: Kind, lines: seq<Line>, due: Option<Money>)

  datatype SageError = MissingSetting | NoReceivable | OpenSession | NoProductLine

  function Receivable(c: Company, partner: Option<Partner>): Option<Account> {
    if partner.Some? && partner.value.interior then c.customerInterior else c.customer
  }

  function PartyOf(c: Company, partner: Option<Partner>): Option<Party> {
    if partner.None? then None
    else if partner.value.generic then c.sundry
    else partner.value.customer
  }

  function TaxAccount(c: Company, rate: int): Option<Account> {
    var percent := Round(rate) / CENT;
    if percent == 18 then c.vat18 else if percent == 9 then c.vat9 else c.airsi
  }

  // ---------------------------------------------------------------- order lines

  function AllTaxes(lines: seq<OrderLine>): seq<Tax> {
    if lines == [] then [] else AllTaxes(lines[..|lines| - 1]) + lines[|lines| - 1].taxes
  }

  function TaxAt(taxes: seq<Tax>, rate: int): Money {
    if taxes == [] then 0
    else
      var last := taxes[|taxes| - 1];
      TaxAt(taxes[..|taxes| - 1], rate) + if last.rate == rate then last.amount else 0
  }

  ghost function GroupedTaxes(taxes: seq<Tax>): map<int, Money> {
    map rate | rate in (set t | t in taxes :: t.rate) :: TaxAt(taxes, rate)
  }

  function TotalExcluded(lines: seq<OrderLine>): Money {
    if lines == [] then 0 else TotalExcluded(lines[..|lines| - 1]) + lines[|lines| - 1].excluded
  }

  function RoundedAmounts(m: map<int, Money>): map<int, Money> {
    map rate | rate in m :: Round(m[rate])
  }

  lemma NoTaxes()
    ensures GroupedTaxes([]) == map[]
  {
  }

  lemma GroupOneMore(taxes: seq<Tax>, t: Tax)
    ensures var g := GroupedTaxes(taxes);
            GroupedTaxes(taxes + [t]) == g[t.rate := (if t.rate in g then g[t.rate] else 0) + t.amount]
  {
    assert (taxes + [t])[..|taxes|] == taxes;
    AbsentRate(taxes, t.rate);
    assert (set x | x in taxes + [t] :: x.rate) == (set x | x in taxes :: x.rate) + {t.rate};
  }

  lemma {:induction false} AbsentRate(taxes: seq<Tax>, rate: int)
    ensures (forall t :: t in taxes ==> t.rate != rate) ==> TaxAt(taxes, rate) == 0
  {
    if taxes != [] {
      AbsentRate(taxes[..|taxes| - 1], rate);
      assert taxes[|taxes| - 1] in taxes;
    }
  }

  /** `get_pos_lines_grouped_by_tva`. */
  method PosLinesByTax(lines: seq<OrderLine>) returns (grouped: map<int, Money>)
    ensures grouped == GroupedTaxes(AllTaxes(lines))
  {
    hide GroupedTaxes;
    grouped := map[];
    NoTaxes();
    for i := 0 to |lines|
      invariant grouped == GroupedTaxes(AllTaxes(lines[..i]))
    {
      var taxes := lines[i].taxes;
      ghost var before := AllTaxes(lines[..i]);
      assert before + taxes[..0] == before;
      for j := 0 to |taxes|
        invariant grouped == GroupedTaxes(before + taxes[..j])
      {
        var t := taxes[j];
        GroupOneMore(before + taxes[..j], t);
        assert before + taxes[..j] + [t] == before + taxes[..j + 1];
        grouped := grouped[t.rate := (if t.rate in grouped then grouped[t.rate] else 0) + t.amount];
      }
      assert taxes[..|taxes|] == taxes && lines[..i + 1][..i] == lines[..i];
    }
    assert lines[..|lines|] == lines;
  }

  /** `get_pos_lines_total_ht`. */
  method PosLinesTotal(lines: seq<OrderLine>) returns (total: Money)
    ensures total == Round(TotalExcluded(lines))
  {
    total := 0;
    for i := 0 to |lines|
      invariant total == TotalExcluded(lines[..i])
    {
      assert lines[..i + 1][..i] == lines[..i];
      total := total + lines[i].excluded;
    }
    assert lines[..|lines|] == lines;
    total := Round(total);
  }

  // ---------------------------------------------------------------- sales on credit

  datatype LimitPayment = LimitPayment(amount: Money, partner: Option<Partner>, lines: seq<OrderLine>)

  predicate AnyTaxed(lines: seq<OrderLine>) {
    exists i :: 0 <= i < |lines| && lines[i].taxed
  }

  /** The tax lines: those without an account are dropped, and those without an amount. */
  function TaxItems(c: Company, rates: seq<int>, grouped: map<int, Money>, refund: bool): (items: seq<Line>)
    requires forall rate :: rate in rates ==> rate in grouped
    ensures forall i :: 0 <= i < |items| ==> items[i].side == if refund then Debit else Credit
  {
    if rates == [] then []
    else
      var rate := rates[|rates| - 1];
      assert rate in rates;
      var items := TaxItems(c, rates[..|rates| - 1], grouped, refund);
      var account, amount := TaxAccount(c, rate), grouped[rate];
      if account.None? then items
      else if refund then if amount != 0 then items + [Line(account, Debit, Abs(amount), None)] else items
      else if amount > 0 then items + [Line(account, Credit, amount, None)]
      else items
  }

  ghost function TaxesOf(p: LimitPayment): map<int, Money> {
    RoundedAmounts(GroupedTaxes(AllTaxes(p.lines)))
  }

  /** Client first, then the sale, then the taxes, before rounding and balancing. */
  ghost function LimitItems(c: Company, p: LimitPayment): (items: seq<Line>)
    ensures |items| >= 2
    ensures items[0].side == if p.amount > 0 then Debit else Credit
    ensures forall i :: 1 <= i < |items| ==> items[i].side != items[0].side
  {
    var refund := p.amount <= 0;
    var sale := if !AnyTaxed(p.lines) then Abs(p.amount)
                else if refund then Abs(Round(TotalExcluded(p.lines)))
                else Round(TotalExcluded(p.lines));
    [Line(Receivable(c, p.partner), if refund then Credit else Debit, Abs(p.amount), PartyOf(c, p.partner)),
     Line(c.sale, if refund then Debit else Credit, sale, None)]
    + TaxItems(c, Ascending(TaxesOf(p).Keys), TaxesOf(p), refund)
  }

  ghost function LimitEntry(c: Company, p: LimitPayment): Entry {
    var lines := Equilibrated(Rounded(LimitItems(c, p)), Debit);
    if p.amount > 0 then Entry(Facli, lines, Some(Round(lines[0].amount))) else Entry(Avcli, lines, None)
  }

  /** One payment of `_ligne_ecritures_is_limit`. */
  method PrepareLimitEntry(c: Company, p: LimitPayment) returns (r: Result<Entry, SageError>)
    ensures r == if Receivable(c, p.partner).None? then Err(NoReceivable) else Ok(LimitEntry(c, p))
  {
    hide Round, Equilibrated, TaxItems, GroupedTaxes, AllTaxes, TotalExcluded;
    var receivable := Receivable(c, p.partner);
    if receivable.None? {
      return Err(NoReceivable);
    }
    var total := PosLinesTotal(p.lines);
    var grouped := PosLinesByTax(p.lines);
    grouped := RoundedAmounts(grouped);
    var rates := SortedKeys(grouped);
    var anyTaxed := AnyTaxed(p.lines);
    var draft := new Draft();
    if p.amount > 0 {
      draft.Add(receivable, Debit, Round(p.amount), PartyOf(c, p.partner));
      if !anyTaxed {
        total := Round(p.amount);
      }
      draft.Add(c.sale, Credit, total, None);
    } else {
      total := Abs(total);
      draft.Add(receivable, Credit, Round(Abs(p.amount)), PartyOf(c, p.partner));
      if !anyTaxed {
        total := Round(Abs(p.amount));
      }
      draft.Add(c.sale, Debit, total, None);
    }
    RoundKeepsCents(total);
    ghost var items := LimitItems(c, p);
    assert draft.lines == Rounded(items[..2]);
    AddTaxLines(draft, c, rates, grouped, p.amount <= 0);
    RoundedConcat(items[..2], items[2..]);
    assert items == items[..2] + items[2..];
    draft.Equilibrate(Debit);
    if p.amount > 0 {
      r := Ok(Entry(Facli, draft.lines, Some(Round(draft.lines[0].amount))));
    } else {
      r := Ok(Entry(Avcli, draft.lines, None));
    }
  }

  method AddTaxLines(draft: Draft, c: Company, rates: seq<int>, grouped: map<int, Money>, refund: bool)
    requires forall rate :: rate in rates ==> rate in grouped
    modifies draft
    ensures draft.lines == old(draft.lines) + Rounded(TaxItems(c, rates, grouped, refund))
  {
    hide Round, TaxAccount;
    for i := 0 to |rates|
      invariant draft.lines == old(draft.lines) + Rounded(TaxItems(c, rates[..i], grouped, refund))
    {
      assert rates[i] in rates && rates[..i + 1][..i] == rates[..i];
      ghost var items := TaxItems(c, rates[..i], grouped, refund);
      var account, amount := TaxAccount(c, rates[i]), grouped[rates[i]];
      if account.None? {
        continue;
      }
      if !refund {
        if amount > 0 {
          draft.Add(account, Credit, Round(amount), None);
          RoundedAppend(items, Line(account, Credit, amount, None));
        }
      } else if amount != 0 {
        draft.Add(account, Debit, Round(Abs(amount)), None);
        RoundedAppend(items, Line(account, Debit, Abs(amount), None));
      }
    }
    assert rates[..|rates|] == rates;
  }

  lemma RoundedAppend(items: seq<Line>, l: Line)
    ensures Rounded(items + [l]) == Rounded(items) + [RoundedLine(l)]
  {
    assert (items + [l])[..|items|] == items;
  }

  lemma RoundedConcat(s: seq<Line>, t: seq<Line>)
    ensures Rounded(s + t) == Rounded(s) + Rounded(t)
  {
  }

  /** An invoice entry and its reverse: the client on one side, everything else on the other. The FACLI
      charges the client with the sum of the credit lines, which are as computed, and its single due
      amount is that sum; the AVCLI gives the client back the rounded payment, and the sale line takes
      the gap. Both are balanced to the cent. */
  lemma LimitEntryIsBalanced(c: Company, p: LimitPayment)
    ensures var e, computed := LimitEntry(c, p), Rounded(LimitItems(c, p));
            && InCents(e.lines) && Balanced(e.lines) && |e.lines| == |computed|
            && (p.amount > 0 ==>
                 && e.kind == Facli && e.lines[1..] == computed[1..]
                 && e.due == Some(e.lines[0].amount)
                 && Amount(e.lines, Debit) == e.lines[0].amount == Amount(e.lines, Credit))
            && (p.amount <= 0 ==>
                 && e.kind == Avcli && e.due == None && e.lines[2..] == computed[2..]
                 && e.lines[0].amount == Round(Abs(p.amount)) == Amount(e.lines, Debit))
  {
    hide TaxItems, Amount, Round, Rounded;
    var items := LimitItems(c, p);
    var computed, e := Rounded(items), LimitEntry(c, p);
    EquilibratedGap(computed, Debit);
    FirstIs(computed, Debit, if p.amount > 0 then 0 else 1);
    SingleOnItsSide(e.lines);
    RoundKeepsCents(e.lines[0].amount);
  }

  /** No tax account is missing. */
  predicate TaxAccountsSet(c: Company) {
    c.vat9.Some? && c.vat18.Some? && c.airsi.Some?
  }

  lemma {:induction false} TaxItemsOfSubmap(c: Company, rates: seq<int>, grouped: map<int, Money>, k: int)
    requires k !in rates && forall rate :: rate in rates ==> rate in grouped
    ensures TaxItems(c, rates, grouped - {k}, false) == TaxItems(c, rates, grouped, false)
  {
    if rates != [] { TaxItemsOfSubmap(c, rates[..|rates| - 1], grouped, k); }
  }

  lemma TaxItemsStep(c: Company, rates: seq<int>, grouped: map<int, Money>, k: int)
    requires TaxAccountsSet(c) && k in grouped && k !in rates && grouped[k] >= 0
    requires forall rate :: rate in rates ==> rate in grouped
    ensures Amount(TaxItems(c, rates + [k], grouped, false), Credit) ==
            Amount(TaxItems(c, rates, grouped - {k}, false), Credit) + grouped[k]
  {
    hide Amount;
    TaxItemsOfSubmap(c, rates, grouped, k);
    assert (rates + [k])[..|rates|] == rates;
    AmountAppend(TaxItems(c, rates, grouped, false), Line(TaxAccount(c, k), Credit, grouped[k], None), Credit);
  }

  lemma {:induction false} TaxItemsAmount(c: Company, grouped: map<int, Money>)
    requires TaxAccountsSet(c) && forall rate :: rate in grouped ==> grouped[rate] >= 0
    ensures Amount(TaxItems(c, Ascending(grouped.Keys), grouped, false), Credit) == Total(grouped)
    decreases |grouped|
  {
    hide TaxAccountsSet, TaxItems, Amount;
    if grouped == map[] {
      NoTaxItems(c, grouped);
    } else {
      assert grouped.Keys != {};
      var k := Largest(grouped.Keys);
      var rest := grouped - {k};
      assert rest.Keys == grouped.Keys - {k} && |rest.Keys| == |rest| && |grouped.Keys| == |grouped|;
      TotalSplit(grouped, k);
      TaxItemsAmount(c, rest);
      AscendingStep(grouped.Keys);
      TaxItemsStep(c, Ascending(rest.Keys), grouped, k);
    }
  }

  lemma NoTaxItems(c: Company, grouped: map<int, Money>)
    requires grouped == map[]
    ensures Amount(TaxItems(c, Ascending(grouped.Keys), grouped, false), Credit) == Total(grouped)
  {
  }

  lemma {:induction false} TaxItemsInCents(c: Company, rates: seq<int>, grouped: map<int, Money>)
    requires forall rate :: rate in rates ==> rate in grouped
    requires forall rate :: rate in grouped ==> WholeCents(grouped[rate])
    ensures InCents(TaxItems(c, rates, grouped, false))
  {
    if rates != [] { TaxItemsInCents(c, rates[..|rates| - 1], grouped); }
  }

  /** With its tax accounts set and no negative tax, a FACLI charges the client with the order: the
      rounded amount without tax and the rounded tax of every rate, whatever was paid. */
  lemma FacliChargesTheOrder(c: Company, p: LimitPayment)
    requires p.amount > 0 && AnyTaxed(p.lines) && TaxAccountsSet(c)
    requires forall rate :: rate in TaxesOf(p) ==> TaxesOf(p)[rate] >= 0
    ensures LimitEntry(c, p).lines[0].amount == Round(TotalExcluded(p.lines)) + Total(TaxesOf(p))
  {
    hide Amount, Round, Rounded, TaxItems, TaxAccountsSet, TotalExcluded, AnyTaxed, GroupedTaxes, Equilibrated, Total;
    var items, e := LimitItems(c, p), LimitEntry(c, p);
    var taxes := TaxItems(c, Ascending(TaxesOf(p).Keys), TaxesOf(p), false);
    var sale := Line(c.sale, Credit, Round(TotalExcluded(p.lines)), None);
    LimitEntryIsBalanced(c, p);
    TaxItemsInCents(c, Ascending(TaxesOf(p).Keys), TaxesOf(p));
    TaxItemsAmount(c, TaxesOf(p));
    assert items[1..] == [sale] + taxes;
    assert InCents([sale] + taxes);
    RoundingKeepsCents([sale] + taxes);
    RoundedConcat([items[0]], items[1..]);
    assert items == [items[0]] + items[1..];
    assert e.lines[1..] == [sale] + taxes;
    assert e.lines == [e.lines[0]] + e.lines[1..];
    AmountConcat([e.lines[0]], e.lines[1..], Credit);
    AmountOfOtherSide([e.lines[0]], Credit);
    AmountConcat([sale], taxes, Credit);
    SingleOnItsSide([sale]);
  }

  lemma SingleOnItsSide(lines: seq<Line>)
    requires lines != [] && forall i :: 1 <= i < |lines| ==> lines[i].side != lines[0].side
    ensures Amount(lines, lines[0].side) == lines[0].amount
  {
    AmountConcat(lines[..1], lines[1..], lines[0].side);
    AmountOfOtherSide(lines[1..], lines[0].side);
    assert lines == lines[..1] + lines[1..] && lines[..1][..0] == [];
  }

  // ---------------------------------------------------------------- invoices

  /** A line of the accounting entry of an invoice; `rate` is set on tax lines. */
  datatype MoveLine = MoveLine(rate: Option<int>, balance: Money)

  datatype Invoice = Invoice(refund: bool, total: Money, untaxed: Money, lines: seq<MoveLine>, partner: Partner)

  predicate Configured(c: Company, partner: Partner) {
    Receivable(c, Some(partner)).Some? && c.sale.Some? && c.site != "" && c.saleJournal != ""
    && c.vat9.Some? && c.vat18.Some? && c.airsi.Some?
  }

  function MoveTaxAccount(c: Company, partner: Partner, rate: int): Account
    requires Configured(c, partner)
  {
    if rate == Cents(9) then c.vat9.value else if rate == Cents(18) then c.vat18.value else c.airsi.value
  }

  /** The tax accounts in the order of their first lines, and what each of them gets. */
  function TaxAccounts(c: Company, partner: Partner, lines: seq<MoveLine>): seq<Account>
    requires Configured(c, partner)
  {
    if lines == [] then []
    else
      var accounts := TaxAccounts(c, partner, lines[..|lines| - 1]);
      if lines[|lines| - 1].rate.None? then accounts
      else
        var account := MoveTaxAccount(c, partner, lines[|lines| - 1].rate.value);
        if account in accounts then accounts else accounts + [account]
  }

  function TaxOn(c: Company, partner: Partner, lines: seq<MoveLine>, account: Account): Money
    requires Configured(c, partner)
  {
    if lines == [] then 0
    else
      var last := lines[|lines| - 1];
      TaxOn(c, partner, lines[..|lines| - 1], account)
      + if last.rate.Some? && MoveTaxAccount(c, partner, last.rate.value) == account then Abs(last.balance) else 0
  }

  function AccountItems(side: Side, accounts: seq<Account>, amounts: map<Account, Money>): (items: seq<Line>)
    requires forall account :: account in accounts ==> account in amounts
    ensures forall i :: 0 <= i < |items| ==> items[i].side == side
  {
    if accounts == [] then []
    else
      var account := accounts[|accounts| - 1];
      assert account in accounts;
      var items := AccountItems(side, accounts[..|accounts| - 1], amounts);
      if amounts[account] > 0 then items + [Line(Some(account), side, amounts[account], None)] else items
  }

  ghost function InvoiceTaxes(c: Company, inv: Invoice): map<Account, Money>
    requires Configured(c, inv.partner)
  {
    map account | account in TaxAccounts(c, inv.partner, inv.lines) ::
      Round(TaxOn(c, inv.partner, inv.lines, account))
  }

  ghost function InvoiceHead(c: Company, inv: Invoice): (items: seq<Line>)
    ensures 1 <= |items| <= 2 && items[0].side == if inv.refund then Credit else Debit
    ensures forall i :: 1 <= i < |items| ==> items[i].side != items[0].side
  {
    var client, sale := if inv.refund then Credit else Debit, if inv.refund then Debit else Credit;
    [Line(Receivable(c, Some(inv.partner)), client, inv.total, inv.partner.customer)]
    + if inv.untaxed > 0 then [Line(c.sale, sale, inv.untaxed, None)] else []
  }

  ghost function InvoiceItems(c: Company, inv: Invoice): (items: seq<Line>)
    requires Configured(c, inv.partner)
    ensures |items| >= 1 && items[0] == InvoiceHead(c, inv)[0]
    ensures forall i :: 1 <= i < |items| ==> items[i].side != items[0].side
  {
    InvoiceHead(c, inv)
    + AccountItems(if inv.refund then Debit else Credit, TaxAccounts(c, inv.partner, inv.lines), InvoiceTaxes(c, inv))
  }

  ghost function InvoiceEntry(c: Company, inv: Invoice): Result<Entry, SageError> {
    if !Configured(c, inv.partner) then Err(MissingSetting)
    else if inv.untaxed == 0 then Err(NoProductLine)
    else
      var lines := Equilibrated(Rounded(InvoiceItems(c, inv)), if inv.refund then Credit else Debit);
      Ok(if inv.refund then Entry(Avcli, lines, None) else Entry(Facli, lines, Some(Round(lines[0].amount))))
  }

  /** `_prepare_invoice_entry`. */
  method PrepareInvoiceEntry(c: Company, inv: Invoice) returns (r: Result<Entry, SageError>)
    ensures r == InvoiceEntry(c, inv)
  {
    hide Round, Equilibrated, AccountItems, TaxAccounts, TaxOn;
    if !Configured(c, inv.partner) {
      return Err(MissingSetting);
    }
    var client, sale := Debit, Credit;
    if inv.refund {
      client, sale := Credit, Debit;
    }
    var draft := new Draft();
    draft.Add(Receivable(c, Some(inv.partner)), client, Round(inv.total), inv.partner.customer);
    var accounts, amounts := InvoiceTaxTotals(c, inv.partner, inv.lines);
    amounts := map account | account in amounts :: Round(amounts[account]);
    if inv.untaxed == 0 {
      return Err(NoProductLine);
    }
    if inv.untaxed > 0 {
      draft.Add(c.sale, sale, Round(inv.untaxed), None);
    }
    ghost var head := InvoiceHead(c, inv);
    assert draft.lines == Rounded(head);
    AddAccountLines(draft, sale, accounts, amounts);
    assert amounts == InvoiceTaxes(c, inv);
    RoundedConcat(head, AccountItems(sale, accounts, amounts));
    draft.Equilibrate(client);
    r := Ok(if inv.refund then Entry(Avcli, draft.lines, None)
            else Entry(Facli, draft.lines, Some(Round(draft.lines[0].amount))));
  }

  method AddAccountLines(draft: Draft, side: Side, accounts: seq<Account>, amounts: map<Account, Money>)
    requires forall account :: account in accounts ==> account in amounts
    modifies draft
    ensures draft.lines == old(draft.lines) + Rounded(AccountItems(side, accounts, amounts))
  {
    hide Round;
    for i := 0 to |accounts|
      invariant draft.lines == old(draft.lines) + Rounded(AccountItems(side, accounts[..i], amounts))
    {
      assert accounts[i] in accounts && accounts[..i + 1][..i] == accounts[..i];
      var account := accounts[i];
      if amounts[account] > 0 {
        draft.Add(Some(account), side, Round(amounts[account]), None);
        RoundedAppend(AccountItems(side, accounts[..i], amounts), Line(Some(account), side, amounts[account], None));
      }
    }
    assert accounts[..|accounts|] == accounts;
  }

  /** The taxes by account: a dictionary in the order of insertion. */
  method InvoiceTaxTotals(c: Company, partner: Partner, lines: seq<MoveLine>)
    returns (accounts: seq<Account>, amounts: map<Account, Money>)
    requires Configured(c, partner)
    ensures accounts == TaxAccounts(c, partner, lines)
    ensures amounts == map account | account in accounts :: TaxOn(c, partner, lines, account)
  {
    accounts, amounts := [], map[];
    for i := 0 to |lines|
      invariant accounts == TaxAccounts(c, partner, lines[..i])
      invariant amounts == map account | account in accounts :: TaxOn(c, partner, lines[..i], account)
    {
      assert lines[..i + 1][..i] == lines[..i];
      if lines[i].rate.None? {
        continue;
      }
      var account := MoveTaxAccount(c, partner, lines[i].rate.value);
      if account !in accounts {
        NoTaxYet(c, partner, lines[..i], account);
        accounts := accounts + [account];
      }
      amounts := amounts[account := (if account in amounts then amounts[account] else 0) + Abs(lines[i].balance)];
    }
    assert lines[..|lines|] == lines;
  }

  lemma {:induction false} NoTaxYet(c: Company, partner: Partner, lines: seq<MoveLine>, account: Account)
    requires Configured(c, partner)
    ensures account !in TaxAccounts(c, partner, lines) ==> TaxOn(c, partner, lines, account) == 0
  {
    if lines != [] { NoTaxYet(c, partner, lines[..|lines| - 1], account); }
  }

  /** The entry of an invoice is balanced, its client debit being the sum of its credit lines and its
      single due amount; the entry of a refund keeps its debit lines and has twice the gap it was
      computed with, so it is balanced exactly when the rounded lines already were. */
  lemma InvoiceEntryBalance(c: Company, inv: Invoice)
    requires InvoiceEntry(c, inv).Ok?
    ensures var e, computed := InvoiceEntry(c, inv).value, Rounded(InvoiceItems(c, inv));
            && InCents(e.lines) && |e.lines| == |computed| && e.lines[1..] == computed[1..]
            && (!inv.refund ==>
                 && e.kind == Facli && Balanced(e.lines) && e.due == Some(e.lines[0].amount)
                 && Amount(e.lines, Debit) == e.lines[0].amount == Amount(e.lines, Credit))
            && (inv.refund ==>
                 && e.kind == Avcli && e.due == None
                 && Gap(e.lines) == 2 * (Amount(e.lines, Debit) - Round(inv.total))
                 && Gap(e.lines) == 2 * Gap(computed) && (Balanced(e.lines) <==> Balanced(computed))
                 && (Balanced(e.lines) <==> Amount(e.lines, Debit) == Round(inv.total)))
  {
    hide AccountItems, Amount, Round, Rounded;
    var items := InvoiceItems(c, inv);
    var computed, e := Rounded(items), InvoiceEntry(c, inv).value;
    var client := if inv.refund then Credit else Debit;
    EquilibratedGap(computed, client);
    FirstIs(computed, client, 0);
    SingleOnItsSide(computed);
    SingleOnItsSide(e.lines);
    RoundKeepsCents(e.lines[0].amount);
    if inv.refund { OthersUntouched(computed, e.lines); }
  }

  lemma OthersUntouched(s: seq<Line>, t: seq<Line>)
    requires |s| == |t| && s != [] && s[0].side == t[0].side == Credit && s[1..] == t[1..]
    ensures Amount(s, Debit) == Amount(t, Debit)
  {
    AmountConcat(s[..1], s[1..], Debit);
    AmountConcat(t[..1], t[1..], Debit);
    AmountOfOtherSide(s[..1], Debit);
    AmountOfOtherSide(t[..1], Debit);
    assert s == s[..1] + s[1..] && t == t[..1] + t[1..];
  }

  /** A refund of 1.00 whose only other line is 0.99: off by a cent, it is sent off by two. */
  lemma RefundGapIsDoubled(c: Company, partner: Partner)
    requires Configured(c, partner)
    ensures var inv := Invoice(true, Cents(100), Cents(99), [], partner);
            InvoiceEntry(c, inv).Ok? && Gap(InvoiceEntry(c, inv).value.lines) == 0 - Cents(2)
  {
    hide Round, Equilibrated;
    var inv := Invoice(true, Cents(100), Cents(99), [], partner);
    InvoiceEntryBalance(c, inv);
    RoundKeepsCents(Cents(100));
    RoundKeepsCents(Cents(99));
    var items, lines := InvoiceItems(c, inv), InvoiceEntry(c, inv).value.lines;
    assert items == InvoiceHead(c, inv);
    assert lines == [lines[0], Rounded(items)[1]] by { assert lines[1..] == Rounded(items)[1..]; }
    assert lines[0].side == Credit && lines[1] == Line(c.sale, Debit, Cents(99), None);
    AmountAppend([lines[0]], lines[1], Debit);
    AmountOfOtherSide([lines[0]], Debit);
  }
}
