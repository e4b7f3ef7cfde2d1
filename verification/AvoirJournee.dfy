/** The report "Avoir journée": orders paid in food credit, by customer category and customer
    (custom_pos/wizard/avoir_journee_wizard.py). Amounts are integers in one small unit; dates, numbers
    and names are integers in the order of the values they stand for. */
module AvoirJournee {
  import opened Digraphs
  import opened Ordering
  import opened Sums

  type CategoryId = int
  type PartnerId = int
  type ModeId = int

  /** The group of the customers without category; records are numbered from 1. */
  const NO_CATEGORY: CategoryId := 0

  datatype Payment = Payment(mode: ModeId, amount: int)

  datatype Partner = Partner(number: int, name: int, categories: set<CategoryId>)

  datatype PosOrder = PosOrder(date: int, name: int, partner: PartnerId, payments: seq<Payment>)

  datatype Line = Line(date: int, name: int, amount: int)

  datatype Client = Client(lines: seq<Line>, subtotal: int)

  datatype Category = Category(clients: map<PartnerId, Client>, total: int)

  /** A line with the categories it is filed under. */
  datatype Filed = Filed(cats: set<CategoryId>, partner: PartnerId, line: Line)

  // ---------------------------------------------------------------- what should be filed

  ghost function ModeWeight(mode: ModeId): Payment -> int {
    (p: Payment) => if p.mode == mode then p.amount else 0
  }

  ghost function FoodAmount(o: PosOrder, mode: ModeId): int {
    SumBy(o.payments, ModeWeight(mode))
  }

  /** The categories of an order; none when it is left out. */
  ghost function Targets(o: PosOrder, mode: ModeId, wanted: set<CategoryId>,
                         partners: map<PartnerId, Partner>): set<CategoryId>
    requires o.partner in partners
  {
    var cats := partners[o.partner].categories;
    if FoodAmount(o, mode) == 0 then {}
    else if wanted != {} then cats * wanted
    else if cats == {} then {NO_CATEGORY}
    else cats
  }

  ghost function FiledAs(o: PosOrder, mode: ModeId, wanted: set<CategoryId>, partners: map<PartnerId, Partner>): Filed
    requires o.partner in partners
  {
    Filed(Targets(o, mode, wanted, partners), o.partner, Line(o.date, o.name, FoodAmount(o, mode)))
  }

  predicate Known(orders: seq<PosOrder>, partners: map<PartnerId, Partner>) {
    forall i :: 0 <= i < |orders| ==> orders[i].partner in partners
  }

  ghost function AllFiled(orders: seq<PosOrder>, mode: ModeId, wanted: set<CategoryId>,
                          partners: map<PartnerId, Partner>): (r: seq<Filed>)
    requires Known(orders, partners)
    ensures |r| == |orders|
    ensures forall i :: 0 <= i < |orders| ==> r[i] == FiledAs(orders[i], mode, wanted, partners)
  {
    seq(|orders|, i requires 0 <= i < |orders| => FiledAs(orders[i], mode, wanted, partners))
  }

  ghost function CategoriesOf(filed: seq<Filed>): set<CategoryId> {
    if filed == [] then {} else CategoriesOf(filed[..|filed| - 1]) + filed[|filed| - 1].cats
  }

  ghost function ClientsOf(filed: seq<Filed>, k: CategoryId): set<PartnerId> {
    if filed == [] then {}
    else ClientsOf(filed[..|filed| - 1], k) + if k in filed[|filed| - 1].cats then {filed[|filed| - 1].partner} else {}
  }

  ghost function LinesOf(filed: seq<Filed>, k: CategoryId, p: PartnerId): seq<Line> {
    if filed == [] then []
    else
      var f := filed[|filed| - 1];
      LinesOf(filed[..|filed| - 1], k, p) + if k in f.cats && f.partner == p then [f.line] else []
  }

  ghost function LineAmount(): Line -> int {
    (l: Line) => l.amount
  }

  ghost function CategoryWeight(k: CategoryId): Filed -> int {
    (f: Filed) => if k in f.cats then f.line.amount else 0
  }

  ghost function ClientWeight(k: CategoryId, p: PartnerId): Filed -> int {
    (f: Filed) => if k in f.cats && f.partner == p then f.line.amount else 0
  }

  ghost function ClientOf(filed: seq<Filed>, k: CategoryId, p: PartnerId): Client {
    Client(LinesOf(filed, k, p), SumBy(filed, ClientWeight(k, p)))
  }

  ghost function CategoryOf(filed: seq<Filed>, k: CategoryId): Category {
    Category(map p | p in ClientsOf(filed, k) :: ClientOf(filed, k, p), SumBy(filed, CategoryWeight(k)))
  }

  /** The dictionary `result` after everything in `filed`. */
  ghost function ResultOf(filed: seq<Filed>): map<CategoryId, Category> {
    map k | k in CategoriesOf(filed) :: CategoryOf(filed, k)
  }

  // ---------------------------------------------------------------- filing

  lemma {:induction false} AbsentClient(filed: seq<Filed>, k: CategoryId, p: PartnerId)
    ensures p !in ClientsOf(filed, k) ==> ClientOf(filed, k, p) == Client([], 0)
  {
    if filed != [] { AbsentClient(filed[..|filed| - 1], k, p); }
  }

  lemma {:induction false} AbsentCategory(filed: seq<Filed>, k: CategoryId)
    ensures k !in CategoriesOf(filed) ==> ClientsOf(filed, k) == {} && SumBy(filed, CategoryWeight(k)) == 0
  {
    if filed != [] { AbsentCategory(filed[..|filed| - 1], k); }
  }

  /** Filing the last line under one more category. */
  lemma FiledUnderOneMore(before: seq<Filed>, f: Filed, k: CategoryId)
    requires k !in f.cats
    ensures var s, t := before + [f], before + [f.(cats := f.cats + {k})];
            && CategoriesOf(t) == CategoriesOf(s) + {k}
            && (forall j :: j != k ==> CategoryOf(t, j) == CategoryOf(s, j))
            && ClientsOf(t, k) == ClientsOf(s, k) + {f.partner}
            && SumBy(t, CategoryWeight(k)) == SumBy(s, CategoryWeight(k)) + f.line.amount
            && (forall p :: p != f.partner ==> ClientOf(t, k, p) == ClientOf(s, k, p))
            && ClientOf(t, k, f.partner).lines == ClientOf(s, k, f.partner).lines + [f.line]
            && ClientOf(t, k, f.partner).subtotal == ClientOf(s, k, f.partner).subtotal + f.line.amount
  {
    var s, t := before + [f], before + [f.(cats := f.cats + {k})];
    assert s[..|s| - 1] == before && t[..|t| - 1] == before;
    forall j | j != k ensures CategoryOf(t, j) == CategoryOf(s, j) {
      assert ClientsOf(t, j) == ClientsOf(s, j);
      forall p ensures ClientOf(t, j, p) == ClientOf(s, j, p) { }
      assert CategoryOf(t, j).clients == CategoryOf(s, j).clients;
    }
  }

  /** The wizard, with the dictionary it fills. */
  class Report {
    const mode: ModeId
    const wanted: set<CategoryId>
    const partners: map<PartnerId, Partner>
    const nameOf: CategoryId -> int
    var result: map<CategoryId, Category>

    constructor (mode: ModeId, wanted: set<CategoryId>, partners: map<PartnerId, Partner>, nameOf: CategoryId -> int)
      ensures this.mode == mode && this.wanted == wanted && this.partners == partners && this.nameOf == nameOf
      ensures result == map[]
    {
      this.mode, this.wanted, this.partners, this.nameOf, result := mode, wanted, partners, nameOf, map[];
    }

    /** `_add_to_result`: the line of `f` is filed under one more category. */
    method AddToResult(k: CategoryId, partner: PartnerId, line: Line, ghost before: seq<Filed>, ghost f: Filed)
      requires f.partner == partner && f.line == line && k !in f.cats && result == ResultOf(before + [f])
      modifies this
      ensures result == ResultOf(before + [f.(cats := f.cats + {k})])
    {
      hide CategoriesOf, ClientsOf, LinesOf, SumBy;
      AbsentCategory(before + [f], k);
      AbsentClient(before + [f], k, partner);
      FiledUnderOneMore(before, f, k);
      if k !in result {
        result := result[k := Category(map[], 0)];
      }
      var category := result[k];
      var client := if partner in category.clients then category.clients[partner] else Client([], 0);
      client := Client(client.lines + [line], client.subtotal + line.amount);
      category := Category(category.clients[partner := client], category.total + line.amount);
      result := result[k := category];
      assert category.clients == CategoryOf(before + [f.(cats := f.cats + {k})], k).clients;
    }

    method FoodAmountOf(o: PosOrder) returns (amount: int)
      ensures amount == FoodAmount(o, mode)
    {
      amount := 0;
      for i := 0 to |o.payments|
        invariant amount == SumBy(o.payments[..i], ModeWeight(mode))
      {
        assert o.payments[..i + 1][..i] == o.payments[..i];
        if o.payments[i].mode == mode {
          amount := amount + o.payments[i].amount;
        }
      }
      assert o.payments[..|o.payments|] == o.payments;
    }

    /** One order of the loop of `get_data_by_category`; its categories come in an arbitrary order. */
    method FileOrder(o: PosOrder, ghost before: seq<Filed>)
      requires o.partner in partners && result == ResultOf(before)
      modifies this
      ensures result == ResultOf(before + [FiledAs(o, mode, wanted, partners)])
    {
      hide ResultOf;
      var amount := FoodAmountOf(o);
      ghost var f := FiledAs(o, mode, wanted, partners);
      NowhereFiled(before, f.(cats := {}));
      if amount == 0 {
        return;
      }
      var cats := partners[o.partner].categories;
      if wanted != {} {
        cats := cats * wanted;
        if cats == {} {
          return;
        }
      }
      var line := Line(o.date, o.name, amount);
      if cats == {} {
        assert {} + {NO_CATEGORY} == f.cats;
        AddToResult(NO_CATEGORY, o.partner, line, before, f.(cats := {}));
      } else {
        var todo := cats;
        assert cats - todo == {};
        while todo != {}
          invariant todo <= cats && result == ResultOf(before + [f.(cats := cats - todo)])
        {
          var k := Pick(todo);
          AddToResult(k, o.partner, line, before, f.(cats := cats - todo));
          assert cats - todo + {k} == cats - (todo - {k});
          todo := todo - {k};
        }
        assert cats - {} == f.cats;
      }
    }

    method FileAll(orders: seq<PosOrder>)
      requires Known(orders, partners) && result == map[]
      modifies this
      ensures result == ResultOf(AllFiled(orders, mode, wanted, partners))
    {
      hide ResultOf, FiledAs;
      NothingFiled();
      for i := 0 to |orders|
        invariant result == ResultOf(AllFiled(orders[..i], mode, wanted, partners))
      {
        ghost var before := AllFiled(orders[..i], mode, wanted, partners);
        FileOrder(orders[i], before);
        assert before + [FiledAs(orders[i], mode, wanted, partners)] ==
                 AllFiled(orders[..i + 1], mode, wanted, partners);
      }
      assert orders[..|orders|] == orders;
    }

    /** `get_data_by_category`. Every category is printed once, by name. In each, the total is the sum
        of the subtotals, and each subtotal the sum of its lines; all the totals together are the food
        amounts of the orders, each as many times as it is filed. */
    method GetDataByCategory(orders: seq<PosOrder>)
        returns (final: seq<CategoryReport>, ghost printed: map<CategoryId, CategoryReport>)
      requires Known(orders, partners)
      modifies this
      ensures var filed := AllFiled(orders, mode, wanted, partners);
              AllPrinted(printed, filed, nameOf, partners) && Lists(final, printed, CategoryOrder)
      ensures forall r | r in final :: AddsUp(r)
      ensures SumBy(final, TotalOf()) == SumBy(orders, OrderWeight(mode, wanted, partners))
    {
      hide AllPrinted, AddsUp, CategoriesOf, ClientsOf, AllFiled, Lists, InOrder, SortedBy;
      result := map[];
      FileAll(orders);
      ghost var filed := AllFiled(orders, mode, wanted, partners);
      forall k ensures ClientsOf(filed, k) <= partners.Keys { ClientsAreKnown(orders, mode, wanted, partners, k); }
      var reports := PrintAll(filed);
      printed := reports;
      var list := ValuesOf(reports, TotalOf());
      SortedLists(list, reports, CategoryOrder, TotalOf());
      final := SortedBy(list, CategoryOrder);
      TotalsOfReports(orders, mode, wanted, partners, reports, nameOf);
      FinalAddsUp(final, reports, filed, nameOf, partners);
      assert SumBy(final, TotalOf()) == Total(Weights(reports, TotalOf()));
    }

    method PrintAll(ghost filed: seq<Filed>) returns (reports: map<CategoryId, CategoryReport>)
      requires result == ResultOf(filed) && forall k :: ClientsOf(filed, k) <= partners.Keys
      ensures AllPrinted(reports, filed, nameOf, partners)
    {
      hide Printed, CategoriesOf, ClientsOf;
      reports := map[];
      var todo := result.Keys;
      while todo != {}
        invariant todo <= result.Keys && reports.Keys == result.Keys - todo
        invariant forall k | k in reports :: Printed(reports[k], k, CategoryOf(filed, k), nameOf(k), partners)
      {
        var k := Pick(todo);
        var r := PrintCategory(k, result[k], nameOf(k), partners);
        reports := reports[k := r];
        todo := todo - {k};
      }
    }

    /** `get_grand_total`. */
    method GetGrandTotal(orders: seq<PosOrder>) returns (total: int)
      requires Known(orders, partners)
      modifies this
      ensures total == SumBy(orders, OrderWeight(mode, wanted, partners))
    {
      var final, _ := GetDataByCategory(orders);
      total := 0;
      for i := 0 to |final|
        invariant total == SumBy(final[..i], TotalOf())
      {
        assert final[..i + 1][..i] == final[..i];
        total := total + final[i].total;
      }
      assert final[..|final|] == final;
    }
  }

  // ---------------------------------------------------------------- conservation

  /** A customer's subtotal is the sum of the lines. */
  lemma {:induction false} SubtotalIsSum(filed: seq<Filed>, k: CategoryId, p: PartnerId)
    ensures ClientOf(filed, k, p).subtotal == SumBy(ClientOf(filed, k, p).lines, LineAmount())
  {
    if filed != [] {
      var init, f := filed[..|filed| - 1], filed[|filed| - 1];
      SubtotalIsSum(init, k, p);
      SumByAppend(LinesOf(init, k, p), f.line, LineAmount());
      assert LinesOf(init, k, p) + [] == LinesOf(init, k, p);
    }
  }

  ghost function Subtotals(on: set<PartnerId>, filed: seq<Filed>, k: CategoryId): map<PartnerId, int> {
    map p | p in on :: SumBy(filed, ClientWeight(k, p))
  }

  lemma {:induction false} CategoryTotalOn(on: set<PartnerId>, filed: seq<Filed>, k: CategoryId)
    requires ClientsOf(filed, k) <= on
    ensures SumBy(filed, CategoryWeight(k)) == Total(Subtotals(on, filed, k))
  {
    hide Total, Subtotals, Indicator, CategoryWeight, SumBy;
    if filed == [] {
      NoTotals(on, k);
    } else {
      var init, f := filed[..|filed| - 1], filed[|filed| - 1];
      CategoryTotalOn(on, init, k);
      var chosen := if k in f.cats then {f.partner} else {};
      TotalIndicator(on, chosen, f.line.amount);
      SubtotalsStep(on, init, f, k);
      TotalPlus(Subtotals(on, init, k), Indicator(on, chosen, f.line.amount));
      assert filed == init + [f];
      SumByAppend(init, f, CategoryWeight(k));
      WeightIs(f, k);
    }
  }

  lemma WeightIs(f: Filed, k: CategoryId)
    ensures CategoryWeight(k)(f) == if k in f.cats then f.line.amount else 0
  {
  }

  lemma NoTotals(on: set<int>, k: CategoryId)
    ensures Total(Subtotals(on, [], k)) == 0 == Total(CategoryTotals(on, [])) && SumBy([], CategoryWeight(k)) == 0
  {
    TotalIndicator(on, {}, 0);
    assert Subtotals(on, [], k) == Indicator(on, {}, 0) == CategoryTotals(on, []);
  }

  lemma SubtotalsStep(on: set<PartnerId>, init: seq<Filed>, f: Filed, k: CategoryId)
    ensures var chosen, s := if k in f.cats then {f.partner} else {}, Subtotals(on, init, k);
            Indicator(on, chosen, f.line.amount).Keys == s.Keys
                && Subtotals(on, init + [f], k) == Plus(s, Indicator(on, chosen, f.line.amount))
  {
    hide SumBy;
    forall p ensures SumBy(init + [f], ClientWeight(k, p)) == SumBy(init, ClientWeight(k, p)) + ClientWeight(k, p)(f) {
      SumByAppend(init, f, ClientWeight(k, p));
    }
  }

  ghost function CategoryTotals(on: set<CategoryId>, filed: seq<Filed>): map<CategoryId, int> {
    map k | k in on :: SumBy(filed, CategoryWeight(k))
  }

  /** The amount of a line, as many times as it is filed. */
  ghost function Copies(): Filed -> int {
    (f: Filed) => f.line.amount * |f.cats|
  }

  lemma {:induction false} GrandTotalOn(on: set<CategoryId>, filed: seq<Filed>)
    requires CategoriesOf(filed) <= on
    ensures Total(CategoryTotals(on, filed)) == SumBy(filed, Copies())
  {
    hide Total, CategoryTotals, Indicator;
    if filed == [] {
      NoTotals(on, 0);
    } else {
      var init, f := filed[..|filed| - 1], filed[|filed| - 1];
      GrandTotalOn(on, init);
      TotalIndicator(on, f.cats, f.line.amount);
      CategoryTotalsStep(on, init, f);
      TotalPlus(CategoryTotals(on, init), Indicator(on, f.cats, f.line.amount));
      assert filed == init + [f];
    }
  }

  lemma CategoryTotalsStep(on: set<CategoryId>, init: seq<Filed>, f: Filed)
    ensures var s := CategoryTotals(on, init);
            Indicator(on, f.cats, f.line.amount).Keys == s.Keys
                && CategoryTotals(on, init + [f]) == Plus(s, Indicator(on, f.cats, f.line.amount))
  {
    hide SumBy;
    forall k ensures SumBy(init + [f], CategoryWeight(k)) == SumBy(init, CategoryWeight(k)) + CategoryWeight(k)(f) {
      SumByAppend(init, f, CategoryWeight(k));
    }
  }

  /** What an order brings to the grand total: its food amount for each category it is filed under,
      once if its customer has none, and nothing if none of them is wanted. */
  ghost function OrderWeight(mode: ModeId, wanted: set<CategoryId>,
                             partners: map<PartnerId, Partner>): PosOrder -> int {
    (o: PosOrder) =>
      if o.partner !in partners then 0
      else
        var cats := partners[o.partner].categories;
        FoodAmount(o, mode) * (if wanted != {} then |cats * wanted| else if cats == {} then 1 else |cats|)
  }

  lemma {:induction false} CopiesOfOrders(orders: seq<PosOrder>, mode: ModeId, wanted: set<CategoryId>,
                                          partners: map<PartnerId, Partner>)
    requires Known(orders, partners)
    ensures SumBy(AllFiled(orders, mode, wanted, partners), Copies()) ==
              SumBy(orders, OrderWeight(mode, wanted, partners))
  {
    hide FoodAmount;
    if orders != [] {
      var init, o := orders[..|orders| - 1], orders[|orders| - 1];
      CopiesOfOrders(init, mode, wanted, partners);
      var filed := AllFiled(orders, mode, wanted, partners);
      assert filed[..|filed| - 1] == AllFiled(init, mode, wanted, partners);
      assert Copies()(FiledAs(o, mode, wanted, partners)) == OrderWeight(mode, wanted, partners)(o);
    }
  }

  lemma NothingFiled()
    ensures ResultOf([]) == map[]
  {
  }

  lemma NowhereFiled(before: seq<Filed>, f: Filed)
    requires f.cats == {}
    ensures ResultOf(before + [f]) == ResultOf(before)
  {
    hide SumBy;
    assert (before + [f])[..|before|] == before;
    forall k ensures CategoryOf(before + [f], k) == CategoryOf(before, k) {
      SumByAppend(before, f, CategoryWeight(k));
      forall p ensures ClientOf(before + [f], k, p) == ClientOf(before, k, p) {
        SumByAppend(before, f, ClientWeight(k, p));
      }
    }
  }

  // ---------------------------------------------------------------- the report

  datatype ClientReport = ClientReport(partner: PartnerId, number: int, name: int, lines: seq<Line>, subtotal: int)

  datatype CategoryReport = CategoryReport(key: CategoryId, name: int, clients: seq<ClientReport>, total: int)

  predicate LineOrder(x: Line, y: Line) {
    x.date < y.date || (x.date == y.date && x.name <= y.name)
  }

  predicate ClientOrder(x: ClientReport, y: ClientReport) {
    x.number < y.number || (x.number == y.number && x.name <= y.name)
  }

  predicate CategoryOrder(x: CategoryReport, y: CategoryReport) {
    x.name <= y.name
  }

  ghost function SubtotalOf(): ClientReport -> int {
    (c: ClientReport) => c.subtotal
  }

  ghost function TotalOf(): CategoryReport -> int {
    (c: CategoryReport) => c.total
  }

  function ReportOfClient(p: PartnerId, partner: Partner, c: Client): ClientReport {
    ClientReport(p, partner.number, partner.name, SortedBy(c.lines, LineOrder), c.subtotal)
  }

  /** `d.values()`, in an arbitrary order. */
  method ValuesOf<K, V(==)>(d: map<K, V>, ghost weight: V -> int) returns (list: seq<V>)
    ensures |list| == |d| && (forall v :: v in list <==> v in d.Values)
    ensures SumBy(list, weight) == Total(Weights(d, weight))
  {
    hide Total, SumBy;
    list := [];
    var todo := d.Keys;
    ghost var all := Weights(d, weight);
    assert all - todo == map[];
    NoWeights(all - todo, weight);
    while todo != {}
      invariant todo <= d.Keys && |list| + |todo| == |d.Keys|
      invariant forall v :: v in list ==> v in d.Values
      invariant forall k :: k in d && k !in todo ==> d[k] in list
      invariant SumBy(list, weight) == Total(all - todo)
    {
      var k := Pick(todo);
      SumByAppend(list, d[k], weight);
      TotalSplit(all - (todo - {k}), k);
      assert all - (todo - {k}) - {k} == all - todo;
      assert k in d.Keys;
      list := list + [d[k]];
      todo := todo - {k};
    }
    assert all - {} == all && |d.Keys| == |d|;
  }

  ghost function Weights<K, V>(d: map<K, V>, weight: V -> int): map<K, int> {
    map k | k in d :: weight(d[k])
  }

  lemma NoWeights<K, V>(none: map<K, int>, weight: V -> int)
    requires none == map[]
    ensures SumBy([], weight) == Total(none) == 0
  {
  }

  /** Everything in the dictionary once, in order. */
  ghost predicate Lists<K, V(!new)>(list: seq<V>, d: map<K, V>, le: (V, V) -> bool) {
    InOrder(list, le) && |list| == |d| && forall v :: v in list <==> v in d.Values
  }

  lemma SortedLists<K, V(!new)>(list: seq<V>, d: map<K, V>, le: (V, V) -> bool, weight: V -> int)
    requires TotalPreorder(le) && |list| == |d| && forall v :: v in list <==> v in d.Values
    ensures Lists(SortedBy(list, le), d, le) && SumBy(SortedBy(list, le), weight) == SumBy(list, weight)
  {
    SortedByInOrder(list, le);
    SumByPermutation(list, SortedBy(list, le), weight);
    SameElements(list, SortedBy(list, le));
  }

  lemma SameElements<T>(s: seq<T>, t: seq<T>)
    requires multiset(s) == multiset(t)
    ensures |s| == |t| && forall x :: x in s <==> x in t
  {
    assert |s| == |multiset(s)| && |t| == |multiset(t)|;
    forall x ensures x in s <==> x in t {
      assert x in multiset(s) <==> x in multiset(t);
    }
  }

  /** The reports of the customers of a category. */
  function ClientReports(clients: map<PartnerId, Client>,
                         partners: map<PartnerId, Partner>): map<PartnerId, ClientReport>
    requires clients.Keys <= partners.Keys
  {
    map p | p in clients :: ReportOfClient(p, partners[p], clients[p])
  }

  /** A category as it is printed: its customers by number and name, each with the lines by date and number. */
  ghost predicate Printed(r: CategoryReport, k: CategoryId, c: Category, name: int, partners: map<PartnerId, Partner>) {
    && r.key == k && r.name == name && r.total == c.total && c.clients.Keys <= partners.Keys
    && Lists(r.clients, ClientReports(c.clients, partners), ClientOrder)
    && SumBy(r.clients, SubtotalOf()) == Total(map p | p in c.clients :: c.clients[p].subtotal)
  }

  method PrintCategory(k: CategoryId, c: Category, name: int, partners: map<PartnerId, Partner>)
      returns (r: CategoryReport)
    requires c.clients.Keys <= partners.Keys
    ensures Printed(r, k, c, name, partners)
  {
    var reports := ClientReports(c.clients, partners);
    var list := ValuesOf(reports, SubtotalOf());
    assert Weights(reports, SubtotalOf()) == map p | p in c.clients :: c.clients[p].subtotal;
    SortedLists(list, reports, ClientOrder, SubtotalOf());
    r := CategoryReport(k, name, SortedBy(list, ClientOrder), c.total);
  }

  lemma {:induction false} ClientsAreKnown(orders: seq<PosOrder>, mode: ModeId, wanted: set<CategoryId>,
                                           partners: map<PartnerId, Partner>, k: CategoryId)
    requires Known(orders, partners)
    ensures ClientsOf(AllFiled(orders, mode, wanted, partners), k) <= partners.Keys
  {
    if orders != [] {
      var init, filed := orders[..|orders| - 1], AllFiled(orders, mode, wanted, partners);
      ClientsAreKnown(init, mode, wanted, partners, k);
      assert filed[..|filed| - 1] == AllFiled(init, mode, wanted, partners);
    }
  }

  lemma KeyOf<K, V>(d: map<K, V>, v: V) returns (k: K)
    requires v in d.Values
    ensures k in d && d[k] == v
  {
    k :| k in d && d[k] == v;
  }

  ghost predicate AllPrinted(reports: map<CategoryId, CategoryReport>, filed: seq<Filed>, nameOf: CategoryId -> int,
                             partners: map<PartnerId, Partner>) {
    && reports.Keys == CategoriesOf(filed)
    && forall k | k in reports :: Printed(reports[k], k, CategoryOf(filed, k), nameOf(k), partners)
  }

  /** The total is the sum of the subtotals, and each subtotal the sum of its lines. */
  ghost predicate AddsUp(r: CategoryReport) {
    r.total == SumBy(r.clients, SubtotalOf()) && forall c | c in r.clients :: c.subtotal == SumBy(c.lines, LineAmount())
  }

  lemma FinalAddsUp(final: seq<CategoryReport>, reports: map<CategoryId, CategoryReport>, filed: seq<Filed>,
                    nameOf: CategoryId -> int, partners: map<PartnerId, Partner>)
    requires AllPrinted(reports, filed, nameOf, partners) && Lists(final, reports, CategoryOrder)
    ensures forall r | r in final :: AddsUp(r)
  {
    hide Printed, CategoriesOf, InOrder, AddsUp;
    forall r | r in final ensures AddsUp(r) {
      var k := KeyOf(reports, r);
      PrintedConserves(r, k, filed, nameOf(k), partners);
    }
  }

  lemma PrintedConserves(r: CategoryReport, k: CategoryId, filed: seq<Filed>, name: int,
                         partners: map<PartnerId, Partner>)
    requires Printed(r, k, CategoryOf(filed, k), name, partners)
    ensures AddsUp(r)
  {
    hide Total, SumBy, SortedBy, ClientsOf, LinesOf, InOrder;
    CategoryTotalOn(ClientsOf(filed, k), filed, k);
    var clients := CategoryOf(filed, k).clients;
    assert Subtotals(ClientsOf(filed, k), filed, k) == map p | p in clients :: clients[p].subtotal;
    forall c | c in r.clients ensures c.subtotal == SumBy(c.lines, LineAmount()) {
      assert c in ClientReports(clients, partners).Values;
      var p :| p in clients && c == ReportOfClient(p, partners[p], clients[p]);
      SubtotalIsSum(filed, k, p);
      SumByPermutation(c.lines, clients[p].lines, LineAmount());
    }
  }

  lemma TotalsOfReports(orders: seq<PosOrder>, mode: ModeId, wanted: set<CategoryId>, partners: map<PartnerId, Partner>,
                        reports: map<CategoryId, CategoryReport>, nameOf: CategoryId -> int)
    requires Known(orders, partners)
    requires AllPrinted(reports, AllFiled(orders, mode, wanted, partners), nameOf, partners)
    ensures Total(Weights(reports, TotalOf())) == SumBy(orders, OrderWeight(mode, wanted, partners))
  {
    hide Total, SumBy, CategoriesOf, FiledAs;
    var filed := AllFiled(orders, mode, wanted, partners);
    GrandTotalOn(CategoriesOf(filed), filed);
    CopiesOfOrders(orders, mode, wanted, partners);
    assert Weights(reports, TotalOf()) == CategoryTotals(CategoriesOf(filed), filed);
  }

  // ---------------------------------------------------------------- the order of the orders

  lemma FiledTakenOut(t: seq<PosOrder>, i: nat, mode: ModeId, wanted: set<CategoryId>,
                      partners: map<PartnerId, Partner>)
    requires Known(t, partners) && i < |t|
    ensures multiset(AllFiled(t, mode, wanted, partners)) ==
            multiset(AllFiled(t[..i] + t[i + 1..], mode, wanted, partners))
                + multiset{FiledAs(t[i], mode, wanted, partners)}
  {
    hide FiledAs;
    var filed := AllFiled(t, mode, wanted, partners);
    assert AllFiled(t[..i] + t[i + 1..], mode, wanted, partners) == filed[..i] + filed[i + 1..];
    assert filed == filed[..i] + [filed[i]] + filed[i + 1..];
  }

  lemma {:induction false} FiledPermutation(s: seq<PosOrder>, t: seq<PosOrder>, mode: ModeId, wanted: set<CategoryId>,
                                            partners: map<PartnerId, Partner>)
    requires multiset(s) == multiset(t) && Known(s, partners) && Known(t, partners)
    ensures multiset(AllFiled(s, mode, wanted, partners)) == multiset(AllFiled(t, mode, wanted, partners))
  {
    hide FiledAs, AllFiled;
    if s == [] {
      assert |multiset(t)| == 0;
      assert s == t;
    } else {
      var last := |s| - 1;
      assert s == s[..last] + [s[last]];
      assert s[..last] + s[last + 1..] == s[..last];
      var rest, i := TakeOut(t, s[last]);
      assert multiset(s[..last]) == multiset(s) - multiset{s[last]};
      FiledPermutation(s[..last], rest, mode, wanted, partners);
      FiledTakenOut(s, last, mode, wanted, partners);
      FiledTakenOut(t, i, mode, wanted, partners);
    }
  }

  ghost function LineCount(k: CategoryId, p: PartnerId, l: Line): Filed -> int {
    (f: Filed) => if k in f.cats && f.partner == p && f.line == l then 1 else 0
  }

  lemma {:induction false} LinesCounted(filed: seq<Filed>, k: CategoryId, p: PartnerId, l: Line)
    ensures multiset(LinesOf(filed, k, p))[l] == SumBy(filed, LineCount(k, p, l))
  {
    if filed != [] { LinesCounted(filed[..|filed| - 1], k, p, l); }
  }

  lemma {:induction false} CategoriesAndClients(filed: seq<Filed>, k: CategoryId, p: PartnerId)
    ensures k in CategoriesOf(filed) <==> exists f :: f in filed && k in f.cats
    ensures p in ClientsOf(filed, k) <==> exists f :: f in filed && k in f.cats && f.partner == p
  {
    if filed != [] {
      var init, last := filed[..|filed| - 1], filed[|filed| - 1];
      assert filed == init + [last];
      assert forall f :: f in filed <==> f in init || f == last;
      CategoriesAndClients(init, k, p);
    }
  }

  /** The report does not depend on the order in which the orders are found: the same categories, the
      same customers in each, the same lines, subtotals and totals. */
  lemma OrderOfOrdersIsIrrelevant(s: seq<PosOrder>, t: seq<PosOrder>, mode: ModeId, wanted: set<CategoryId>,
                                  partners: map<PartnerId, Partner>, k: CategoryId, p: PartnerId)
    requires multiset(s) == multiset(t) && Known(s, partners) && Known(t, partners)
    ensures var fs, ft := AllFiled(s, mode, wanted, partners), AllFiled(t, mode, wanted, partners);
            && (k in CategoriesOf(fs) <==> k in CategoriesOf(ft))
            && (p in ClientsOf(fs, k) <==> p in ClientsOf(ft, k))
            && multiset(ClientOf(fs, k, p).lines) == multiset(ClientOf(ft, k, p).lines)
            && ClientOf(fs, k, p).subtotal == ClientOf(ft, k, p).subtotal
            && CategoryOf(fs, k).total == CategoryOf(ft, k).total
  {
    hide AllFiled, SumBy;
    var fs, ft := AllFiled(s, mode, wanted, partners), AllFiled(t, mode, wanted, partners);
    FiledPermutation(s, t, mode, wanted, partners);
    SameElements(fs, ft);
    CategoriesAndClients(fs, k, p);
    CategoriesAndClients(ft, k, p);
    SumByPermutation(fs, ft, ClientWeight(k, p));
    SumByPermutation(fs, ft, CategoryWeight(k));
    forall l ensures multiset(LinesOf(fs, k, p))[l] == multiset(LinesOf(ft, k, p))[l] {
      LinesCounted(fs, k, p, l);
      LinesCounted(ft, k, p, l);
      SumByPermutation(fs, ft, LineCount(k, p, l));
    }
  }

  // ---------------------------------------------------------------- which payments count

  /** The payments made with the method of the report. */
  function OfMode(payments: seq<Payment>, mode: ModeId): seq<Payment> {
    if payments == [] then []
    else
      var last := payments[|payments| - 1];
      OfMode(payments[..|payments| - 1], mode) + if last.mode == mode then [last] else []
  }

  ghost function PaymentAmount(): Payment -> int {
    (p: Payment) => p.amount
  }

  lemma {:induction false} FoodAmountIs(payments: seq<Payment>, mode: ModeId)
    ensures SumBy(payments, ModeWeight(mode)) == SumBy(OfMode(payments, mode), PaymentAmount())
  {
    if payments != [] {
      var init, last := payments[..|payments| - 1], payments[|payments| - 1];
      FoodAmountIs(init, mode);
      SumByAppend(OfMode(init, mode), last, PaymentAmount());
      assert OfMode(init, mode) + [] == OfMode(init, mode);
    }
  }

  lemma {:induction false} OfModeConcat(s: seq<Payment>, t: seq<Payment>, mode: ModeId)
    ensures OfMode(s + t, mode) == OfMode(s, mode) + OfMode(t, mode)
  {
    if t == [] {
      assert s + t == s;
    } else {
      OfModeConcat(s, t[..|t| - 1], mode);
      assert (s + t)[..|s + t| - 1] == s + t[..|t| - 1];
    }
  }

  /** The same order with one payment more, at any place. */
  function WithPayment(o: PosOrder, i: nat, p: Payment): PosOrder
    requires i <= |o.payments|
  {
    o.(payments := o.payments[..i] + [p] + o.payments[i..])
  }

  /** The orders differ at most in payments of other methods. */
  predicate SameButOtherModes(s: seq<PosOrder>, t: seq<PosOrder>, mode: ModeId) {
    && |s| == |t|
    && forall i :: 0 <= i < |s| ==>
         && s[i].date == t[i].date && s[i].name == t[i].name && s[i].partner == t[i].partner
         && OfMode(s[i].payments, mode) == OfMode(t[i].payments, mode)
  }

  /** A payment of another method, put in or taken out, makes no such difference. */
  lemma OtherPaymentIsIgnored(o: PosOrder, i: nat, p: Payment, mode: ModeId)
    requires i <= |o.payments| && p.mode != mode
    ensures SameButOtherModes([o], [WithPayment(o, i, p)], mode)
  {
    var before, after := o.payments[..i], o.payments[i..];
    assert o.payments == before + after;
    assert [p][..0] == [];
    assert OfMode([p], mode) == [];
    OfModeConcat(before, after, mode);
    OfModeConcat(before, [p], mode);
    OfModeConcat(before + [p], after, mode);
  }

  /** Payments of other methods change neither the report nor the grand total. */
  lemma OtherModesDoNotMatter(s: seq<PosOrder>, t: seq<PosOrder>, mode: ModeId, wanted: set<CategoryId>,
                              partners: map<PartnerId, Partner>)
    requires Known(s, partners) && SameButOtherModes(s, t, mode)
    ensures Known(t, partners)
    ensures AllFiled(s, mode, wanted, partners) == AllFiled(t, mode, wanted, partners)
    ensures SumBy(s, OrderWeight(mode, wanted, partners)) == SumBy(t, OrderWeight(mode, wanted, partners))
  {
    hide SumBy, OfMode;
    forall i | 0 <= i < |s| ensures t[i].partner in partners { assert s[i].partner in partners; }
    forall i | 0 <= i < |s| ensures FiledAs(s[i], mode, wanted, partners) == FiledAs(t[i], mode, wanted, partners) {
      FoodAmountIs(s[i].payments, mode);
      FoodAmountIs(t[i].payments, mode);
    }
    CopiesOfOrders(s, mode, wanted, partners);
    CopiesOfOrders(t, mode, wanted, partners);
  }

  /** An order paid with the method only is filed for all its payments. */
  lemma {:induction false} OnlyOfMode(payments: seq<Payment>, mode: ModeId)
    requires forall p :: p in payments ==> p.mode == mode
    ensures OfMode(payments, mode) == payments
  {
    if payments != [] {
      var init, last := payments[..|payments| - 1], payments[|payments| - 1];
      assert payments == init + [last];
      assert last in payments && forall p :: p in init ==> p in payments;
      OnlyOfMode(init, mode);
    }
  }

  lemma FullyPaidIsFiled(o: PosOrder, mode: ModeId, wanted: set<CategoryId>, partners: map<PartnerId, Partner>)
    requires o.partner in partners && forall p :: p in o.payments ==> p.mode == mode
    ensures FiledAs(o, mode, wanted, partners).line == Line(o.date, o.name, SumBy(o.payments, PaymentAmount()))
  {
    FoodAmountIs(o.payments, mode);
    OnlyOfMode(o.payments, mode);
  }

  // ---------------------------------------------------------------- all the methods together

  ghost function ByMode(payments: seq<Payment>): ModeId -> int {
    (m: ModeId) => SumBy(payments, ModeWeight(m))
  }

  /** The grand totals of the report, by method. */
  ghost function GrandTotals(orders: seq<PosOrder>, wanted: set<CategoryId>,
                             partners: map<PartnerId, Partner>): ModeId -> int {
    (m: ModeId) => SumBy(orders, OrderWeight(m, wanted, partners))
  }

  /** The number of categories that an order can be filed under. */
  ghost function FilingCount(o: PosOrder, wanted: set<CategoryId>, partners: map<PartnerId, Partner>): nat
    requires o.partner in partners
  {
    var cats := partners[o.partner].categories;
    if wanted == {} then if |cats| == 0 then 1 else |cats| else |cats * wanted|
  }

  /** All that was paid, each order once for each of its categories. */
  ghost function PaidWeight(wanted: set<CategoryId>, partners: map<PartnerId, Partner>): PosOrder -> int {
    (o: PosOrder) =>
      if o.partner in partners then SumBy(o.payments, PaymentAmount()) * FilingCount(o, wanted, partners) else 0
  }

  ghost function OneMode(p: Payment): ModeId -> int {
    (m: ModeId) => if p.mode == m then p.amount else 0
  }

  lemma {:induction false} OneModeTotal(modes: seq<ModeId>, p: Payment)
    requires NoDuplicates(modes)
    ensures SumBy(modes, OneMode(p)) == if p.mode in modes then p.amount else 0
  {
    if modes != [] {
      var init, last := modes[..|modes| - 1], modes[|modes| - 1];
      assert modes == init + [last];
      OneModeTotal(init, p);
    }
  }

  lemma {:induction false} SumOfSums<T>(items: seq<T>, v: T -> int, w: T -> int, sum: T -> int)
    requires forall x :: x in items ==> sum(x) == v(x) + w(x)
    ensures SumBy(items, sum) == SumBy(items, v) + SumBy(items, w)
  {
    if items != [] {
      assert items[|items| - 1] in items;
      SumOfSums(items[..|items| - 1], v, w, sum);
    }
  }

  lemma {:induction false} NoSum<T>(items: seq<T>, v: T -> int)
    requires forall x :: x in items ==> v(x) == 0
    ensures SumBy(items, v) == 0
  {
    if items != [] {
      assert items[|items| - 1] in items;
      NoSum(items[..|items| - 1], v);
    }
  }

  lemma {:induction false} ScaledSum<T>(items: seq<T>, v: T -> int, w: T -> int, n: int)
    requires forall x :: x in items ==> w(x) == v(x) * n
    ensures SumBy(items, w) == SumBy(items, v) * n
  {
    if items != [] {
      var init, last := items[..|items| - 1], items[|items| - 1];
      assert last in items;
      ScaledSum(init, v, w, n);
      assert (SumBy(init, v) + v(last)) * n == SumBy(init, v) * n + v(last) * n;
    }
  }

  lemma {:induction false} PaymentsPartition(modes: seq<ModeId>, payments: seq<Payment>)
    requires NoDuplicates(modes) && forall p :: p in payments ==> p.mode in modes
    ensures SumBy(modes, ByMode(payments)) == SumBy(payments, PaymentAmount())
  {
    if payments == [] {
      NoSum(modes, ByMode(payments));
    } else {
      var init, last := payments[..|payments| - 1], payments[|payments| - 1];
      assert payments == init + [last];
      assert last in payments && forall p :: p in init ==> p in payments;
      PaymentsPartition(modes, init);
      OneModeTotal(modes, last);
      forall m ensures ByMode(payments)(m) == ByMode(init)(m) + OneMode(last)(m) {
        SumByAppend(init, last, ModeWeight(m));
      }
      SumOfSums(modes, ByMode(init), OneMode(last), ByMode(payments));
    }
  }

  /** What one order brings to the grand totals. */
  ghost function OrderTotals(o: PosOrder, wanted: set<CategoryId>, partners: map<PartnerId, Partner>): ModeId -> int {
    (m: ModeId) => OrderWeight(m, wanted, partners)(o)
  }

  /** Over any methods, none twice, that include all used, the grand totals sum to everything paid, each
      order counted once for each category it is filed under. */
  lemma {:induction false} GrandTotalsPartition(modes: seq<ModeId>, orders: seq<PosOrder>, wanted: set<CategoryId>,
                                                partners: map<PartnerId, Partner>)
    requires NoDuplicates(modes) && Known(orders, partners)
    requires forall o, p :: o in orders && p in o.payments ==> p.mode in modes
    ensures SumBy(modes, GrandTotals(orders, wanted, partners)) == SumBy(orders, PaidWeight(wanted, partners))
  {
    if orders == [] {
      NoSum(modes, GrandTotals(orders, wanted, partners));
    } else {
      hide SumBy;
      var init, o := orders[..|orders| - 1], orders[|orders| - 1];
      assert orders == init + [o];
      assert o in orders && forall x :: x in init ==> x in orders;
      GrandTotalsPartition(modes, init, wanted, partners);
      forall m ensures GrandTotals(orders, wanted, partners)(m) ==
                       GrandTotals(init, wanted, partners)(m) + OrderTotals(o, wanted, partners)(m) {
        SumByAppend(init, o, OrderWeight(m, wanted, partners));
      }
      SumOfSums(modes, GrandTotals(init, wanted, partners), OrderTotals(o, wanted, partners),
                GrandTotals(orders, wanted, partners));
      PaymentsPartition(modes, o.payments);
      ScaledSum(modes, ByMode(o.payments), OrderTotals(o, wanted, partners), FilingCount(o, wanted, partners));
      SumByAppend(init, o, PaidWeight(wanted, partners));
    }
  }

  // ---------------------------------------------------------------- which categories are reported

  /** A category is reported if and only if some order with a non-zero sum of payments of the method is
      filed under it: the categories of its customer, those asked for if any are, and the group of the
      customers without category when none is asked for. */
  lemma ReportedIff(orders: seq<PosOrder>, mode: ModeId, wanted: set<CategoryId>, partners: map<PartnerId, Partner>,
                    k: CategoryId)
    requires Known(orders, partners)
    ensures k in CategoriesOf(AllFiled(orders, mode, wanted, partners)) <==>
            exists i :: 0 <= i < |orders| && SumBy(OfMode(orders[i].payments, mode), PaymentAmount()) != 0
                        && InCategory(partners, orders[i].partner, wanted, k)
  {
    hide SumBy, OfMode;
    var filed := AllFiled(orders, mode, wanted, partners);
    CategoriesAndClients(filed, k, 0);
    forall i | 0 <= i < |orders|
      ensures k in filed[i].cats <==> && SumBy(OfMode(orders[i].payments, mode), PaymentAmount()) != 0
                                      && InCategory(partners, orders[i].partner, wanted, k)
    {
      FoodAmountIs(orders[i].payments, mode);
    }
    if f :| f in filed && k in f.cats {
      var i :| 0 <= i < |filed| && filed[i] == f;
      assert InCategory(partners, orders[i].partner, wanted, k);
    }
    if i :| 0 <= i < |orders| && SumBy(OfMode(orders[i].payments, mode), PaymentAmount()) != 0
            && InCategory(partners, orders[i].partner, wanted, k) {
      assert filed[i] in filed && k in filed[i].cats;
    }
  }

  predicate InCategory(partners: map<PartnerId, Partner>, p: PartnerId, wanted: set<CategoryId>, k: CategoryId) {
    p in partners &&
    if k in partners[p].categories then wanted == {} || k in wanted
    else k == NO_CATEGORY && wanted == {} && partners[p].categories == {}
  }

  lemma {:induction false} SameUnder(k: CategoryId, s: seq<Filed>, t: seq<Filed>)
    requires |s| == |t|
    requires forall i :: 0 <= i < |s| ==>
               s[i].partner == t[i].partner && s[i].line == t[i].line && (k in s[i].cats <==> k in t[i].cats)
    ensures CategoryOf(s, k) == CategoryOf(t, k) && (k in CategoriesOf(s) <==> k in CategoriesOf(t))
  {
    if s != [] {
      var n := |s| - 1;
      SameUnder(k, s[..n], t[..n]);
      forall p ensures ClientOf(s, k, p) == ClientOf(t, k, p) && (p in ClientsOf(s, k) <==> p in ClientsOf(t, k)) {
        SameClients(k, p, s, t);
      }
      assert CategoryOf(s, k).clients == CategoryOf(t, k).clients;
    }
  }

  lemma {:induction false} SameClients(k: CategoryId, p: PartnerId, s: seq<Filed>, t: seq<Filed>)
    requires |s| == |t|
    requires forall i :: 0 <= i < |s| ==>
               s[i].partner == t[i].partner && s[i].line == t[i].line && (k in s[i].cats <==> k in t[i].cats)
    ensures ClientOf(s, k, p) == ClientOf(t, k, p) && (p in ClientsOf(s, k) <==> p in ClientsOf(t, k))
  {
    if s != [] {
      var n := |s| - 1;
      SameClients(k, p, s[..n], t[..n]);
    }
  }

  /** Asking for categories shows exactly those of the full report, with the same contents. */
  lemma WantedRestrictsReport(orders: seq<PosOrder>, mode: ModeId, wanted: set<CategoryId>,
                              partners: map<PartnerId, Partner>, k: CategoryId)
    requires Known(orders, partners) && wanted != {} && NO_CATEGORY !in wanted
    ensures var all, some := AllFiled(orders, mode, {}, partners), AllFiled(orders, mode, wanted, partners);
            && (k in CategoriesOf(some) <==> k in CategoriesOf(all) && k in wanted)
            && (k in wanted ==> CategoryOf(some, k) == CategoryOf(all, k))
  {
    hide SumBy, CategoriesOf;
    var all, some := AllFiled(orders, mode, {}, partners), AllFiled(orders, mode, wanted, partners);
    ReportedIff(orders, mode, wanted, partners, k);
    ReportedIff(orders, mode, {}, partners, k);
    if k in wanted { SameUnder(k, some, all); }
  }

  /** The report is sorted: categories by name, the customers of each by number and name, and the lines of
      each by date and number of the order. */
  lemma ReportIsSorted(final: seq<CategoryReport>, printed: map<CategoryId, CategoryReport>, filed: seq<Filed>,
                       nameOf: CategoryId -> int, partners: map<PartnerId, Partner>)
    requires AllPrinted(printed, filed, nameOf, partners) && Lists(final, printed, CategoryOrder)
    ensures forall i, j :: 0 <= i < j < |final| ==> final[i].name <= final[j].name
    ensures forall r :: r in final ==> ClientsAreSorted(r.clients)
  {
    hide CategoriesOf, ClientsOf, LinesOf, SumBy, Total, SortedBy;
    forall i, j | 0 <= i < j < |final| ensures final[i].name <= final[j].name {
      assert CategoryOrder(final[i], final[j]);
    }
    forall r | r in final ensures ClientsAreSorted(r.clients) {
      var k := KeyOf(printed, r);
      ClientsSorted(r, k, CategoryOf(filed, k), nameOf(k), partners);
    }
  }

  predicate Earlier(x: int, y: int, x': int, y': int) {
    x < x' || (x == x' && y <= y')
  }

  predicate ClientsAreSorted(clients: seq<ClientReport>) {
    && (forall i, j :: 0 <= i < j < |clients| ==>
          Earlier(clients[i].number, clients[i].name, clients[j].number, clients[j].name))
    && forall n :: 0 <= n < |clients| ==> LinesAreSorted(clients[n].lines)
  }

  predicate LinesAreSorted(lines: seq<Line>) {
    forall i, j :: 0 <= i < j < |lines| ==> Earlier(lines[i].date, lines[i].name, lines[j].date, lines[j].name)
  }

  lemma ClientsSorted(r: CategoryReport, k: CategoryId, c: Category, name: int, partners: map<PartnerId, Partner>)
    requires Printed(r, k, c, name, partners)
    ensures ClientsAreSorted(r.clients)
  {
    hide SumBy, Total, SortedBy;
    var clients := r.clients;
    forall i, j | 0 <= i < j < |clients|
      ensures Earlier(clients[i].number, clients[i].name, clients[j].number, clients[j].name)
    {
      assert ClientOrder(clients[i], clients[j]);
    }
    forall n | 0 <= n < |clients| ensures LinesAreSorted(clients[n].lines) {
      assert clients[n] in ClientReports(c.clients, partners).Values;
      var p :| p in c.clients && clients[n] == ReportOfClient(p, partners[p], c.clients[p]);
      SortedByInOrder(c.clients[p].lines, LineOrder);
      var lines := clients[n].lines;
      forall i, j | 0 <= i < j < |lines| ensures Earlier(lines[i].date, lines[i].name, lines[j].date, lines[j].name) {
        assert LineOrder(lines[i], lines[j]);
      }
    }
  }
}
