/** Import of the POS history: rows to orders, orders to day sessions
    (custom_import_excel/wizard/pos_import_wizard.py). The cells are given cleaned and converted; a day
    is the number written YYYYMMDD, quantities and prices are integers in the unit the preview keeps. */
module PosImport {
  import opened Decimals
  import opened Digraphs
  import opened Options
  import opened Ordering
  import opened Sums

  type Day = nat

  datatype Moment = Moment(day: Day, time: nat)

  datatype Numbers = Numbers(qty: int, priceHt: int, price: int, discount: int, margin: Option<int>)

  /** A row of the file: no date or no numbers where the conversion fails, "" for an empty cell. */
  datatype Row = Row(
    number: int, date: Option<Moment>, productRef: string, productName: string, numbers: Option<Numbers>,
    orderRef: string, customerRef: string, customerName: string, note: string)

  datatype ParseError = BadDate(row: int) | NoProduct(row: int) | BadNumbers(row: int)

  datatype Line = Line(productRef: string, productName: string, numbers: Numbers, note: string, row: int)

  datatype Order = Order(name: string, date: Moment, customerRef: string, customerName: string, lines: seq<Line>)

  /** Why a row is not imported, in the order of the tests. */
  function Refusal(row: Row): Option<ParseError> {
    if row.date.None? then Some(BadDate(row.number))
    else if row.productRef == "" && row.productName == "" then Some(NoProduct(row.number))
    else if row.numbers.None? then Some(BadNumbers(row.number))
    else None
  }

  function LineOf(row: Row): Line
    requires Refusal(row).None?
  {
    Line(row.productRef, row.productName, row.numbers.value, row.note, row.number)
  }

  // ---------------------------------------------------------------- generated references

  function GeneratedRef(day: Day, counter: nat): string {
    "IMPORT-" + Digits(day) + "-" + Padded(Digits(counter))
  }

  /** It is made of the day and of the counter, with zeros in front of it up to five digits. */
  lemma GeneratedRefForm(day: Day, counter: nat) returns (zeros: string)
    ensures GeneratedRef(day, counter) == "IMPORT-" + Digits(day) + "-" + zeros + Digits(counter)
    ensures (forall i :: 0 <= i < |zeros| ==> zeros[i] == '0') && NumberOf(Digits(day)) == day
    ensures |zeros| == if |Digits(counter)| < 5 then 5 - |Digits(counter)| else 0
  {
    hide Digits, NumberOf;
    DigitsWriteTheNumber(day);
    zeros := PaddedIs(Digits(counter));
  }

  lemma SameTail(a: string, s: string, b: string, t: string)
    requires a + "-" + s == b + "-" + t && '-' !in s && '-' !in t
    ensures s == t
  {
    var x, y := a + "-" + s, b + "-" + t;
    assert x[|a|] == '-' && y[|b|] == '-';
    assert forall i :: |a| < i < |x| ==> x[i] == s[i - |a| - 1];
    assert forall i :: |b| < i < |y| ==> y[i] == t[i - |b| - 1];
    assert |a| == |b|;
    assert x[|a| + 1..] == s && y[|b| + 1..] == t;
  }

  /** Two generated references with different counters are different texts. */
  lemma GeneratedRefsDiffer(d: Day, c: nat, d': Day, c': nat)
    requires GeneratedRef(d, c) == GeneratedRef(d', c')
    ensures c == c'
  {
    SameTail("IMPORT-" + Digits(d), Padded(Digits(c)), "IMPORT-" + Digits(d'), Padded(Digits(c')));
    PaddedKeepsTheNumber(Digits(c));
    PaddedKeepsTheNumber(Digits(c'));
    DigitsWriteTheNumber(c);
    DigitsWriteTheNumber(c');
  }

  // ---------------------------------------------------------------- rows to orders

  /** An accepted row with the reference of its order. */
  datatype Keyed = Keyed(ref: string, date: Moment, row: Row)

  /** The counter of the generated references. */
  function CounterAfter(rows: seq<Row>): nat {
    if rows == [] then 1
    else
      var row := rows[|rows| - 1];
      CounterAfter(rows[..|rows| - 1]) + if Refusal(row).None? && row.orderRef == "" then 1 else 0
  }

  function Accepted(rows: seq<Row>): (keyed: seq<Keyed>)
    ensures forall i :: 0 <= i < |keyed| ==> Refusal(keyed[i].row).None?
  {
    if rows == [] then []
    else
      var init, row := rows[..|rows| - 1], rows[|rows| - 1];
      if Refusal(row).Some? then Accepted(init)
      else if row.orderRef != "" then Accepted(init) + [Keyed(row.orderRef, row.date.value, row)]
      else Accepted(init) + [Keyed(GeneratedRef(row.date.value.day, CounterAfter(init)), row.date.value, row)]
  }

  function ErrorsOf(rows: seq<Row>): seq<ParseError> {
    if rows == [] then []
    else
      var row := rows[|rows| - 1];
      ErrorsOf(rows[..|rows| - 1]) + if Refusal(row).Some? then [Refusal(row).value] else []
  }

  /** The references, in the order of their first rows. */
  function Names(keyed: seq<Keyed>): (names: seq<string>) {
    if keyed == [] then []
    else
      var names, ref := Names(keyed[..|keyed| - 1]), keyed[|keyed| - 1].ref;
      if ref in names then names else names + [ref]
  }

  predicate Acceptable(keyed: seq<Keyed>) {
    forall i :: 0 <= i < |keyed| ==> Refusal(keyed[i].row).None?
  }

  function LinesFor(keyed: seq<Keyed>, name: string): seq<Line>
    requires Acceptable(keyed)
  {
    if keyed == [] then []
    else
      var k := keyed[|keyed| - 1];
      LinesFor(keyed[..|keyed| - 1], name) + if k.ref == name then [LineOf(k.row)] else []
  }

  /** The date of the first row. */
  function DateFor(keyed: seq<Keyed>, name: string): Moment
    requires name in Names(keyed)
  {
    if name in Names(keyed[..|keyed| - 1]) then DateFor(keyed[..|keyed| - 1], name) else keyed[|keyed| - 1].date
  }

  /** The customer of the first row that gives one. */
  function CustomerRefFor(keyed: seq<Keyed>, name: string): string {
    if keyed == [] then ""
    else
      var found, k := CustomerRefFor(keyed[..|keyed| - 1], name), keyed[|keyed| - 1];
      if found == "" && k.ref == name then k.row.customerRef else found
  }

  function CustomerNameFor(keyed: seq<Keyed>, name: string): string {
    if keyed == [] then ""
    else
      var found, k := CustomerNameFor(keyed[..|keyed| - 1], name), keyed[|keyed| - 1];
      if found == "" && k.ref == name then k.row.customerName else found
  }

  function OrderFor(keyed: seq<Keyed>, name: string): Order
    requires Acceptable(keyed) && name in Names(keyed)
  {
    Order(name, DateFor(keyed, name), CustomerRefFor(keyed, name), CustomerNameFor(keyed, name), LinesFor(keyed, name))
  }

  function OrdersOf(keyed: seq<Keyed>): (orders: seq<Order>)
    requires Acceptable(keyed)
    ensures |orders| == |Names(keyed)|
  {
    var names := Names(keyed);
    seq(|names|, i requires 0 <= i < |names| => assert names[i] in names; OrderFor(keyed, names[i]))
  }

  lemma {:induction false} NamesAreRefs(keyed: seq<Keyed>)
    ensures NoDuplicates(Names(keyed))
    ensures forall name :: name in Names(keyed) <==> exists i :: 0 <= i < |keyed| && keyed[i].ref == name
  {
    if keyed != [] {
      var init, k := keyed[..|keyed| - 1], keyed[|keyed| - 1];
      NamesAreRefs(init);
      assert keyed == init + [k];
      forall name ensures name in Names(keyed) <==> exists i :: 0 <= i < |keyed| && keyed[i].ref == name {
        if name == k.ref { assert keyed[|init|].ref == name; }
        if name in Names(init) {
          var i :| 0 <= i < |init| && init[i].ref == name;
          assert keyed[i].ref == name;
        }
      }
    }
  }

  lemma {:induction false} AbsentName(keyed: seq<Keyed>, name: string)
    requires Acceptable(keyed) && name !in Names(keyed)
    ensures LinesFor(keyed, name) == [] && CustomerRefFor(keyed, name) == "" && CustomerNameFor(keyed, name) == ""
  {
    if keyed != [] { AbsentName(keyed[..|keyed| - 1], name); }
  }

  /** `_parse_rows_to_orders`: an ordered dictionary of orders, and the errors. */
  method ParseRows(rows: seq<Row>) returns (orders: seq<Order>, errors: seq<ParseError>)
    ensures orders == OrdersOf(Accepted(rows)) && errors == ErrorsOf(rows)
  {
    hide GeneratedRef, OrderFor, OrderMap, Names, OrdersOf;
    errors := [];
    var names: seq<string>, byName: map<string, Order> := [], map[];
    var counter := 1;
    ghost var keyed: seq<Keyed> := [];
    NoOrders();
    for i := 0 to |rows|
      invariant keyed == Accepted(rows[..i]) && counter == CounterAfter(rows[..i]) && errors == ErrorsOf(rows[..i])
      invariant Acceptable(keyed) && names == Names(keyed) && byName == OrderMap(keyed)
    {
      assert rows[..i + 1][..i] == rows[..i];
      var row := rows[i];
      if row.date.None? {
        errors := errors + [BadDate(row.number)];
        continue;
      }
      if row.productRef == "" && row.productName == "" {
        errors := errors + [NoProduct(row.number)];
        continue;
      }
      if row.numbers.None? {
        errors := errors + [BadNumbers(row.number)];
        continue;
      }
      var ref := row.orderRef;
      if ref == "" {
        ref := GeneratedRef(row.date.value.day, counter);
        counter := counter + 1;
      }
      ghost var k := Keyed(ref, row.date.value, row);
      names, byName := FileRow(names, byName, ref, row, keyed);
      keyed := keyed + [k];
    }
    assert rows[..|rows|] == rows;
    orders := ListOrders(names, byName, keyed);
  }

  /** `list(orders.values())`. */
  method ListOrders(names: seq<string>, byName: map<string, Order>, ghost keyed: seq<Keyed>)
      returns (orders: seq<Order>)
    requires Acceptable(keyed) && names == Names(keyed) && byName == OrderMap(keyed)
    ensures orders == OrdersOf(keyed)
  {
    hide OrderFor, Names;
    orders := seq(|names|, i requires 0 <= i < |names| => assert names[i] in byName; byName[names[i]]);
  }

  /** An accepted row is added to its order, which is created if needed. */
  method FileRow(names: seq<string>, byName: map<string, Order>, ref: string, row: Row, ghost keyed: seq<Keyed>)
    returns (names': seq<string>, byName': map<string, Order>)
    requires Acceptable(keyed) && Refusal(row).None? && names == Names(keyed) && byName == OrderMap(keyed)
    ensures Acceptable(keyed + [Keyed(ref, row.date.value, row)])
    ensures names' == Names(keyed + [Keyed(ref, row.date.value, row)])
            && byName' == OrderMap(keyed + [Keyed(ref, row.date.value, row)])
  {
    hide OrderFor, Names, LineOf;
    names', byName' := names, byName;
    var line := LineOf(row);
    ghost var k := Keyed(ref, row.date.value, row);
    OneMoreRow(keyed, k);
    assert byName.Keys == Elements(names);
    if ref !in names {
      names' := names + [ref];
      byName' := byName'[ref := Order(ref, row.date.value, row.customerRef, row.customerName, [])];
    } else {
      var order := byName[ref];
      if order.customerRef == "" {
        order := order.(customerRef := row.customerRef);
      }
      if order.customerName == "" {
        order := order.(customerName := row.customerName);
      }
      byName' := byName'[ref := order];
    }
    byName' := byName'[ref := byName'[ref].(lines := byName'[ref].lines + [line])];
    assert [] + [line] == [line];
    assert byName'[ref] == OrderFor(keyed + [k], ref);
  }

  lemma NoOrders()
    ensures Names([]) == [] && OrderMap([]) == map[]
  {
  }

  ghost function OrderMap(keyed: seq<Keyed>): map<string, Order>
    requires Acceptable(keyed)
  {
    map name | name in Names(keyed) :: OrderFor(keyed, name)
  }

  lemma RefIsNamed(keyed: seq<Keyed>, k: Keyed)
    ensures Names(keyed + [k]) == if k.ref in Names(keyed) then Names(keyed) else Names(keyed) + [k.ref]
  {
    assert (keyed + [k])[..|keyed|] == keyed;
  }

  /** One more accepted row touches one order. */
  lemma OneMoreRow(keyed: seq<Keyed>, k: Keyed)
    requires Acceptable(keyed) && Refusal(k.row).None?
    ensures Acceptable(keyed + [k])
    ensures Names(keyed + [k]) == if k.ref in Names(keyed) then Names(keyed) else Names(keyed) + [k.ref]
    ensures OrderMap(keyed + [k]) == OrderMap(keyed)[k.ref := OrderFor(keyed + [k], k.ref)]
    ensures k.ref !in Names(keyed) ==>
              OrderFor(keyed + [k], k.ref) ==
                    Order(k.ref, k.date, k.row.customerRef, k.row.customerName, [LineOf(k.row)])
    ensures k.ref in Names(keyed) ==>
              var o, r := OrderFor(keyed, k.ref), k.row;
              OrderFor(keyed + [k], k.ref) ==
                o.(customerRef := if o.customerRef == "" then r.customerRef else o.customerRef,
                   customerName := if o.customerName == "" then r.customerName else o.customerName,
                   lines := o.lines + [LineOf(r)])
  {
    hide OrderFor, LineOf;
    RefIsNamed(keyed, k);
    TouchedOrder(keyed, k);
    forall name | name in Names(keyed) && name != k.ref ensures OrderFor(keyed + [k], name) == OrderFor(keyed, name) {
      OtherOrder(keyed, k, name);
    }
  }

  lemma TouchedOrder(keyed: seq<Keyed>, k: Keyed)
    requires Acceptable(keyed) && Refusal(k.row).None?
    ensures Acceptable(keyed + [k]) && k.ref in Names(keyed + [k])
    ensures var r, o' := k.row, OrderFor(keyed + [k], k.ref);
            if k.ref !in Names(keyed) then o' == Order(k.ref, k.date, r.customerRef, r.customerName, [LineOf(r)])
            else
              var o := OrderFor(keyed, k.ref);
              o' == o.(customerRef := if o.customerRef == "" then r.customerRef else o.customerRef,
                       customerName := if o.customerName == "" then r.customerName else o.customerName,
                       lines := o.lines + [LineOf(r)])
  {
    hide LineOf;
    RefIsNamed(keyed, k);
    assert (keyed + [k])[..|keyed|] == keyed;
    if k.ref !in Names(keyed) { AbsentName(keyed, k.ref); }
  }

  lemma OtherOrder(keyed: seq<Keyed>, k: Keyed, name: string)
    requires Acceptable(keyed) && Refusal(k.row).None? && name in Names(keyed) && name != k.ref
    ensures Acceptable(keyed + [k]) && name in Names(keyed + [k])
            && OrderFor(keyed + [k], name) == OrderFor(keyed, name)
  {
    RefIsNamed(keyed, k);
    assert (keyed + [k])[..|keyed|] == keyed;
    assert LinesFor(keyed, name) + [] == LinesFor(keyed, name);
  }

  // ---------------------------------------------------------------- nothing lost

  ghost function RefOf(): Keyed -> string {
    (k: Keyed) => k.ref
  }

  lemma {:induction false} LinesAreCounted(keyed: seq<Keyed>, name: string)
    requires Acceptable(keyed)
    ensures |LinesFor(keyed, name)| == CountOf(keyed, RefOf(), name)
  {
    if keyed != [] { LinesAreCounted(keyed[..|keyed| - 1], name); }
  }

  ghost function LineCount(): Order -> int {
    (o: Order) => |o.lines|
  }

  /** Every row is either reported or is a line of an order: accepted rows plus errors are the rows,
      and the orders, whose references are all different, have one line for each accepted row. */
  lemma EveryRowIsAccounted(rows: seq<Row>)
    ensures var keyed := Accepted(rows);
            && |keyed| + |ErrorsOf(rows)| == |rows|
            && SumBy(OrdersOf(keyed), LineCount()) == |keyed|
            && NoDuplicates(Names(keyed))
            && forall i :: 0 <= i < |keyed| ==>
                  keyed[i].ref in Names(keyed) && LineOf(keyed[i].row) in OrderFor(keyed, keyed[i].ref).lines
  {
    var keyed := Accepted(rows);
    NamesAreRefs(keyed);
    AcceptedOrReported(rows);
    Partition(Names(keyed), keyed, RefOf());
    SumOfOrders(keyed, |Names(keyed)|);
    assert OrdersOf(keyed)[..|Names(keyed)|] == OrdersOf(keyed) && Names(keyed)[..|Names(keyed)|] == Names(keyed);
    forall i | 0 <= i < |keyed| ensures LineOf(keyed[i].row) in LinesFor(keyed, keyed[i].ref) { LineIsThere(keyed, i); }
  }

  lemma {:induction false} AcceptedOrReported(rows: seq<Row>)
    ensures |Accepted(rows)| + |ErrorsOf(rows)| == |rows|
  {
    if rows != [] { AcceptedOrReported(rows[..|rows| - 1]); }
  }

  lemma {:induction false} SumOfOrders(keyed: seq<Keyed>, n: nat)
    requires Acceptable(keyed) && n <= |Names(keyed)|
    ensures SumBy(OrdersOf(keyed)[..n], LineCount()) == SumBy(Names(keyed)[..n], Counted(keyed, RefOf()))
  {
    if n > 0 {
      SumOfOrders(keyed, n - 1);
      assert OrdersOf(keyed)[..n][..n - 1] == OrdersOf(keyed)[..n - 1];
      assert Names(keyed)[..n][..n - 1] == Names(keyed)[..n - 1];
      LinesAreCounted(keyed, Names(keyed)[n - 1]);
    }
  }

  lemma {:induction false} LineIsThere(keyed: seq<Keyed>, i: nat)
    requires Acceptable(keyed) && i < |keyed|
    ensures LineOf(keyed[i].row) in LinesFor(keyed, keyed[i].ref)
  {
    if i < |keyed| - 1 { LineIsThere(keyed[..|keyed| - 1], i); }
  }

  predicate Unnamed(k: Keyed) {
    k.row.orderRef == ""
  }

  /** The rows without a reference have references of their own. */
  ghost predicate StandAlone(keyed: seq<Keyed>, counter: nat) {
    && (forall i :: 0 <= i < |keyed| && Unnamed(keyed[i]) ==> Numbered(keyed[i], counter))
    && (forall i, j :: 0 <= i < j < |keyed| && Unnamed(keyed[i]) && Unnamed(keyed[j]) ==> keyed[i].ref != keyed[j].ref)
  }

  lemma OneMoreUnnamed(keyed: seq<Keyed>, counter: nat, k: Keyed)
    requires StandAlone(keyed, counter) && k.ref == GeneratedRef(k.date.day, counter)
    ensures StandAlone(keyed + [k], counter + 1)
  {
    hide GeneratedRef, Numbered, Unnamed;
    forall i | 0 <= i < |keyed| && Unnamed(keyed[i]) ensures keyed[i].ref != k.ref && Numbered(keyed[i], counter + 1) {
      NumberedBefore(keyed[i], counter, k.date.day);
    }
    NumberedNow(k, counter);
  }

  /** Rows without a reference never share an order with each other. */
  lemma {:induction false} UnnamedRowsStandAlone(rows: seq<Row>)
    ensures StandAlone(Accepted(rows), CounterAfter(rows))
  {
    hide GeneratedRef, Numbered;
    if rows != [] {
      var init, row := rows[..|rows| - 1], rows[|rows| - 1];
      UnnamedRowsStandAlone(init);
      if Refusal(row).None? && row.orderRef == "" {
        OneMoreUnnamed(Accepted(init), CounterAfter(init), Accepted(rows)[|Accepted(init)|]);
      }
    }
  }

  lemma NumberedBefore(k: Keyed, counter: nat, d: Day)
    requires Numbered(k, counter)
    ensures k.ref != GeneratedRef(d, counter) && Numbered(k, counter + 1)
  {
    hide GeneratedRef;
    var c: nat :| c < counter && k.ref == GeneratedRef(k.date.day, c);
    assert c < counter + 1;
    if k.ref == GeneratedRef(d, counter) { GeneratedRefsDiffer(k.date.day, c, d, counter); }
  }

  lemma NumberedNow(k: Keyed, counter: nat)
    requires k.ref == GeneratedRef(k.date.day, counter)
    ensures Numbered(k, counter + 1)
  {
    hide GeneratedRef;
  }

  ghost predicate Numbered(k: Keyed, counter: nat) {
    exists c: nat :: c < counter && k.ref == GeneratedRef(k.date.day, c)
  }

  // ---------------------------------------------------------------- what is read of a file

  /** A row that can be imported: a date, a product by reference or by name, and numbers. */
  predicate Importable(row: Row) {
    row.date.Some? && (row.productRef != "" || row.productName != "") && row.numbers.Some?
  }

  function ImportableRows(rows: seq<Row>): seq<Row> {
    if rows == [] then []
    else
      var last := rows[|rows| - 1];
      ImportableRows(rows[..|rows| - 1]) + if Importable(last) then [last] else []
  }

  function OtherRows(rows: seq<Row>): seq<Row> {
    if rows == [] then []
    else
      var last := rows[|rows| - 1];
      OtherRows(rows[..|rows| - 1]) + if Importable(last) then [] else [last]
  }

  function WithoutRef(rows: seq<Row>): nat {
    if rows == [] then 0 else WithoutRef(rows[..|rows| - 1]) + if rows[|rows| - 1].orderRef == "" then 1 else 0
  }

  /** The row keeps its reference, or gets one from its day and the number of rows without reference so far. */
  predicate KeyedAs(k: Keyed, row: Row, before: seq<Row>) {
    && k.row == row && row.date == Some(k.date)
    && k.ref == if row.orderRef != "" then row.orderRef else GeneratedRef(k.date.day, WithoutRef(before) + 1)
  }

  predicate AllKeyedAs(keyed: seq<Keyed>, good: seq<Row>) {
    |keyed| == |good| && forall i :: 0 <= i < |good| ==> KeyedAs(keyed[i], good[i], good[..i])
  }

  lemma OneMoreKey(keyed: seq<Keyed>, good: seq<Row>, k: Keyed, row: Row)
    requires AllKeyedAs(keyed, good) && KeyedAs(k, row, good)
    ensures AllKeyedAs(keyed + [k], good + [row])
  {
    hide KeyedAs;
    var ks, rs := keyed + [k], good + [row];
    forall i | 0 <= i < |rs| ensures KeyedAs(ks[i], rs[i], rs[..i]) {
      assert rs[..i] == good[..i];
      if i == |good| { assert good[..i] == good; }
    }
  }

  /** The rows imported are the importable ones, in order. */
  lemma {:induction false} ImportedRows(rows: seq<Row>)
    ensures AllKeyedAs(Accepted(rows), ImportableRows(rows))
    ensures CounterAfter(rows) == WithoutRef(ImportableRows(rows)) + 1
  {
    if rows != [] {
      hide KeyedAs, GeneratedRef, WithoutRef, AllKeyedAs;
      var init, last := rows[..|rows| - 1], rows[|rows| - 1];
      ImportedRows(init);
      if Importable(last) {
        var k := NewKey(rows);
        OneMoreKey(Accepted(init), ImportableRows(init), k, last);
        OneMoreRef(ImportableRows(init), last);
      } else {
        assert ImportableRows(rows) == ImportableRows(init);
      }
    }
  }

  lemma NewKey(rows: seq<Row>) returns (k: Keyed)
    requires rows != [] && Importable(rows[|rows| - 1])
    requires CounterAfter(rows[..|rows| - 1]) == WithoutRef(ImportableRows(rows[..|rows| - 1])) + 1
    ensures var init, last := rows[..|rows| - 1], rows[|rows| - 1];
            Accepted(rows) == Accepted(init) + [k] && KeyedAs(k, last, ImportableRows(init))
  {
    hide GeneratedRef, WithoutRef, ImportableRows;
    hide Accepted, CounterAfter;
    k := LastKey(rows);
  }

  lemma LastKey(rows: seq<Row>) returns (k: Keyed)
    requires rows != [] && Importable(rows[|rows| - 1])
    ensures var init, last := rows[..|rows| - 1], rows[|rows| - 1];
            && Accepted(rows) == Accepted(init) + [k] && k.row == last && last.date == Some(k.date)
            && k.ref == if last.orderRef != "" then last.orderRef else GeneratedRef(k.date.day, CounterAfter(init))
  {
    hide GeneratedRef, CounterAfter;
    var last := rows[|rows| - 1];
    var ref := if last.orderRef != "" then last.orderRef
               else GeneratedRef(last.date.value.day, CounterAfter(rows[..|rows| - 1]));
    k := Keyed(ref, last.date.value, last);
  }

  lemma OneMoreRef(rows: seq<Row>, last: Row)
    ensures WithoutRef(rows + [last]) == WithoutRef(rows) + if last.orderRef == "" then 1 else 0
  {
    assert (rows + [last])[..|rows|] == rows;
  }

  /** The other rows are reported, in order, each with its number and the first thing wrong with it. */
  lemma {:induction false} ReportedRows(rows: seq<Row>)
    ensures var errors, bad := ErrorsOf(rows), OtherRows(rows);
            && |errors| == |bad|
            && forall i :: 0 <= i < |bad| ==>
                 && errors[i].row == bad[i].number
                 && (errors[i].BadDate? <==> bad[i].date.None?)
                 && (errors[i].NoProduct? <==> bad[i].date.Some? && bad[i].productRef == "" && bad[i].productName == "")
  {
    if rows != [] {
      ReportedRows(rows[..|rows| - 1]);
    }
  }

  /** The rows of an order. */
  function RowsOfOrder(keyed: seq<Keyed>, name: string): seq<Keyed> {
    if keyed == [] then []
    else
      var last := keyed[|keyed| - 1];
      RowsOfOrder(keyed[..|keyed| - 1], name) + if last.ref == name then [last] else []
  }

  predicate IsLineOf(l: Line, row: Row) {
    && l.productRef == row.productRef && l.productName == row.productName && Some(l.numbers) == row.numbers
    && l.note == row.note && l.row == row.number
  }

  /** The text is the first that is not empty, if any. */
  predicate FirstGiven(text: string, texts: seq<string>) {
    if forall i :: 0 <= i < |texts| ==> texts[i] == "" then text == ""
    else exists i :: 0 <= i < |texts| && texts[i] == text && text != "" && forall j :: 0 <= j < i ==> texts[j] == ""
  }

  lemma FirstGivenMore(text: string, texts: seq<string>, more: string)
    requires FirstGiven(text, texts)
    ensures FirstGiven(if text == "" then more else text, texts + [more])
  {
    var all := texts + [more];
    if text == "" {
      assert forall i :: 0 <= i < |texts| ==> texts[i] == "";
      if more != "" { assert all[|texts|] == more; }
    } else {
      var i :| 0 <= i < |texts| && texts[i] == text && forall j :: 0 <= j < i ==> texts[j] == "";
      assert all[i] == text;
    }
  }

  function CustomerRefs(keyed: seq<Keyed>): (texts: seq<string>)
    ensures |texts| == |keyed|
  {
    seq(|keyed|, i requires 0 <= i < |keyed| => keyed[i].row.customerRef)
  }

  function CustomerNames(keyed: seq<Keyed>): (texts: seq<string>)
    ensures |texts| == |keyed|
  {
    seq(|keyed|, i requires 0 <= i < |keyed| => keyed[i].row.customerName)
  }

  lemma {:induction false} LinesOfItsRows(keyed: seq<Keyed>, name: string)
    requires Acceptable(keyed)
    ensures var mine, lines := RowsOfOrder(keyed, name), LinesFor(keyed, name);
            |lines| == |mine| && forall i :: 0 <= i < |mine| ==> IsLineOf(lines[i], mine[i].row)
  {
    if keyed != [] { LinesOfItsRows(keyed[..|keyed| - 1], name); }
  }

  lemma {:induction false} DateOfItsRows(keyed: seq<Keyed>, name: string)
    ensures var mine := RowsOfOrder(keyed, name);
            && (name in Names(keyed) <==> mine != [])
            && (mine != [] ==> name in Names(keyed) && DateFor(keyed, name) == mine[0].date)
  {
    if keyed != [] { DateOfItsRows(keyed[..|keyed| - 1], name); }
  }

  lemma {:induction false} CustomerOfItsRows(keyed: seq<Keyed>, name: string)
    ensures FirstGiven(CustomerRefFor(keyed, name), CustomerRefs(RowsOfOrder(keyed, name)))
    ensures FirstGiven(CustomerNameFor(keyed, name), CustomerNames(RowsOfOrder(keyed, name)))
  {
    hide FirstGiven;
    if keyed == [] {
      NothingGiven();
      assert CustomerRefs([]) == [] && CustomerNames([]) == [];
    } else {
      var init, last := keyed[..|keyed| - 1], keyed[|keyed| - 1];
      CustomerOfItsRows(init, name);
      var before, mine := RowsOfOrder(init, name), RowsOfOrder(keyed, name);
      if last.ref == name {
        FirstGivenMore(CustomerRefFor(init, name), CustomerRefs(before), last.row.customerRef);
        FirstGivenMore(CustomerNameFor(init, name), CustomerNames(before), last.row.customerName);
        assert CustomerRefs(mine) == CustomerRefs(before) + [last.row.customerRef];
        assert CustomerNames(mine) == CustomerNames(before) + [last.row.customerName];
      } else {
        assert mine == before;
      }
    }
  }

  /** An order has the date of its first row, the customer of the first row that gives one, reference and
      name apart, and a line for each of its rows, in their order. */
  lemma OrderOfItsRows(keyed: seq<Keyed>, name: string)
    requires Acceptable(keyed) && name in Names(keyed)
    ensures var o, mine := OrderFor(keyed, name), RowsOfOrder(keyed, name);
            && mine != [] && o.name == name && o.date == mine[0].date
            && FirstGiven(o.customerRef, CustomerRefs(mine)) && FirstGiven(o.customerName, CustomerNames(mine))
            && |o.lines| == |mine| && forall i :: 0 <= i < |mine| ==> IsLineOf(o.lines[i], mine[i].row)
  {
    hide FirstGiven, IsLineOf, LinesFor, DateFor, CustomerRefFor, CustomerNameFor, RowsOfOrder, Names;
    LinesOfItsRows(keyed, name);
    DateOfItsRows(keyed, name);
    CustomerOfItsRows(keyed, name);
  }

  lemma NothingGiven()
    ensures FirstGiven("", [])
  {
  }

  // ---------------------------------------------------------------- one session a day

  datatype Session = Session(day: int, orders: seq<Order>)

  function OrdersOn(orders: seq<Order>, day: int): seq<Order> {
    if orders == [] then []
    else
      var o := orders[|orders| - 1];
      OrdersOn(orders[..|orders| - 1], day) + if o.date.day == day then [o] else []
  }

  /** The orders of a day stay in the order of the file. */
  lemma {:induction false} OrdersKeepTheirPlace(s: seq<Order>, t: seq<Order>, day: int)
    ensures OrdersOn(s + t, day) == OrdersOn(s, day) + OrdersOn(t, day)
    ensures |s| == 1 ==> OrdersOn(s, day) == if s[0].date.day == day then s else []
  {
    if t == [] {
      assert s + t == s;
      if |s| == 1 { assert s[..0] == []; }
    } else {
      OrdersKeepTheirPlace(s, t[..|t| - 1], day);
      assert (s + t)[..|s + t| - 1] == s + t[..|t| - 1];
    }
  }

  function DaysOf(orders: seq<Order>): set<int> {
    if orders == [] then {} else DaysOf(orders[..|orders| - 1]) + {orders[|orders| - 1].date.day}
  }

  ghost function SessionsOf(orders: seq<Order>): (sessions: seq<Session>)
    ensures |sessions| == |Ascending(DaysOf(orders))|
  {
    var days := Ascending(DaysOf(orders));
    seq(|days|, i requires 0 <= i < |days| => Session(days[i], OrdersOn(orders, days[i])))
  }

  ghost function ByDay(orders: seq<Order>): map<int, seq<Order>> {
    map d | d in DaysOf(orders) :: OrdersOn(orders, d)
  }

  /** `_group_by_session`. */
  method GroupBySession(orders: seq<Order>) returns (sessions: seq<Session>)
    ensures sessions == SessionsOf(orders)
  {
    hide ByDay, OrdersOn, DaysOf, Ascending;
    var byDay: map<int, seq<Order>> := map[];
    NoDays();
    for i := 0 to |orders|
      invariant byDay == ByDay(orders[..i])
    {
      OneMoreOrder(orders, i);
      var day: int := orders[i].date.day;
      byDay := byDay[day := (if day in byDay then byDay[day] else []) + [orders[i]]];
    }
    assert orders[..|orders|] == orders;
    sessions := SessionsByDay(orders, byDay);
  }

  method SessionsByDay(ghost orders: seq<Order>, byDay: map<int, seq<Order>>) returns (sessions: seq<Session>)
    requires byDay == ByDay(orders)
    ensures sessions == SessionsOf(orders)
  {
    hide OrdersOn, DaysOf, Ascending, Sorted;
    var days := SortedKeys(byDay);
    assert byDay.Keys == DaysOf(orders);
    sessions := [];
    for i := 0 to |days|
      invariant sessions == SessionsOf(orders)[..i]
    {
      assert days[i] in days;
      sessions := sessions + [Session(days[i], byDay[days[i]])];
    }
  }

  lemma NoDays()
    ensures ByDay([]) == map[]
  {
  }

  lemma OneMoreOrder(orders: seq<Order>, i: nat)
    requires i < |orders|
    ensures var m, day := ByDay(orders[..i]), orders[i].date.day;
            ByDay(orders[..i + 1]) == m[day := (if day in m then m[day] else []) + [orders[i]]]
  {
    assert orders[..i + 1][..i] == orders[..i];
    NoOrderYet(orders[..i], orders[i].date.day);
    forall d | d in DaysOf(orders[..i]) && d != orders[i].date.day
      ensures OrdersOn(orders[..i + 1], d) == OrdersOn(orders[..i], d)
    {
      assert OrdersOn(orders[..i], d) + [] == OrdersOn(orders[..i], d);
    }
  }

  lemma {:induction false} NoOrderYet(orders: seq<Order>, day: int)
    ensures day !in DaysOf(orders) <==> OrdersOn(orders, day) == []
    ensures forall o :: o in OrdersOn(orders, day) <==> o in orders && o.date.day == day
  {
    if orders != [] {
      NoOrderYet(orders[..|orders| - 1], day);
      assert orders == orders[..|orders| - 1] + [orders[|orders| - 1]];
    }
  }

  ghost function DayOf(): Order -> int {
    (o: Order) => o.date.day
  }

  ghost function OrderCount(): Session -> int {
    (s: Session) => |s.orders|
  }

  lemma {:induction false} OrdersAreCounted(orders: seq<Order>, day: int)
    ensures |OrdersOn(orders, day)| == CountOf(orders, DayOf(), day)
    ensures day in DaysOf(orders) <==> exists i :: 0 <= i < |orders| && orders[i].date.day == day
  {
    if orders != [] {
      var init := orders[..|orders| - 1];
      OrdersAreCounted(init, day);
      if day in DaysOf(init) {
        var i :| 0 <= i < |init| && init[i].date.day == day;
        assert orders[i].date.day == day;
      }
      if orders[|orders| - 1].date.day == day { assert orders[|init|].date.day == day; }
    }
  }

  lemma {:induction false} SumOfSessions(orders: seq<Order>, n: nat)
    requires n <= |SessionsOf(orders)|
    ensures SumBy(SessionsOf(orders)[..n], OrderCount()) ==
              SumBy(Ascending(DaysOf(orders))[..n], Counted(orders, DayOf()))
  {
    hide Ascending, DaysOf, OrdersOn;
    if n > 0 {
      var days, sessions := Ascending(DaysOf(orders)), SessionsOf(orders);
      SumOfSessions(orders, n - 1);
      assert sessions[..n][..n - 1] == sessions[..n - 1] && days[..n][..n - 1] == days[..n - 1];
      OrdersAreCounted(orders, days[n - 1]);
    }
  }

  /** Every order is in exactly one session, that of its day; the sessions are in the order of the days. */
  lemma EveryOrderHasOneSession(orders: seq<Order>)
    ensures var sessions := SessionsOf(orders);
            && SumBy(sessions, OrderCount()) == |orders|
            && (forall i, j :: 0 <= i < j < |sessions| ==> sessions[i].day < sessions[j].day)
            && (forall i :: 0 <= i < |sessions| ==> SessionIsRight(orders, sessions[i]))
            && (forall o :: o in orders ==>
                  exists i :: 0 <= i < |sessions| && sessions[i].day == o.date.day && o in sessions[i].orders)
  {
    hide SumBy, Ascending, OrdersOn, DaysOf;
    var days, sessions := Ascending(DaysOf(orders)), SessionsOf(orders);
    SessionsCountOrders(orders);
    forall i | 0 <= i < |sessions| ensures SessionIsRight(orders, sessions[i]) { SessionHolds(orders, days[i]); }
    forall o | o in orders
      ensures exists i :: 0 <= i < |sessions| && sessions[i].day == o.date.day && o in sessions[i].orders
    {
      var i := SessionFor(orders, o);
    }
  }

  /** It has orders, all of its day. */
  ghost predicate SessionIsRight(orders: seq<Order>, s: Session) {
    s.orders != [] && forall o :: o in s.orders ==> o in orders && o.date.day == s.day
  }

  lemma SessionHolds(orders: seq<Order>, day: int)
    requires day in DaysOf(orders)
    ensures SessionIsRight(orders, Session(day, OrdersOn(orders, day)))
  {
    NoOrderYet(orders, day);
  }

  lemma SessionFor(orders: seq<Order>, o: Order) returns (i: nat)
    requires o in orders
    ensures i < |SessionsOf(orders)| && SessionsOf(orders)[i].day == o.date.day && o in SessionsOf(orders)[i].orders
  {
    hide Ascending, Sorted;
    NoOrderYet(orders, o.date.day);
    var k :| 0 <= k < |orders| && orders[k] == o;
    OrdersAreCounted(orders, o.date.day);
    var days := Ascending(DaysOf(orders));
    assert o.date.day in days;
    i :| 0 <= i < |days| && days[i] == o.date.day;
  }

  lemma SessionsCountOrders(orders: seq<Order>)
    ensures SumBy(SessionsOf(orders), OrderCount()) == |orders|
  {
    hide SumBy, Ascending, OrdersOn, DaysOf;
    var days, sessions := Ascending(DaysOf(orders)), SessionsOf(orders);
    forall i | 0 <= i < |orders| ensures DayOf()(orders[i]) in days { OrdersAreCounted(orders, orders[i].date.day); }
    assert NoDuplicates(days);
    Partition(days, orders, DayOf());
    SumOfSessions(orders, |days|);
    assert sessions[..|days|] == sessions && days[..|days|] == days;
  }
}
