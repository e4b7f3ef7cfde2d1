/** The preview lines of an import and the orders rebuilt from them.

    `action_preview` flattens sessions and orders into numbered lines; `_build_data_from_preview` sorts
    them and makes orders and sessions of them again
    (custom_import_excel/wizard/pos_import_wizard.py). */
module PosPreview {
  import opened Ordering
  import opened PosImport
  import opened Sums

  // ---------------------------------------------------------------- the customer as one text

  const SEPARATOR := " / "

  predicate SeparatorAt(s: string, i: nat) {
    i + 3 <= |s| && s[i] == ' ' && s[i + 1] == '/' && s[i + 2] == ' '
  }

  /** The place of the first separator at or after `from`, or the length. */
  function FirstSeparator(s: string, from: nat): (i: nat)
    requires from <= |s|
    ensures from <= i <= |s| && (i < |s| ==> SeparatorAt(s, i))
    ensures forall j :: from <= j < i ==> !SeparatorAt(s, j)
    decreases |s| - from
  {
    if from == |s| || SeparatorAt(s, from) then from else FirstSeparator(s, from + 1)
  }

  /** `_fmt_customer`. */
  function CustomerText(ref: string, name: string): string {
    if ref == "" then name else if name == "" then ref else ref + SEPARATOR + name
  }

  /** `info.split(' / ', 1)`, everything being the name when there is no separator. */
  function SplitCustomer(info: string): (string, string) {
    var i := FirstSeparator(info, 0);
    if i == |info| then ("", info) else (info[..i], info[i + 3..])
  }

  /** The reference has no separator, not even one begun at its end. */
  predicate Plain(ref: string) {
    forall i :: 0 <= i < |ref| ==> !SeparatorAt(ref + SEPARATOR, i)
  }

  /** The customer's texts survive exactly when there is a name, and the text up to it can be told:
      the reference is plain, or is missing and the name has no separator. A reference alone comes
      back as a name. */
  lemma CustomerSurvivesIff(ref: string, name: string)
    ensures SplitCustomer(CustomerText(ref, name)) == (ref, name) <==>
              if ref == "" then FirstSeparator(name, 0) == |name| else name != "" && Plain(ref)
  {
    var info := CustomerText(ref, name);
    if ref != "" && name != "" {
      BothSurviveIff(ref, name);
    } else {
      var i := FirstSeparator(info, 0);
      assert i < |info| ==> |info[..i]| + |info[i + 3..]| < |info|;
    }
  }

  lemma BothSurviveIff(ref: string, name: string)
    ensures SplitCustomer(ref + SEPARATOR + name) == (ref, name) <==> Plain(ref)
  {
    var head, info := ref + SEPARATOR, ref + SEPARATOR + name;
    assert forall j :: 0 <= j < |head| ==> info[j] == head[j];
    assert forall j: nat :: j <= |ref| ==> SeparatorAt(info, j) == SeparatorAt(head, j);
    var i := FirstSeparator(info, 0);
    assert head[|ref|] == ' ' && head[|ref| + 1] == '/' && head[|ref| + 2] == ' ';
    assert SeparatorAt(head, |ref|);
    assert i <= |ref|;
    assert |info[..i]| == i;
    if Plain(ref) {
      assert i == |ref|;
      assert info[..i] == ref && info[i + 3..] == name;
    }
  }

  // ---------------------------------------------------------------- preview lines

  /** What is known of products and customers: 0 when nothing is found. */
  datatype Catalogue = Catalogue(product: (string, string) -> int, partner: (string, string) -> int)

  datatype LineState = Fine | Warning | Failed

  datatype Content = Content(
    session: int, day: Day, ref: string, customer: string, productRef: string, productName: string,
    qty: int, priceHt: int, price: int, margin: int, note: string, product: int, partner: int, state: LineState)

  datatype PreviewLine = PreviewLine(sequence: int, content: Content)

  /** An order in its session. */
  datatype Placed = Placed(session: int, order: Order)

  function PartnerOf(cat: Catalogue, o: Order): int {
    if o.customerRef == "" && o.customerName == "" then 0 else cat.partner(o.customerRef, o.customerName)
  }

  /** `_validate_product_line`. */
  function StateOf(cat: Catalogue, o: Order, l: Line): LineState {
    if cat.product(l.productRef, l.productName) == 0 then Failed
    else if (o.customerRef != "" || o.customerName != "") && PartnerOf(cat, o) == 0 then Warning
    else Fine
  }

  function MarginOf(l: Line): int {
    if l.numbers.margin.Some? then l.numbers.margin.value else 0
  }

  /** The preview of a line; the first of an order carries its customer. */
  function ContentOf(cat: Catalogue, p: Placed, j: nat): Content
    requires j < |p.order.lines|
  {
    var o, l := p.order, p.order.lines[j];
    Content(p.session, o.date.day, o.name, if j == 0 then CustomerText(o.customerRef, o.customerName) else "",
            l.productRef, l.productName, l.numbers.qty, l.numbers.priceHt, l.numbers.price, MarginOf(l), l.note,
            cat.product(l.productRef, l.productName), if j == 0 then PartnerOf(cat, o) else 0, StateOf(cat, o, l))
  }

  function OrderContents(cat: Catalogue, p: Placed): (contents: seq<Content>)
    ensures |contents| == |p.order.lines|
  {
    seq(|p.order.lines|, j requires 0 <= j < |p.order.lines| => ContentOf(cat, p, j))
  }

  function Flat(cat: Catalogue, placed: seq<Placed>): seq<Content> {
    if placed == [] then [] else Flat(cat, placed[..|placed| - 1]) + OrderContents(cat, placed[|placed| - 1])
  }

  function PlacedIn(s: Session): (placed: seq<Placed>)
    ensures |placed| == |s.orders|
  {
    seq(|s.orders|, j requires 0 <= j < |s.orders| => Placed(s.day, s.orders[j]))
  }

  function AllPlaced(sessions: seq<Session>): seq<Placed> {
    if sessions == [] then [] else AllPlaced(sessions[..|sessions| - 1]) + PlacedIn(sessions[|sessions| - 1])
  }

  /** Preview lines are numbered 10, 20, 30, and so on. */
  function Sequenced(contents: seq<Content>): (lines: seq<PreviewLine>)
    ensures |lines| == |contents|
  {
    seq(|contents|, i requires 0 <= i < |contents| => PreviewLine(10 * (i + 1), contents[i]))
  }

  /** The loops of `action_preview`. */
  method ActionPreview(cat: Catalogue, sessions: seq<Session>) returns (preview: seq<PreviewLine>)
    ensures preview == Sequenced(Flat(cat, AllPlaced(sessions)))
  {
    hide Flat, Sequenced, OrderContents;
    preview := [];
    NothingFlat(cat);
    for i := 0 to |sessions|
      invariant preview == Sequenced(Flat(cat, AllPlaced(sessions[..i])))
    {
      assert sessions[..i + 1][..i] == sessions[..i];
      preview := AddSession(cat, preview, AllPlaced(sessions[..i]), sessions[i]);
    }
    assert sessions[..|sessions|] == sessions;
  }

  lemma NothingFlat(cat: Catalogue)
    ensures Sequenced(Flat(cat, [])) == []
  {
  }

  method AddSession(cat: Catalogue, start: seq<PreviewLine>, ghost before: seq<Placed>, s: Session)
      returns (preview: seq<PreviewLine>)
    requires start == Sequenced(Flat(cat, before))
    ensures preview == Sequenced(Flat(cat, before + PlacedIn(s)))
  {
    hide Flat, Sequenced, OrderContents;
    preview := start;
    ghost var placed := PlacedIn(s);
    assert before + placed[..0] == before;
    for j := 0 to |s.orders|
      invariant preview == Sequenced(Flat(cat, before + placed[..j]))
    {
      assert before + placed[..j + 1] == before + placed[..j] + [placed[j]];
      FlatOneMore(cat, before + placed[..j], placed[j]);
      preview := AddOrder(cat, preview, Flat(cat, before + placed[..j]), Placed(s.day, s.orders[j]));
    }
    assert placed[..|placed|] == placed;
  }

  lemma FlatOneMore(cat: Catalogue, placed: seq<Placed>, p: Placed)
    ensures Flat(cat, placed + [p]) == Flat(cat, placed) + OrderContents(cat, p)
  {
    assert (placed + [p])[..|placed|] == placed;
  }

  method AddOrder(cat: Catalogue, start: seq<PreviewLine>, ghost before: seq<Content>, p: Placed)
      returns (preview: seq<PreviewLine>)
    requires start == Sequenced(before)
    ensures preview == Sequenced(before + OrderContents(cat, p))
  {
    hide ContentOf;
    preview := start;
    var first := true;
    ghost var contents := OrderContents(cat, p);
    assert before + contents[..0] == before;
    for k := 0 to |p.order.lines|
      invariant preview == Sequenced(before + contents[..k]) && (first <==> k == 0)
    {
      var o, l := p.order, p.order.lines[k];
      var content := Content(p.session, o.date.day, o.name,
                             if first then CustomerText(o.customerRef, o.customerName) else "",
                             l.productRef, l.productName, l.numbers.qty, l.numbers.priceHt, l.numbers.price,
                             MarginOf(l), l.note, cat.product(l.productRef, l.productName),
                             if first then PartnerOf(cat, o) else 0, StateOf(cat, o, l));
      ContentIs(cat, p, k, content);
      assert before + contents[..k + 1] == before + contents[..k] + [content];
      preview := preview + [PreviewLine(10 * (|preview| + 1), content)];
      first := false;
    }
    assert contents[..|contents|] == contents;
  }

  lemma ContentIs(cat: Catalogue, p: Placed, k: nat, content: Content)
    requires k < |p.order.lines|
    requires var o, l := p.order, p.order.lines[k];
             content == Content(p.session, o.date.day, o.name,
                                if k == 0 then CustomerText(o.customerRef, o.customerName) else "",
               l.productRef, l.productName, l.numbers.qty, l.numbers.priceHt, l.numbers.price, MarginOf(l), l.note,
               cat.product(l.productRef, l.productName), if k == 0 then PartnerOf(cat, o) else 0, StateOf(cat, o, l))
    ensures content == ContentOf(cat, p, k)
  {
  }

  // ---------------------------------------------------------------- rebuilding

  datatype RebuiltLine = RebuiltLine(product: int, qty: int, priceHt: int, price: int, margin: int, note: string)

  datatype RebuiltOrder = RebuiltOrder(
    name: string, date: Moment, customerRef: string, customerName: string, partner: int, lines: seq<RebuiltLine>)

  /** The two dictionaries, with their keys in the order of insertion. */
  datatype Rebuilt = Rebuilt(names: seq<string>, orders: map<string, RebuiltOrder>, days: seq<int>,
                             refs: map<int, seq<string>>)

  function LineFrom(c: Content): RebuiltLine {
    RebuiltLine(c.product, c.qty, c.priceHt, c.price, c.margin, c.note)
  }

  /** One turn of the loop of `_build_data_from_preview`. */
  function WithContent(r: Rebuilt, c: Content): Rebuilt {
    if c.ref !in r.orders then
      var (customerRef, customerName) := SplitCustomer(c.customer);
      Rebuilt(r.names + [c.ref],
              r.orders[c.ref := RebuiltOrder(c.ref, Moment(c.day, 0), customerRef, customerName, c.partner,
                                             [LineFrom(c)])],
              if c.session in r.refs then r.days else r.days + [c.session],
              r.refs[c.session := (if c.session in r.refs then r.refs[c.session] else []) + [c.ref]])
    else
      var o := r.orders[c.ref];
      r.(orders := r.orders[c.ref := o.(partner := if c.partner != 0 && o.partner == 0 then c.partner else o.partner,
                                        lines := o.lines + [LineFrom(c)])])
  }

  function RebuiltFrom(contents: seq<Content>): Rebuilt {
    if contents == [] then Rebuilt([], map[], [], map[])
    else WithContent(RebuiltFrom(contents[..|contents| - 1]), contents[|contents| - 1])
  }

  predicate BySequence(x: PreviewLine, y: PreviewLine) {
    x.sequence <= y.sequence
  }

  function ContentsOf(lines: seq<PreviewLine>): (contents: seq<Content>)
    ensures |contents| == |lines|
  {
    seq(|lines|, i requires 0 <= i < |lines| => lines[i].content)
  }

  /** `_build_data_from_preview`, over the lines in any order. */
  method BuildDataFromPreview(preview: seq<PreviewLine>) returns (r: Rebuilt)
    ensures r == RebuiltFrom(ContentsOf(SortedBy(preview, BySequence)))
  {
    hide WithContent, SortedBy;
    var lines := SortedBy(preview, BySequence);
    r := Rebuilt([], map[], [], map[]);
    ghost var contents := ContentsOf(lines);
    for i := 0 to |lines|
      invariant r == RebuiltFrom(contents[..i])
    {
      assert contents[..i + 1][..i] == contents[..i];
      r := TakeContent(r, lines[i].content);
    }
    assert contents[..|contents|] == contents;
  }

  method TakeContent(start: Rebuilt, c: Content) returns (r: Rebuilt)
    ensures r == WithContent(start, c)
  {
    hide SplitCustomer;
    var names, orders := start.names, start.orders;
    var days, refs := start.days, start.refs;
    if c.ref !in orders {
      var (customerRef, customerName) := SplitCustomer(c.customer);
      names := names + [c.ref];
      orders := orders[c.ref := RebuiltOrder(c.ref, Moment(c.day, 0), customerRef, customerName, c.partner, [])];
      if c.session !in refs {
        days := days + [c.session];
        refs := refs[c.session := []];
      }
      refs := refs[c.session := refs[c.session] + [c.ref]];
    } else if c.partner != 0 && orders[c.ref].partner == 0 {
      orders := orders[c.ref := orders[c.ref].(partner := c.partner)];
    }
    assert [] + [LineFrom(c)] == [LineFrom(c)];
    orders := orders[c.ref := orders[c.ref].(lines := orders[c.ref].lines + [LineFrom(c)])];
    r := Rebuilt(names, orders, days, refs);
  }

  // ---------------------------------------------------------------- the round trip

  /** What the preview carries of an order: not the time of the day, nor the discounts; its customer as
      found, and the customer's texts as far as they survive. */
  function Carried(cat: Catalogue, o: Order): RebuiltOrder {
    var (customerRef, customerName) := SplitCustomer(CustomerText(o.customerRef, o.customerName));
    RebuiltOrder(o.name, Moment(o.date.day, 0), customerRef, customerName, PartnerOf(cat, o),
                 CarriedLines(cat, o.lines))
  }

  function CarriedLines(cat: Catalogue, lines: seq<Line>): (r: seq<RebuiltLine>)
    ensures |r| == |lines|
  {
    seq(|lines|, j requires 0 <= j < |lines| =>
      var l := lines[j];
      RebuiltLine(cat.product(l.productRef, l.productName), l.numbers.qty, l.numbers.priceHt, l.numbers.price,
                  MarginOf(l), l.note))
  }

  /** An order is added to the dictionaries. */
  ghost function WithOrder(r: Rebuilt, session: int, o: RebuiltOrder): Rebuilt {
    Rebuilt(r.names + [o.name], r.orders[o.name := o],
            if session in r.refs then r.days else r.days + [session],
            r.refs[session := (if session in r.refs then r.refs[session] else []) + [o.name]])
  }

  /** The lines of an order not seen yet add the order. */
  lemma {:induction false} OrderIsRebuilt(cat: Catalogue, before: seq<Content>, p: Placed, k: nat)
    requires 1 <= k <= |p.order.lines| && p.order.name !in RebuiltFrom(before).orders
    ensures RebuiltFrom(before + OrderContents(cat, p)[..k]) ==
            WithOrder(RebuiltFrom(before), p.session,
                      Carried(cat, p.order).(lines := CarriedLines(cat, p.order.lines[..k])))
  {
    hide RebuiltFrom, SplitCustomer;
    var contents := OrderContents(cat, p);
    assert before + contents[..k] == before + contents[..k - 1] + [contents[k - 1]];
    RebuiltOneMore(before + contents[..k - 1], contents[k - 1]);
    if k == 1 {
      assert before + contents[..0] == before;
      assert CarriedLines(cat, p.order.lines[..1]) == [LineFrom(contents[0])];
    } else {
      OrderIsRebuilt(cat, before, p, k - 1);
      assert CarriedLines(cat, p.order.lines[..k]) ==
               CarriedLines(cat, p.order.lines[..k - 1]) + [LineFrom(contents[k - 1])];
    }
  }

  lemma RebuiltOneMore(contents: seq<Content>, c: Content)
    ensures RebuiltFrom(contents + [c]) == WithContent(RebuiltFrom(contents), c)
  {
    assert (contents + [c])[..|contents|] == contents;
  }

  /** What should be rebuilt from the orders in their sessions. */
  ghost function Expected(cat: Catalogue, placed: seq<Placed>): Rebuilt {
    if placed == [] then Rebuilt([], map[], [], map[])
    else
      var p := placed[|placed| - 1];
      WithOrder(Expected(cat, placed[..|placed| - 1]), p.session, Carried(cat, p.order))
  }

  ghost predicate Rebuildable(placed: seq<Placed>) {
    && (forall i :: 0 <= i < |placed| ==> placed[i].order.lines != [])
    && forall i, j :: 0 <= i < j < |placed| ==> placed[i].order.name != placed[j].order.name
  }

  lemma {:induction false} ExpectedOrders(cat: Catalogue, placed: seq<Placed>)
    requires Rebuildable(placed)
    ensures var r := Expected(cat, placed);
            && |r.names| == |placed| && (forall name :: name in r.orders <==> name in r.names)
            && forall i | 0 <= i < |placed| ::
                 r.names[i] == placed[i].order.name && r.names[i] in r.orders
                     && r.orders[r.names[i]] == Carried(cat, placed[i].order)
  {
    hide Carried;
    if placed != [] {
      var init, p := placed[..|placed| - 1], placed[|placed| - 1];
      ExpectedOrders(cat, init);
      CarriedName(cat, p.order);
      assert placed == init + [p];
      var r := Expected(cat, init);
      forall i | 0 <= i < |init|
        ensures r.names[i] != p.order.name { assert placed[i].order.name != placed[|init|].order.name; }
    }
  }

  lemma CarriedName(cat: Catalogue, o: Order)
    ensures Carried(cat, o).name == o.name
  {
  }

  lemma {:induction false} FlatIsRebuilt(cat: Catalogue, placed: seq<Placed>)
    requires Rebuildable(placed)
    ensures RebuiltFrom(Flat(cat, placed)) == Expected(cat, placed)
  {
    hide RebuiltFrom, Carried, WithOrder, Rebuildable;
    if placed == [] {
      assert RebuiltFrom([]) == Rebuilt([], map[], [], map[]) by { NothingRebuilt(); }
    } else {
      var init, p := placed[..|placed| - 1], placed[|placed| - 1];
      LastIsNew(cat, placed);
      FlatIsRebuilt(cat, init);
      var contents := OrderContents(cat, p);
      OrderIsRebuilt(cat, Flat(cat, init), p, |p.order.lines|);
      assert contents[..|contents|] == contents && p.order.lines[..|p.order.lines|] == p.order.lines;
      CarriedWhole(cat, p.order);
    }
  }

  lemma CarriedWhole(cat: Catalogue, o: Order)
    ensures Carried(cat, o).(lines := CarriedLines(cat, o.lines)) == Carried(cat, o)
  {
  }

  lemma NothingRebuilt()
    ensures RebuiltFrom([]) == Rebuilt([], map[], [], map[])
  {
  }

  lemma LastIsNew(cat: Catalogue, placed: seq<Placed>)
    requires Rebuildable(placed) && placed != []
    ensures var init, p := placed[..|placed| - 1], placed[|placed| - 1];
            Rebuildable(init) && p.order.lines != [] && p.order.name !in Expected(cat, init).orders
  {
    hide Expected;
    ExpectedOrders(cat, placed[..|placed| - 1]);
  }

  // ---------------------------------------------------------------- the sessions come back

  function NamesIn(orders: seq<Order>): (names: seq<string>)
    ensures |names| == |orders|
  {
    seq(|orders|, j requires 0 <= j < |orders| => orders[j].name)
  }

  function DaysIn(sessions: seq<Session>): (days: seq<int>)
    ensures |days| == |sessions|
  {
    seq(|sessions|, i requires 0 <= i < |sessions| => sessions[i].day)
  }

  ghost predicate OneSessionADay(sessions: seq<Session>) {
    && (forall i :: 0 <= i < |sessions| ==> sessions[i].orders != [])
    && forall i, j :: 0 <= i < j < |sessions| ==> sessions[i].day != sessions[j].day
  }

  /** The orders of a new session, one after the other. */
  lemma {:induction false} SessionExpected(cat: Catalogue, placed: seq<Placed>, s: Session, k: nat)
    requires 1 <= k <= |s.orders| && s.day !in Expected(cat, placed).refs
    ensures var before, r := Expected(cat, placed), Expected(cat, placed + PlacedIn(s)[..k]);
            r.days == before.days + [s.day] && r.refs == before.refs[s.day := NamesIn(s.orders)[..k]]
  {
    hide Carried, Expected;
    var all, p := PlacedIn(s), PlacedIn(s)[k - 1];
    assert placed + all[..k] == placed + all[..k - 1] + [p];
    ExpectedOneMore(cat, placed + all[..k - 1], p);
    CarriedName(cat, p.order);
    if k == 1 {
      assert placed + all[..0] == placed;
      assert NamesIn(s.orders)[..1] == [] + [p.order.name];
    } else {
      SessionExpected(cat, placed, s, k - 1);
      assert NamesIn(s.orders)[..k] == NamesIn(s.orders)[..k - 1] + [p.order.name];
    }
  }

  lemma ExpectedOneMore(cat: Catalogue, placed: seq<Placed>, p: Placed)
    ensures Expected(cat, placed + [p]) == WithOrder(Expected(cat, placed), p.session, Carried(cat, p.order))
  {
    assert (placed + [p])[..|placed|] == placed;
  }

  lemma {:induction false} SessionsExpected(cat: Catalogue, sessions: seq<Session>)
    requires OneSessionADay(sessions)
    ensures var r := Expected(cat, AllPlaced(sessions));
            && r.days == DaysIn(sessions) && (forall d :: d in r.refs <==> d in r.days)
            && forall i :: 0 <= i < |sessions| ==>
                  sessions[i].day in r.refs && r.refs[sessions[i].day] == NamesIn(sessions[i].orders)
  {
    hide Expected, NamesIn;
    if sessions == [] {
      assert Expected(cat, []) == Rebuilt([], map[], [], map[]) by { NothingExpected(cat); }
    } else {
      var init, s := sessions[..|sessions| - 1], sessions[|sessions| - 1];
      SessionsExpected(cat, init);
      forall d | d in DaysIn(init) ensures d != s.day {
        var i :| 0 <= i < |init| && DaysIn(init)[i] == d;
        assert sessions[i].day != sessions[|init|].day;
      }
      SessionExpected(cat, AllPlaced(init), s, |s.orders|);
      assert PlacedIn(s)[..|s.orders|] == PlacedIn(s) && NamesIn(s.orders)[..|s.orders|] == NamesIn(s.orders);
      assert DaysIn(sessions) == DaysIn(init) + [s.day];
      var r := Expected(cat, AllPlaced(sessions));
      forall i | 0 <= i < |sessions|
        ensures sessions[i].day in r.refs && r.refs[sessions[i].day] == NamesIn(sessions[i].orders)
      {
        if i < |init| { assert DaysIn(init)[i] == init[i].day; }
      }
    }
  }

  lemma NothingExpected(cat: Catalogue)
    ensures Expected(cat, []) == Rebuilt([], map[], [], map[])
  {
  }

  ghost predicate DistinctNames(orders: seq<Order>) {
    forall i, j :: 0 <= i < j < |orders| ==> orders[i].name != orders[j].name
  }

  lemma {:induction false} DistinctOnADay(orders: seq<Order>, day: int)
    requires DistinctNames(orders)
    ensures DistinctNames(OrdersOn(orders, day))
  {
    if orders != [] {
      var init := orders[..|orders| - 1];
      DistinctOnADay(init, day);
      NoOrderYet(init, day);
    }
  }

  /** The orders of a file, in their sessions, can be rebuilt. */
  lemma {:induction false} SessionsAreRebuildable(orders: seq<Order>, n: nat)
    requires DistinctNames(orders) && (forall o :: o in orders ==> o.lines != []) && n <= |SessionsOf(orders)|
    ensures var placed := AllPlaced(SessionsOf(orders)[..n]);
            && Rebuildable(placed)
            && forall i :: 0 <= i < |placed| ==>
                  placed[i].order in orders && placed[i].order.date.day in DaysIn(SessionsOf(orders)[..n])
  {
    hide OrdersOn, DaysOf, Ascending, Rebuildable;
    var sessions := SessionsOf(orders);
    EveryOrderHasOneSession(orders);
    if n == 0 {
      NothingToRebuild();
    } else {
      SessionsAreRebuildable(orders, n - 1);
      var init, s := sessions[..n - 1], sessions[n - 1];
      assert sessions[..n][..n - 1] == init;
      assert SessionIsRight(orders, s);
      DistinctOnADay(orders, s.day);
      assert s.day !in DaysIn(init);
      assert DaysIn(sessions[..n]) == DaysIn(init) + [s.day];
      MoreRebuildable(orders, AllPlaced(init), s);
    }
  }

  lemma NothingToRebuild()
    ensures Rebuildable([])
  {
  }

  lemma MoreRebuildable(orders: seq<Order>, placed: seq<Placed>, s: Session)
    requires DistinctNames(orders) && (forall o :: o in orders ==> o.lines != []) && Rebuildable(placed)
    requires SessionIsRight(orders, s) && DistinctNames(s.orders)
    requires forall i :: 0 <= i < |placed| ==> placed[i].order in orders && placed[i].order.date.day != s.day
    ensures Rebuildable(placed + PlacedIn(s))
  {
    var all := placed + PlacedIn(s);
    forall i, j | 0 <= i < |placed| && 0 <= j < |s.orders| ensures placed[i].order.name != s.orders[j].name {
      var x, y := placed[i].order, s.orders[j];
      assert y in s.orders;
      var m :| 0 <= m < |orders| && orders[m] == x;
      var n :| 0 <= n < |orders| && orders[n] == y;
      assert m < n || n < m;
    }
    forall i | 0 <= i < |all| ensures all[i].order.lines != [] {
      if i >= |placed| { assert s.orders[i - |placed|] in s.orders; }
    }
  }

  // ---------------------------------------------------------------- any order of the preview lines

  ghost predicate StrictlyAscending(t: seq<PreviewLine>) {
    forall i, j :: 0 <= i < j < |t| ==> t[i].sequence < t[j].sequence
  }

  lemma WithoutLast<T>(s: seq<T>)
    requires s != []
    ensures multiset(s[..|s| - 1]) == multiset(s) - multiset{s[|s| - 1]}
  {
    assert s == s[..|s| - 1] + [s[|s| - 1]];
  }

  lemma SameSize<T>(s: seq<T>, t: seq<T>)
    requires multiset(s) == multiset(t)
    ensures |s| == |t|
  {
    assert |s| == |multiset(s)| && |t| == |multiset(t)|;
  }

  lemma Rejoined<T>(s: seq<T>, t: seq<T>)
    requires s != [] && |s| == |t| && s[..|s| - 1] == t[..|s| - 1] && s[|s| - 1] == t[|s| - 1]
    ensures s == t
  {
    assert s == s[..|s| - 1] + [s[|s| - 1]];
    assert t == t[..|s| - 1] + [t[|s| - 1]];
  }

  lemma PrefixesInOrder(s: seq<PreviewLine>, n: nat)
    requires n <= |s|
    ensures (InOrder(s, BySequence) ==> InOrder(s[..n], BySequence))
            && (StrictlyAscending(s) ==> StrictlyAscending(s[..n]))
  {
  }

  lemma {:induction false} SortedIsUnique(s: seq<PreviewLine>, t: seq<PreviewLine>)
    requires multiset(s) == multiset(t) && InOrder(s, BySequence) && StrictlyAscending(t)
    ensures s == t
    decreases |s|
  {
    hide InOrder, StrictlyAscending, BySequence;
    SameSize(s, t);
    if s != [] {
      var n := |s| - 1;
      LastIsSame(s, t);
      WithoutLast(s);
      WithoutLast(t);
      PrefixesInOrder(s, n);
      PrefixesInOrder(t, n);
      SortedIsUnique(s[..n], t[..n]);
      Rejoined(s, t);
    }
  }

  lemma LastIsSame(s: seq<PreviewLine>, t: seq<PreviewLine>)
    requires multiset(s) == multiset(t) && InOrder(s, BySequence) && StrictlyAscending(t) && |s| == |t| && s != []
    ensures s[|s| - 1] == t[|s| - 1]
  {
    var n := |s| - 1;
    assert s[n] in multiset(s) && t[n] in multiset(t);
    assert s[n] in multiset(t) && t[n] in multiset(s);
    var k :| 0 <= k < |t| && t[k] == s[n];
    var i :| 0 <= i < |s| && s[i] == t[n];
    assert i < n ==> BySequence(s[i], s[n]);
  }

  lemma SequenceRestored(preview: seq<PreviewLine>, contents: seq<Content>)
    requires multiset(preview) == multiset(Sequenced(contents))
    ensures ContentsOf(SortedBy(preview, BySequence)) == contents
  {
    SortedByInOrder(preview, BySequence);
    SortedIsUnique(SortedBy(preview, BySequence), Sequenced(contents));
  }

  /** The orders of a file have different names and at least a line each. */
  lemma OrdersOfAFile(rows: seq<Row>)
    ensures var orders := OrdersOf(Accepted(rows));
            DistinctNames(orders) && forall o :: o in orders ==> o.lines != []
  {
    hide Accepted;
    var keyed := Accepted(rows);
    NamesAreRefs(keyed);
    forall o | o in OrdersOf(keyed) ensures o.lines != [] {
      var n :| 0 <= n < |Names(keyed)| && OrdersOf(keyed)[n] == o;
      assert Names(keyed)[n] in Names(keyed);
      var i :| 0 <= i < |keyed| && keyed[i].ref == Names(keyed)[n];
      LineIsThere(keyed, i);
    }
  }

  /** The same sessions, one a day in the order of the days, each with the same orders in the same order,
      and each order as the preview carries it. */
  ghost predicate SameAsFile(cat: Catalogue, orders: seq<Order>, r: Rebuilt) {
    var sessions := SessionsOf(orders);
    && r.days == DaysIn(sessions)
    && (forall i :: 0 <= i < |sessions| ==>
          sessions[i].day in r.refs && r.refs[sessions[i].day] == NamesIn(sessions[i].orders))
    && (forall o :: o in orders ==> o.name in r.orders && r.orders[o.name] == Carried(cat, o))
    && |r.names| == |orders|
  }

  ghost function PreviewOf(cat: Catalogue, orders: seq<Order>): seq<PreviewLine> {
    Sequenced(Flat(cat, AllPlaced(SessionsOf(orders))))
  }

  /** Round trip. From the preview lines of a file, read back in any order, the import rebuilds the file. */
  lemma PreviewRoundTrip(cat: Catalogue, rows: seq<Row>, preview: seq<PreviewLine>)
    ensures multiset(preview) == multiset(PreviewOf(cat, OrdersOf(Accepted(rows)))) ==>
              SameAsFile(cat, OrdersOf(Accepted(rows)), RebuiltFrom(ContentsOf(SortedBy(preview, BySequence))))
  {
    hide Accepted, OrdersOf, SessionsOf, RebuiltFrom, SortedBy, Carried, Flat, AllPlaced, Sequenced, Expected,
         Rebuildable;
    var orders := OrdersOf(Accepted(rows));
    if multiset(preview) == multiset(PreviewOf(cat, orders)) {
      var sessions := SessionsOf(orders);
      var placed := AllPlaced(sessions);
      OrdersOfAFile(rows);
      SessionsAreRebuildable(orders, |sessions|);
      assert sessions[..|sessions|] == sessions;
      EveryOrderHasOneSession(orders);
      SequenceRestored(preview, Flat(cat, placed));
      FlatIsRebuilt(cat, placed);
      SessionsExpected(cat, sessions);
      ExpectedOrders(cat, placed);
      forall o | o in orders
        ensures o.name in Expected(cat, placed).orders && Expected(cat, placed).orders[o.name] == Carried(cat, o)
      {
        var i := PlacedOrder(orders, o);
      }
      PlacedCount(sessions);
    }
  }

  lemma PlacedOrder(orders: seq<Order>, o: Order) returns (at: nat)
    requires o in orders
    ensures var placed := AllPlaced(SessionsOf(orders)); at < |placed| && placed[at].order == o
  {
    hide SessionsOf;
    var sessions := SessionsOf(orders);
    var i := SessionFor(orders, o);
    var j :| 0 <= j < |sessions[i].orders| && sessions[i].orders[j] == o;
    at := PlacedAt(sessions, i, j);
  }

  lemma {:induction false} PlacedAt(sessions: seq<Session>, i: nat, j: nat) returns (at: nat)
    requires i < |sessions| && j < |sessions[i].orders|
    ensures at < |AllPlaced(sessions)| && AllPlaced(sessions)[at] == Placed(sessions[i].day, sessions[i].orders[j])
  {
    if i == |sessions| - 1 {
      at := |AllPlaced(sessions[..i])| + j;
    } else {
      at := PlacedAt(sessions[..|sessions| - 1], i, j);
    }
  }

  lemma {:induction false} PlacedCount(sessions: seq<Session>)
    ensures |AllPlaced(sessions)| == SumBy(sessions, OrderCount())
  {
    if sessions != [] { PlacedCount(sessions[..|sessions| - 1]); }
  }

  // ---------------------------------------------------------------- what is shown and carried

  /** A preview line shows its order and its line: the state is an error when the product is not found,
      a warning when the customer is given but not found; the first line of an order shows the customer. */
  predicate Shows(cat: Catalogue, c: Content, o: Order, j: nat)
    requires j < |o.lines|
  {
    var l := o.lines[j];
    var given, found := o.customerRef != "" || o.customerName != "", cat.partner(o.customerRef, o.customerName);
    && c.session == o.date.day && c.day == o.date.day && c.ref == o.name
    && c.customer == (if j > 0 then "" else CustomerText(o.customerRef, o.customerName))
    && c.partner == (if j > 0 || !given then 0 else found)
    && c.productRef == l.productRef && c.productName == l.productName && c.note == l.note
    && c.qty == l.numbers.qty && c.priceHt == l.numbers.priceHt && c.price == l.numbers.price
    && c.margin == (if l.numbers.margin.None? then 0 else l.numbers.margin.value)
    && c.product == cat.product(l.productRef, l.productName)
    && (c.state.Failed? <==> c.product == 0)
    && (c.state.Warning? <==> c.product != 0 && given && found == 0)
  }

  /** The preview of a file shows every line of every order, numbered by tens. */
  lemma PreviewShowsEveryLine(cat: Catalogue, orders: seq<Order>, o: Order, j: nat) returns (n: nat)
    requires o in orders && j < |o.lines|
    ensures n < |PreviewOf(cat, orders)|
    ensures Shows(cat, PreviewOf(cat, orders)[n].content, o, j)
    ensures forall k :: 0 <= k < |PreviewOf(cat, orders)| ==> PreviewOf(cat, orders)[k].sequence == 10 * k + 10
  {
    hide SessionsOf, Flat, AllPlaced;
    var placed := AllPlaced(SessionsOf(orders));
    var i := PlacedOrder(orders, o);
    PlacedOnItsDay(orders, i);
    n := FlatAt(cat, placed, i, j);
  }

  lemma {:induction false} FlatAt(cat: Catalogue, placed: seq<Placed>, i: nat, j: nat) returns (n: nat)
    requires i < |placed| && j < |placed[i].order.lines|
    ensures n < |Flat(cat, placed)| && Flat(cat, placed)[n] == ContentOf(cat, placed[i], j)
  {
    hide ContentOf;
    if i == |placed| - 1 {
      n := |Flat(cat, placed[..i])| + j;
    } else {
      n := FlatAt(cat, placed[..|placed| - 1], i, j);
    }
  }

  lemma {:induction false} PlacedInSessions(sessions: seq<Session>, i: nat) returns (k: nat)
    requires i < |AllPlaced(sessions)|
    ensures k < |sessions| && AllPlaced(sessions)[i].session == sessions[k].day
    ensures AllPlaced(sessions)[i].order in sessions[k].orders
  {
    var init := sessions[..|sessions| - 1];
    if i < |AllPlaced(init)| {
      k := PlacedInSessions(init, i);
    } else {
      k := |sessions| - 1;
      var s := sessions[k];
      assert AllPlaced(sessions)[i] == PlacedIn(s)[i - |AllPlaced(init)|];
      assert s.orders[i - |AllPlaced(init)|] in s.orders;
    }
  }

  lemma PlacedOnItsDay(orders: seq<Order>, i: nat)
    requires i < |AllPlaced(SessionsOf(orders))|
    ensures var p := AllPlaced(SessionsOf(orders))[i]; p.session == p.order.date.day
  {
    hide SessionsOf;
    var k := PlacedInSessions(SessionsOf(orders), i);
    EveryOrderHasOneSession(orders);
    assert SessionIsRight(orders, SessionsOf(orders)[k]);
  }

  /** An order as it is rebuilt from the preview: its name and day, every line with product, quantity,
      prices, margin and note, the customer found, and the texts of the customer when they can be told. */
  predicate Carries(cat: Catalogue, o: Order, r: RebuiltOrder) {
    && r.name == o.name && r.date == Moment(o.date.day, 0)
    && r.partner == (if o.customerRef == "" && o.customerName == "" then 0
                     else cat.partner(o.customerRef, o.customerName))
    && (o.customerRef != "" && o.customerName != "" && Plain(o.customerRef) ==>
          r.customerRef == o.customerRef && r.customerName == o.customerName)
    && |r.lines| == |o.lines|
    && forall j :: 0 <= j < |o.lines| ==> CarriesLine(cat, o.lines[j], r.lines[j])
  }

  predicate CarriesLine(cat: Catalogue, l: Line, r: RebuiltLine) {
    && r.product == cat.product(l.productRef, l.productName) && r.note == l.note
    && r.qty == l.numbers.qty && r.priceHt == l.numbers.priceHt && r.price == l.numbers.price
    && r.margin == (if l.numbers.margin.None? then 0 else l.numbers.margin.value)
  }

  /** Round trip, order by order. */
  lemma OrdersSurvivePreview(cat: Catalogue, rows: seq<Row>, preview: seq<PreviewLine>, o: Order)
    requires o in OrdersOf(Accepted(rows))
    requires multiset(preview) == multiset(PreviewOf(cat, OrdersOf(Accepted(rows))))
    ensures var r := RebuiltFrom(ContentsOf(SortedBy(preview, BySequence)));
            o.name in r.orders && Carries(cat, o, r.orders[o.name])
  {
    hide Accepted, OrdersOf, SessionsOf, RebuiltFrom, SortedBy, PreviewOf, CustomerText, SplitCustomer, Plain;
    PreviewRoundTrip(cat, rows, preview);
    CustomerSurvivesIff(o.customerRef, o.customerName);
  }
}
