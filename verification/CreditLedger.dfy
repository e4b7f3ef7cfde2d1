/** The customer credit limit: actions of five files move `amount_limit_consumed` and write an operation
    line. Amounts are integers in the smallest unit. */
module CreditLedger {
  // The files are custom_account/models/account_move.py, custom_food_credit/models/pos_payment.py,
  // custom_food_credit/models/account_payment.py, custom_food_credit/wizard/account_payment.py and
  // custom_food_credit/wizard/update_limit_credit.py.

  import opened Digraphs
  import opened Options
  import opened Sums

  type PartnerId = int
  type MoveId = int
  type PaymentId = int

  /** `limit.credit`, with its operation lines. */
  datatype Credit = Credit(limit: int, consumed: int, operations: seq<int>)

  datatype Move = Move(partner: PartnerId, amount: nat, onCredit: bool, posted: bool, isLimit: bool)

  /** `payer` is the partner of the register wizard; `invoiced` that of the first invoice, if any. */
  datatype Payment = Payment(payer: PartnerId, invoiced: Option<PartnerId>, amount: nat, linked: bool, canceled: bool)

  /** Everything the ledger depends on. `allowed` has the partners flagged `is_limit`; `pos` and
      `adjustments` are the POS limit payments and the consumption updates made so far. */
  datatype Book = Book(
    credits: map<PartnerId, Credit>,
    allowed: set<PartnerId>,
    moves: map<MoveId, Move>,
    payments: map<PaymentId, Payment>,
    pos: map<PartnerId, int>,
    adjustments: map<PartnerId, int>)

  /** What a partner may still consume. */
  function Available(b: Book, p: PartnerId): int
    requires p in b.credits
  {
    b.credits[p].limit - b.credits[p].consumed
  }

  /** Moves the consumption and writes the operation line. */
  function Charge(credits: map<PartnerId, Credit>, p: PartnerId, amount: int): map<PartnerId, Credit>
    requires p in credits
  {
    credits[p := credits[p].(consumed := credits[p].consumed + amount, operations := credits[p].operations + [amount])]
  }

  function Credited(m: map<PartnerId, int>, p: PartnerId, amount: int): map<PartnerId, int> {
    m[p := (if p in m then m[p] else 0) + amount]
  }

  // ---------------------------------------------------------------- the steps

  datatype Step =
    | Draft(move: MoveId, client: PartnerId, due: nat, credit: bool)
    | Post(moves: seq<MoveId>)
    | BackToDraft(moves: seq<MoveId>)
    | PosPayment(partner: PartnerId, paid: int)
    | Settle(payment: PaymentId, payer: PartnerId, invoiced: Option<PartnerId>, settled: nat)
    | CancelPayments(payments: seq<PaymentId>)
    | RecoverCanceled(payment: PaymentId)
    | UpdateConsumption(partner: PartnerId, paid: int)
    | UpdateLimit(partner: PartnerId, newLimit: int)

  /** `_check_credit_limit` for one posted move. */
  function CheckMove(b: Book, id: MoveId): Option<Book>
    requires id in b.moves
  {
    var m := b.moves[id];
    if !m.onCredit then Some(b)
    else if m.partner !in b.allowed || m.partner !in b.credits || m.amount > Available(b, m.partner) then None
    else Some(b.(credits := Charge(b.credits, m.partner, m.amount), moves := b.moves[id := m.(isLimit := true)]))
  }

  /** `_retire_credit_limit` for one move. */
  function RetireMove(b: Book, id: MoveId): Book
    requires id in b.moves
  {
    var m := b.moves[id];
    if m.onCredit && m.isLimit && m.partner in b.credits
    then b.(credits := Charge(b.credits, m.partner, 0 - m.amount), moves := b.moves[id := m.(isLimit := false)])
    else b
  }

  /** The payment is linked to a credit limit, and its first invoice is of a partner with a limit. */
  predicate Restorable(b: Book, id: PaymentId)
    requires id in b.payments
  {
    var y := b.payments[id];
    y.linked && y.invoiced.Some? && y.invoiced.value in b.credits
  }

  /** `_retire_limit` for one payment: what `payer` had settled is charged to the partner invoiced. */
  function RetirePayment(b: Book, id: PaymentId): Book
    requires id in b.payments
  {
    var y := b.payments[id];
    if Restorable(b, id)
    then b.(credits := Charge(b.credits, y.invoiced.value, y.amount), payments := b.payments[id := y.(linked := false)])
    else b
  }

  function SetPosted(b: Book, id: MoveId, posted: bool): Book
    requires id in b.moves
  {
    b.(moves := b.moves[id := b.moves[id].(posted := posted)])
  }

  function PostAll(b: Book, ids: seq<MoveId>, posted: bool): (r: Book)
    requires forall id :: id in ids ==> id in b.moves
    ensures r.moves.Keys == b.moves.Keys && r == b.(moves := r.moves)
  {
    if ids == [] then b
    else
      assert ids[|ids| - 1] in ids;
      SetPosted(PostAll(b, ids[..|ids| - 1], posted), ids[|ids| - 1], posted)
  }

  function CheckAll(b: Book, ids: seq<MoveId>): (r: Option<Book>)
    requires forall id :: id in ids ==> id in b.moves
    ensures r.Some? ==> r.value.moves.Keys == b.moves.Keys
  {
    if ids == [] then Some(b)
    else
      assert ids[|ids| - 1] in ids;
      match CheckAll(b, ids[..|ids| - 1])
      case None => None
      case Some(c) => CheckMove(c, ids[|ids| - 1])
  }

  function RetireAll(b: Book, ids: seq<MoveId>): (r: Book)
    requires forall id :: id in ids ==> id in b.moves
    ensures r.moves.Keys == b.moves.Keys
  {
    if ids == [] then b
    else
      assert ids[|ids| - 1] in ids;
      RetireMove(RetireAll(b, ids[..|ids| - 1]), ids[|ids| - 1])
  }

  function CancelAll(b: Book, ids: seq<PaymentId>): (r: Book)
    requires forall id :: id in ids ==> id in b.payments
    ensures r.payments.Keys == b.payments.Keys && r == b.(payments := r.payments)
  {
    if ids == [] then b
    else
      assert ids[|ids| - 1] in ids;
      var c, id := CancelAll(b, ids[..|ids| - 1]), ids[|ids| - 1];
      assert id in b.payments;
      c.(payments := c.payments[id := c.payments[id].(canceled := true)])
  }

  function RetirePayments(b: Book, ids: seq<PaymentId>): (r: Book)
    requires forall id :: id in ids ==> id in b.payments
    ensures r.payments.Keys == b.payments.Keys
  {
    if ids == [] then b
    else
      assert ids[|ids| - 1] in ids;
      RetirePayment(RetirePayments(b, ids[..|ids| - 1]), ids[|ids| - 1])
  }

  /** One action of a user: None when it is refused, and then rolled back. */
  function Apply(b: Book, step: Step): Option<Book> {
    match step
    case Draft(id, p, amount, onCredit) =>
      if id in b.moves && b.moves[id].posted then None
      else
        var isLimit := id in b.moves && b.moves[id].isLimit;
        Some(b.(moves := b.moves[id := Move(p, amount, onCredit, false, isLimit)]))
    case Post(ids) =>
      if exists id :: id in ids && (id !in b.moves || b.moves[id].posted) then None
      else CheckAll(PostAll(b, ids, true), ids)
    case BackToDraft(ids) =>
      if exists id :: id in ids && (id !in b.moves || !b.moves[id].posted) then None
      else Some(PostAll(RetireAll(b, ids), ids, false))
    case PosPayment(p, amount) =>
      if p !in b.allowed || p !in b.credits || amount > Available(b, p) then None
      else Some(b.(credits := Charge(b.credits, p, amount), pos := Credited(b.pos, p, amount)))
    case Settle(id, p, invoiced, amount) =>
      if id in b.payments || p !in b.credits || amount > b.credits[p].consumed then None
      else
        var y := Payment(p, invoiced, amount, true, false);
        Some(b.(credits := Charge(b.credits, p, 0 - amount), payments := b.payments[id := y]))
    case CancelPayments(ids) =>
      if exists id :: id in ids && id !in b.payments then None
      else Some(RetirePayments(CancelAll(b, ids), ids))
    case RecoverCanceled(id) =>
      if id !in b.payments || !b.payments[id].linked || !b.payments[id].canceled then None
      else Some(RetirePayment(b, id))
    case UpdateConsumption(p, amount) =>
      if p !in b.credits || amount <= 0 || amount > b.credits[p].consumed then None
      else Some(b.(credits := Charge(b.credits, p, 0 - amount), adjustments := Credited(b.adjustments, p, amount)))
    case UpdateLimit(p, limit) =>
      if p !in b.credits || limit < b.credits[p].consumed then None
      else
        var c := b.credits[p];
        Some(b.(credits := b.credits[p := c.(limit := limit, operations := c.operations + [limit - c.limit])]))
  }

  /** A run: refused steps leave the book as it is. */
  function Run(b: Book, steps: seq<Step>): Book {
    if steps == [] then b
    else
      var c := Run(b, steps[..|steps| - 1]);
      match Apply(c, steps[|steps| - 1])
      case None => c
      case Some(d) => d
  }

  // ---------------------------------------------------------------- conservation

  /** The moves that weigh on the partner's credit: flagged `is_limit` (and so posted). */
  ghost function MoveWeights(b: Book, p: PartnerId): map<MoveId, int> {
    map id | id in b.moves :: if b.moves[id].partner == p && b.moves[id].isLimit then b.moves[id].amount else 0
  }

  /** What one payment has settled for `p`, less what its cancellation has charged to `p`. */
  function NetOf(y: Payment, p: PartnerId): int {
    (if y.payer == p then y.amount else 0) - (if !y.linked && y.invoiced == Some(p) then y.amount else 0)
  }

  ghost function NetSettled(b: Book, p: PartnerId): map<PaymentId, int> {
    map id | id in b.payments :: NetOf(b.payments[id], p)
  }

  function At(m: map<PartnerId, int>, p: PartnerId): int {
    if p in m then m[p] else 0
  }

  /** What the consumption would be without any of the modelled actions. */
  ghost function Unexplained(b: Book, p: PartnerId): int
    requires p in b.credits
  {
    b.credits[p].consumed - Total(MoveWeights(b, p)) - At(b.pos, p) + Total(NetSettled(b, p)) + At(b.adjustments, p)
  }

  /** The operation lines against the figures they explain. */
  function OperationGap(b: Book, p: PartnerId): int
    requires p in b.credits
  {
    Sum(b.credits[p].operations) - b.credits[p].consumed - b.credits[p].limit
  }

  ghost predicate Conserved(b: Book, c: Book) {
    && c.credits.Keys == b.credits.Keys && c.allowed == b.allowed
    && forall p :: p in b.credits ==> Unexplained(c, p) == Unexplained(b, p) && OperationGap(c, p) == OperationGap(b, p)
  }

  lemma ConservedTransitive(b: Book, c: Book, d: Book)
    requires Conserved(b, c) && Conserved(c, d)
    ensures Conserved(b, d)
  {
  }

  lemma ChargeGap(b: Book, c: Book, p: PartnerId, amount: int, q: PartnerId)
    requires p in b.credits && q in b.credits && c.credits == Charge(b.credits, p, amount)
    ensures c.credits.Keys == b.credits.Keys
    ensures OperationGap(c, q) == OperationGap(b, q)
    ensures c.credits[q].consumed == b.credits[q].consumed + if q == p then amount else 0
    ensures c.credits[q].limit == b.credits[q].limit
  {
    hide Sum;
    SumAppend(b.credits[p].operations, amount);
    if q == p {
      assert c.credits[q].operations == b.credits[p].operations + [amount];
    }
  }

  /** Changing one move changes one weight. */
  lemma MoveWeightChange(b: Book, c: Book, id: MoveId, m: Move, q: PartnerId)
    requires id in b.moves && c.moves == b.moves[id := m] && m.partner == b.moves[id].partner
             && m.amount == b.moves[id].amount
    ensures Total(MoveWeights(c, q)) == Total(MoveWeights(b, q)) +
              if m.partner != q || m.isLimit == b.moves[id].isLimit then 0
              else if m.isLimit then m.amount
              else 0 - m.amount
  {
    var w := if m.partner == q && m.isLimit then m.amount else 0;
    assert MoveWeights(c, q) == MoveWeights(b, q)[id := w];
    TotalUpdate(MoveWeights(b, q), id, w);
  }

  lemma NetSettledChange(b: Book, c: Book, id: PaymentId, y: Payment, q: PartnerId)
    requires c.payments == b.payments[id := y]
    ensures Total(NetSettled(c, q)) ==
            Total(NetSettled(b, q)) + NetOf(y, q) - if id in b.payments then NetOf(b.payments[id], q) else 0
  {
    assert NetSettled(c, q) == NetSettled(b, q)[id := NetOf(y, q)];
    TotalUpdate(NetSettled(b, q), id, NetOf(y, q));
  }

  /** No flagged move is in draft. */
  ghost predicate FlaggedArePosted(b: Book) {
    forall id :: id in b.moves && b.moves[id].isLimit ==>
          b.moves[id].posted && b.moves[id].onCredit && b.moves[id].partner in b.credits
  }

  lemma CheckConserves(b: Book, id: MoveId)
    requires id in b.moves && !b.moves[id].isLimit && CheckMove(b, id).Some?
    ensures Conserved(b, CheckMove(b, id).value)
  {
    var m, c := b.moves[id], CheckMove(b, id).value;
    if m.onCredit {
      forall q | q in b.credits
        ensures Unexplained(c, q) == Unexplained(b, q) && OperationGap(c, q) == OperationGap(b, q)
      {
        ChargeGap(b, c, m.partner, m.amount, q);
        MoveWeightChange(b, c, id, m.(isLimit := true), q);
        assert NetSettled(c, q) == NetSettled(b, q);
      }
    }
  }

  lemma RetireConserves(b: Book, id: MoveId)
    requires id in b.moves
    ensures Conserved(b, RetireMove(b, id))
  {
    var m, c := b.moves[id], RetireMove(b, id);
    if m.onCredit && m.isLimit && m.partner in b.credits {
      forall q | q in b.credits
        ensures Unexplained(c, q) == Unexplained(b, q) && OperationGap(c, q) == OperationGap(b, q)
      {
        ChargeGap(b, c, m.partner, 0 - m.amount, q);
        MoveWeightChange(b, c, id, m.(isLimit := false), q);
        assert NetSettled(c, q) == NetSettled(b, q);
      }
    }
  }

  lemma RetirePaymentConserves(b: Book, id: PaymentId)
    requires id in b.payments
    ensures Conserved(b, RetirePayment(b, id))
  {
    var y, c := b.payments[id], RetirePayment(b, id);
    if Restorable(b, id) {
      forall q | q in b.credits
        ensures Unexplained(c, q) == Unexplained(b, q) && OperationGap(c, q) == OperationGap(b, q)
      {
        ChargeGap(b, c, y.invoiced.value, y.amount, q);
        NetSettledChange(b, c, id, y.(linked := false), q);
        assert MoveWeights(c, q) == MoveWeights(b, q);
      }
    }
  }

  // ---------------------------------------------------------------- whole actions

  lemma {:induction false} PostAllOnly(b: Book, ids: seq<MoveId>, posted: bool)
    requires forall id :: id in ids ==> id in b.moves
    ensures forall id | id in b.moves ::
              PostAll(b, ids, posted).moves[id] ==
                    b.moves[id].(posted := if id in ids then posted else b.moves[id].posted)
  {
    if ids != [] {
      var init, last := ids[..|ids| - 1], ids[|ids| - 1];
      PostAllOnly(b, init, posted);
      assert ids == init + [last];
    }
  }

  lemma PostAllConserves(b: Book, ids: seq<MoveId>, posted: bool)
    requires forall id :: id in ids ==> id in b.moves
    ensures Conserved(b, PostAll(b, ids, posted))
  {
    PostAllOnly(b, ids, posted);
    var c := PostAll(b, ids, posted);
    forall id | id in b.moves ensures c.moves[id] == b.moves[id].(posted := c.moves[id].posted) { }
    forall q ensures MoveWeights(c, q) == MoveWeights(b, q) && NetSettled(c, q) == NetSettled(b, q) {
      assert MoveWeights(c, q) == MoveWeights(b, q);
      assert NetSettled(c, q) == NetSettled(b, q);
    }
  }

  lemma {:induction false} CheckAllConserves(b: Book, ids: seq<MoveId>)
    requires NoDuplicates(ids) && forall id :: id in ids ==> id in b.moves && !b.moves[id].isLimit
    requires CheckAll(b, ids).Some?
    ensures Conserved(b, CheckAll(b, ids).value)
    ensures var c := CheckAll(b, ids).value;
            forall id :: id in b.moves ==>
              && c.moves[id] == b.moves[id].(isLimit := b.moves[id].isLimit || (id in ids && b.moves[id].onCredit))
              && (id in ids && b.moves[id].onCredit ==> b.moves[id].partner in b.credits)
  {
    if ids != [] {
      var init, last := ids[..|ids| - 1], ids[|ids| - 1];
      assert ids == init + [last] && last !in init;
      CheckAllConserves(b, init);
      var c := CheckAll(b, init).value;
      CheckConserves(c, last);
      ConservedTransitive(b, c, CheckMove(c, last).value);
    }
  }

  lemma {:induction false} RetireAllConserves(b: Book, ids: seq<MoveId>)
    requires forall id :: id in ids ==> id in b.moves
    ensures Conserved(b, RetireAll(b, ids))
    ensures var c := RetireAll(b, ids);
            forall id :: id in b.moves ==> c.moves[id] == b.moves[id].(isLimit :=
              b.moves[id].isLimit && !(id in ids && b.moves[id].onCredit && b.moves[id].partner in b.credits))
  {
    if ids != [] {
      var init, last := ids[..|ids| - 1], ids[|ids| - 1];
      assert ids == init + [last];
      assert last in ids;
      RetireAllConserves(b, init);
      var c := RetireAll(b, init);
      RetireConserves(c, last);
      ConservedTransitive(b, c, RetireMove(c, last));
    }
  }

  lemma {:induction false} CancelAllOnly(b: Book, ids: seq<PaymentId>)
    requires forall id :: id in ids ==> id in b.payments
    ensures forall id | id in b.payments ::
              CancelAll(b, ids).payments[id] == b.payments[id].(canceled := id in ids || b.payments[id].canceled)
  {
    if ids != [] {
      var init, last := ids[..|ids| - 1], ids[|ids| - 1];
      CancelAllOnly(b, init);
      assert ids == init + [last];
    }
  }

  lemma CancelAllConserves(b: Book, ids: seq<PaymentId>)
    requires forall id :: id in ids ==> id in b.payments
    ensures Conserved(b, CancelAll(b, ids))
  {
    CancelAllOnly(b, ids);
    var c := CancelAll(b, ids);
    forall id | id in b.payments ensures c.payments[id] == b.payments[id].(canceled := c.payments[id].canceled) { }
    forall q ensures MoveWeights(c, q) == MoveWeights(b, q) && NetSettled(c, q) == NetSettled(b, q) {
      assert MoveWeights(c, q) == MoveWeights(b, q);
      forall id | id in b.payments ensures NetSettled(c, q)[id] == NetSettled(b, q)[id] { }
      assert NetSettled(c, q) == NetSettled(b, q);
    }
  }

  lemma {:induction false} RetirePaymentsConserve(b: Book, ids: seq<PaymentId>)
    requires forall id :: id in ids ==> id in b.payments
    ensures Conserved(b, RetirePayments(b, ids)) && RetirePayments(b, ids).moves == b.moves
  {
    if ids != [] {
      var init, last := ids[..|ids| - 1], ids[|ids| - 1];
      assert last in ids;
      RetirePaymentsConserve(b, init);
      RetirePaymentConserves(RetirePayments(b, init), last);
      ConservedTransitive(b, RetirePayments(b, init), RetirePayments(b, ids));
    }
  }

  /** The records an action is called on are distinct. */
  ghost predicate Recordset(step: Step) {
    (step.Post? ==> NoDuplicates(step.moves)) && (step.BackToDraft? ==> NoDuplicates(step.moves))
    && (step.CancelPayments? ==> NoDuplicates(step.payments))
  }

  /** A step that moves one partner's figures by `amount` and changes nothing recorded per move. */
  lemma ChargeConserves(b: Book, c: Book, p: PartnerId, amount: int)
    requires p in b.credits && c.credits == Charge(b.credits, p, amount) && c.moves == b.moves && c.allowed == b.allowed
    requires forall q :: At(c.pos, q) - Total(NetSettled(c, q)) - At(c.adjustments, q) ==
                         At(b.pos, q) - Total(NetSettled(b, q)) - At(b.adjustments, q) + if q == p then amount else 0
    ensures Conserved(b, c)
  {
    hide Total, NetSettled, At, Charge, OperationGap;
    assert c.credits.Keys == b.credits.Keys by { ChargeGap(b, c, p, amount, p); }
    forall q | q in b.credits
      ensures Unexplained(c, q) == Unexplained(b, q) && OperationGap(c, q) == OperationGap(b, q)
    {
      assert MoveWeights(c, q) == MoveWeights(b, q);
      ChargeGap(b, c, p, amount, q);
    }
  }

  lemma SimpleStepConserves(b: Book, step: Step)
    requires step.PosPayment? || step.UpdateConsumption?
    requires Apply(b, step).Some?
    ensures Conserved(b, Apply(b, step).value)
  {
    hide Total, Conserved, Charge, CheckAll, PostAll, RetireAll, CancelAll, RetirePayments;
    var c := Apply(b, step).value;
    forall q ensures Total(NetSettled(c, q)) == Total(NetSettled(b, q)) {
      assert NetSettled(c, q) == NetSettled(b, q);
    }
    ChargeConserves(b, c, step.partner, if step.PosPayment? then step.paid else 0 - step.paid);
  }

  lemma SettleConserves(b: Book, step: Step)
    requires step.Settle? && Apply(b, step).Some?
    ensures Conserved(b, Apply(b, step).value)
  {
    hide Total, NetSettled, Conserved, Charge, CheckAll, PostAll, RetireAll, CancelAll, RetirePayments;
    var c := Apply(b, step).value;
    forall q ensures Total(NetSettled(c, q)) == Total(NetSettled(b, q)) + if q == step.payer then step.settled else 0 {
      NetSettledChange(b, c, step.payment, Payment(step.payer, step.invoiced, step.settled, true, false), q);
    }
    ChargeConserves(b, c, step.payer, 0 - step.settled);
  }

  lemma DraftConserves(b: Book, step: Step)
    requires FlaggedArePosted(b) && step.Draft? && Apply(b, step).Some?
    ensures Conserved(b, Apply(b, step).value)
  {
    hide Total, CheckAll, PostAll, RetireAll, CancelAll, RetirePayments;
    var c := Apply(b, step).value;
    assert step.move in b.moves ==> !b.moves[step.move].isLimit;
    forall q | q in b.credits ensures Unexplained(c, q) == Unexplained(b, q) {
      assert MoveWeights(c, q) == MoveWeights(b, q)[step.move := 0];
      TotalUpdate(MoveWeights(b, q), step.move, 0);
      assert NetSettled(c, q) == NetSettled(b, q);
    }
  }

  lemma UpdateLimitConserves(b: Book, step: Step)
    requires step.UpdateLimit? && Apply(b, step).Some?
    ensures Conserved(b, Apply(b, step).value)
  {
    hide Total, Sum, CheckAll, PostAll, RetireAll, CancelAll, RetirePayments;
    var c, p := Apply(b, step).value, step.partner;
    SumAppend(b.credits[p].operations, step.newLimit - b.credits[p].limit);
    forall q | q in b.credits
      ensures Unexplained(c, q) == Unexplained(b, q) && OperationGap(c, q) == OperationGap(b, q)
    {
      assert MoveWeights(c, q) == MoveWeights(b, q);
      assert NetSettled(c, q) == NetSettled(b, q);
    }
  }

  lemma ApplyConserves(b: Book, step: Step)
    requires FlaggedArePosted(b) && Recordset(step) && Apply(b, step).Some?
    ensures Conserved(b, Apply(b, step).value) && FlaggedArePosted(Apply(b, step).value)
  {
    hide Unexplained, OperationGap;
    match step
    case Draft(_, _, _, _) =>
      DraftConserves(b, step);
    case Post(ids) =>
      PostAllOnly(b, ids, true);
      PostAllConserves(b, ids, true);
      CheckAllConserves(PostAll(b, ids, true), ids);
      ConservedTransitive(b, PostAll(b, ids, true), Apply(b, step).value);
    case BackToDraft(ids) =>
      RetireAllConserves(b, ids);
      PostAllOnly(RetireAll(b, ids), ids, false);
      PostAllConserves(RetireAll(b, ids), ids, false);
      ConservedTransitive(b, RetireAll(b, ids), Apply(b, step).value);
    case CancelPayments(ids) =>
      CancelAllConserves(b, ids);
      RetirePaymentsConserve(CancelAll(b, ids), ids);
      ConservedTransitive(b, CancelAll(b, ids), Apply(b, step).value);
    case RecoverCanceled(id) =>
      RetirePaymentConserves(b, id);
    case Settle(_, _, _, _) =>
      SettleConserves(b, step);
    case UpdateLimit(_, _) =>
      UpdateLimitConserves(b, step);
    case _ =>
      SimpleStepConserves(b, step);
  }

  /** Conservation. Over any interleaving of the actions, for every partner: consumption = initial part
      + flagged moves + POS payments - what it settled + what cancellations charged to it - consumption
      updates, the initial part never changing; and the operation lines sum to the changes of consumption
      and of the limit. */
  lemma {:induction false} RunConserves(b: Book, steps: seq<Step>)
    requires FlaggedArePosted(b) && forall i :: 0 <= i < |steps| ==> Recordset(steps[i])
    ensures Conserved(b, Run(b, steps)) && FlaggedArePosted(Run(b, steps))
  {
    if steps != [] {
      var init := steps[..|steps| - 1];
      RunConserves(b, init);
      var c := Run(b, init);
      if Apply(c, steps[|steps| - 1]).Some? {
        ApplyConserves(c, steps[|steps| - 1]);
        ConservedTransitive(b, c, Run(b, steps));
      }
    }
  }

  // ---------------------------------------------------------------- settlements that still count

  /** The settlements of `p` still linked to its credit. */
  ghost function LinkedWeights(b: Book, p: PartnerId): map<PaymentId, int> {
    map id | id in b.payments :: if b.payments[id].payer == p && b.payments[id].linked then b.payments[id].amount else 0
  }

  /** What a restored payment charged to `p` though `p` had not paid it, or not to `p` that had. */
  function DisplacedOf(y: Payment, p: PartnerId): int {
    if y.linked then 0
    else (if y.invoiced == Some(p) then y.amount else 0) - (if y.payer == p then y.amount else 0)
  }

  ghost function Displaced(b: Book, p: PartnerId): map<PaymentId, int> {
    map id | id in b.payments :: DisplacedOf(b.payments[id], p)
  }

  /** What the consumption would be if only settlements still linked counted for their payers: a
      cancelled settlement should leave it as it is. */
  ghost function UnexplainedByLinked(b: Book, p: PartnerId): int
    requires p in b.credits
  {
    b.credits[p].consumed - Total(MoveWeights(b, p)) - At(b.pos, p) + Total(LinkedWeights(b, p)) + At(b.adjustments, p)
  }

  lemma LinkedAndDisplaced(b: Book, p: PartnerId)
    requires p in b.credits
    ensures UnexplainedByLinked(b, p) == Unexplained(b, p) + Total(Displaced(b, p))
  {
    hide Total;
    var sum := Plus(NetSettled(b, p), Displaced(b, p));
    forall id | id in b.payments ensures sum[id] == LinkedWeights(b, p)[id] { }
    assert sum == LinkedWeights(b, p);
    TotalPlus(NetSettled(b, p), Displaced(b, p));
  }

  /** Cancelling one settlement gives every partner back what it paid, and nothing else, if and only if
      nothing is restored, or the payer is the partner invoiced, or the amount is zero. */
  lemma CancellationReturnsToPayerIff(b: Book, id: PaymentId)
    requires id in b.payments
    ensures var c, y := RetirePayment(b, id), b.payments[id];
            (forall q :: q in b.credits ==>
               q in c.credits && UnexplainedByLinked(c, q) == UnexplainedByLinked(b, q)) <==>
            (!Restorable(b, id) || y.invoiced == Some(y.payer) || y.amount == 0)
  {
    hide Total, UnexplainedByLinked, Unexplained, OperationGap;
    var c, y := RetirePayment(b, id), b.payments[id];
    RetirePaymentConserves(b, id);
    assert c.credits.Keys == b.credits.Keys;
    forall q | q in b.credits
      ensures q in c.credits
      ensures UnexplainedByLinked(c, q) == UnexplainedByLinked(b, q) +
                if Restorable(b, id) then DisplacedOf(y.(linked := false), q) else 0
    {
      LinkedAndDisplaced(b, q);
      LinkedAndDisplaced(c, q);
      if Restorable(b, id) {
        var w := DisplacedOf(y.(linked := false), q);
        assert Displaced(c, q) == Displaced(b, q)[id := w];
        TotalUpdate(Displaced(b, q), id, w);
      }
    }
    if Restorable(b, id) {
      assert y.invoiced.value in b.credits;
    }
  }

  /** Over a run: a partner's figures follow the linked settlements if and only if what cancellations
      charged to it for others equals what it paid and others were charged for. */
  lemma RunReturnsToPayerIff(b: Book, steps: seq<Step>, p: PartnerId)
    requires FlaggedArePosted(b) && (forall i :: 0 <= i < |steps| ==> Recordset(steps[i])) && p in b.credits
    ensures var c := Run(b, steps);
            p in c.credits &&
            (UnexplainedByLinked(c, p) == UnexplainedByLinked(b, p) <==>
             Total(Displaced(c, p)) == Total(Displaced(b, p)))
  {
    RunConserves(b, steps);
    LinkedAndDisplaced(b, p);
    LinkedAndDisplaced(Run(b, steps), p);
  }

  /** The partner that registers a settlement is the one invoiced. */
  predicate PaysItself(step: Step) {
    step.Settle? ==> step.invoiced == None || step.invoiced == Some(step.payer)
  }

  ghost predicate PayersAreInvoiced(b: Book) {
    forall id :: id in b.payments && b.payments[id].invoiced.Some? ==>
          b.payments[id].invoiced.value == b.payments[id].payer
  }

  lemma RestoringKeepsPartners(b: Book, id: PaymentId, q: PartnerId)
    requires PayersAreInvoiced(b) && id in b.payments
    ensures PayersAreInvoiced(RetirePayment(b, id))
    ensures Displaced(RetirePayment(b, id), q) == Displaced(b, q)
  {
    hide Charge;
    var c := RetirePayment(b, id);
    assert DisplacedOf(c.payments[id], q) == DisplacedOf(b.payments[id], q);
    forall i | i in b.payments ensures Displaced(c, q)[i] == Displaced(b, q)[i] { }
  }

  lemma {:induction false} RestoringAllKeepsPartners(b: Book, ids: seq<PaymentId>, q: PartnerId)
    requires PayersAreInvoiced(b) && forall id :: id in ids ==> id in b.payments
    ensures PayersAreInvoiced(RetirePayments(b, ids))
    ensures Displaced(RetirePayments(b, ids), q) == Displaced(b, q)
  {
    hide RetirePayment, PayersAreInvoiced, Displaced;
    if ids != [] {
      assert ids[|ids| - 1] in ids;
      RestoringAllKeepsPartners(b, ids[..|ids| - 1], q);
      RestoringKeepsPartners(RetirePayments(b, ids[..|ids| - 1]), ids[|ids| - 1], q);
    }
  }

  lemma CancellingKeepsPartners(b: Book, ids: seq<PaymentId>, q: PartnerId)
    requires PayersAreInvoiced(b) && forall id :: id in ids ==> id in b.payments
    ensures PayersAreInvoiced(CancelAll(b, ids))
    ensures Displaced(CancelAll(b, ids), q) == Displaced(b, q)
  {
    hide CancelAll;
    var c := CancelAll(b, ids);
    CancelAllOnly(b, ids);
    forall id | id in b.payments ensures c.payments[id] == b.payments[id].(canceled := c.payments[id].canceled) { }
    forall id | id in b.payments ensures Displaced(c, q)[id] == Displaced(b, q)[id] { }
  }

  lemma {:induction false} ChecksKeepPayments(b: Book, ids: seq<MoveId>)
    requires forall id :: id in ids ==> id in b.moves
    ensures CheckAll(b, ids).Some? ==> CheckAll(b, ids).value.payments == b.payments
    ensures RetireAll(b, ids).payments == b.payments
  {
    if ids != [] {
      assert ids[|ids| - 1] in ids;
      ChecksKeepPayments(b, ids[..|ids| - 1]);
    }
  }

  lemma StepKeepsDisplaced(b: Book, step: Step, q: PartnerId)
    requires PayersAreInvoiced(b) && PaysItself(step) && Apply(b, step).Some?
    ensures PayersAreInvoiced(Apply(b, step).value)
    ensures Total(Displaced(Apply(b, step).value, q)) == Total(Displaced(b, q))
  {
    hide Total, CheckAll, RetireAll, CancelAll, RetirePayments, PostAll, Charge;
    var c := Apply(b, step).value;
    match step
    case Post(ids) =>
      ChecksKeepPayments(PostAll(b, ids, true), ids);
      assert Displaced(c, q) == Displaced(b, q);
    case BackToDraft(ids) =>
      ChecksKeepPayments(b, ids);
      assert Displaced(c, q) == Displaced(b, q);
    case CancelPayments(ids) =>
      CancellingKeepsPartners(b, ids, q);
      RestoringAllKeepsPartners(CancelAll(b, ids), ids, q);
    case Settle(id, _, _, _) =>
      assert Displaced(c, q) == Displaced(b, q)[id := 0];
      TotalUpdate(Displaced(b, q), id, 0);
    case RecoverCanceled(id) =>
      RestoringKeepsPartners(b, id, q);
    case _ =>
      assert Displaced(c, q) == Displaced(b, q);
  }

  lemma {:induction false} RunKeepsDisplaced(b: Book, steps: seq<Step>, q: PartnerId)
    requires PayersAreInvoiced(b) && forall i :: 0 <= i < |steps| ==> PaysItself(steps[i])
    ensures PayersAreInvoiced(Run(b, steps))
    ensures Total(Displaced(Run(b, steps), q)) == Total(Displaced(b, q))
  {
    hide Total, PaysItself, PayersAreInvoiced, Displaced, Apply;
    if steps != [] {
      var init, step := steps[..|steps| - 1], steps[|steps| - 1];
      RunKeepsDisplaced(b, init, q);
      var c := Run(b, init);
      if Apply(c, step).Some? { StepKeepsDisplaced(c, step, q); }
    }
  }

  /** When those who settle are those invoiced, only the settlements still linked count. */
  lemma RunReturnsToPayer(b: Book, steps: seq<Step>, p: PartnerId)
    requires FlaggedArePosted(b) && (forall i :: 0 <= i < |steps| ==> Recordset(steps[i])) && p in b.credits
    requires PayersAreInvoiced(b) && forall i :: 0 <= i < |steps| ==> PaysItself(steps[i])
    ensures p in Run(b, steps).credits && UnexplainedByLinked(Run(b, steps), p) == UnexplainedByLinked(b, p)
  {
    hide PaysItself, Run, FlaggedArePosted;
    RunReturnsToPayerIff(b, steps, p);
    RunKeepsDisplaced(b, steps, p);
  }

  // ---------------------------------------------------------------- staying within the limit

  ghost predicate WithinLimits(b: Book) {
    forall p :: p in b.credits ==> b.credits[p].consumed <= b.credits[p].limit
  }

  lemma {:induction false} CheckAllStaysWithin(b: Book, ids: seq<MoveId>)
    requires WithinLimits(b) && (forall id :: id in ids ==> id in b.moves) && CheckAll(b, ids).Some?
    ensures WithinLimits(CheckAll(b, ids).value)
  {
    if ids != [] {
      assert ids[|ids| - 1] in ids;
      CheckAllStaysWithin(b, ids[..|ids| - 1]);
    }
  }

  lemma {:induction false} RetireAllStaysWithin(b: Book, ids: seq<MoveId>)
    requires WithinLimits(b) && forall id :: id in ids ==> id in b.moves
    ensures WithinLimits(RetireAll(b, ids))
  {
    if ids != [] {
      assert ids[|ids| - 1] in ids;
      RetireAllStaysWithin(b, ids[..|ids| - 1]);
    }
  }

  /** Every action but the cancellation of settlements keeps consumption within the limit. */
  lemma {:induction false} RunStaysWithin(b: Book, steps: seq<Step>)
    requires WithinLimits(b)
    requires forall i :: 0 <= i < |steps| ==> !steps[i].CancelPayments? && !steps[i].RecoverCanceled?
    ensures WithinLimits(Run(b, steps))
  {
    if steps != [] {
      var init, step := steps[..|steps| - 1], steps[|steps| - 1];
      RunStaysWithin(b, init);
      var c := Run(b, init);
      if Apply(c, step).Some? {
        if step.Post? {
          CheckAllStaysWithin(PostAll(c, step.moves, true), step.moves);
        } else if step.BackToDraft? {
          RetireAllStaysWithin(c, step.moves);
        }
      }
    }
  }

  /** The cancellation of a settlement keeps it so exactly when the restored amount still fits. */
  lemma CancellationStaysWithinIff(b: Book, id: PaymentId)
    requires WithinLimits(b) && id in b.payments
    ensures WithinLimits(RetirePayment(b, id)) <==>
              var y := b.payments[id];
              !Restorable(b, id) || y.amount <= Available(b, y.invoiced.value)
  {
    var y, c := b.payments[id], RetirePayment(b, id);
    if Restorable(b, id) {
      assert c.credits[y.invoiced.value].consumed == b.credits[y.invoiced.value].consumed + y.amount;
    }
  }

  /** A settled and canceled payment is restored once only, by whichever of the two ways comes first. */
  lemma RestoredOnce(b: Book, id: PaymentId)
    requires id in b.payments
    ensures var c := RetirePayment(b, id); RetirePayment(c, id) == c
  {
  }

  /** Limit 100: consume 80, settle 60, consume 60, cancel the settlement: 140 are consumed. */
  lemma CancellationCanExceedLimit(p: PartnerId)
    ensures var b := Book(map[p := Credit(100, 80, [])], {p}, map[], map[], map[], map[]);
            var c := Run(b, [Settle(1, p, Some(p), 60), PosPayment(p, 60), CancelPayments([1])]);
            WithinLimits(b) && p in c.credits && c.credits[p].consumed == 140
  {
    var b := Book(map[p := Credit(100, 80, [])], {p}, map[], map[], map[], map[]);
    var s1, s2, s3 := Settle(1, p, Some(p), 60), PosPayment(p, 60), CancelPayments([1]);
    RunAppend(b, [], s1);
    RunAppend(b, [s1], s2);
    RunAppend(b, [s1, s2], s3);
    assert [] + [s1] == [s1] && [s1] + [s2] == [s1, s2] && [s1, s2] + [s3] == [s1, s2, s3];
    var c1, c2 := Run(b, [s1]), Run(b, [s1, s2]);
    assert Apply(b, s1).Some? && c1.credits[p].consumed == 20 && c1.credits[p].limit == 100;
    assert Apply(c1, s2).Some? && c2.credits[p].consumed == 80;
    assert c2.payments == map[1 := Payment(p, Some(p), 60, true, false)];
    var d := CancelAll(c2, [1]);
    assert [1][..0] == [] && 1 in [1];
    CancelAllOnly(c2, [1]);
    assert d.payments[1].linked && d.credits == c2.credits;
    assert RetirePayments(d, [1]) == RetirePayment(d, 1);
  }

  /** Limits of 100: `p` consumed 80 and settles 60 on an invoice of `r`, and the settlement is cancelled:
      `p` keeps 20 and `r`, who paid nothing, is charged 60. */
  lemma CancellationChargesAnother(p: PartnerId, r: PartnerId)
    requires p != r
    ensures var b := Book(map[p := Credit(100, 80, []), r := Credit(100, 0, [])], {p, r}, map[], map[], map[], map[]);
            var c := Run(b, [Settle(1, p, Some(r), 60), CancelPayments([1])]);
            && p in c.credits && c.credits[p].consumed == 20 && r in c.credits && c.credits[r].consumed == 60
            && c.payments == map[1 := Payment(p, Some(r), 60, false, true)]
  {
    var b := Book(map[p := Credit(100, 80, []), r := Credit(100, 0, [])], {p, r}, map[], map[], map[], map[]);
    var s1, s2 := Settle(1, p, Some(r), 60), CancelPayments([1]);
    RunAppend(b, [], s1);
    RunAppend(b, [s1], s2);
    assert [] + [s1] == [s1] && [s1] + [s2] == [s1, s2];
    var c1 := Run(b, [s1]);
    assert Apply(b, s1).Some? && c1.credits[p].consumed == 20;
    assert c1.payments == map[1 := Payment(p, Some(r), 60, true, false)];
    var d := CancelAll(c1, [1]);
    assert [1][..0] == [] && 1 in [1];
    CancelAllOnly(c1, [1]);
    assert d.payments == map[1 := Payment(p, Some(r), 60, true, true)];
    assert RetirePayments(d, [1]) == RetirePayment(d, 1);
  }

  lemma RunAppend(b: Book, steps: seq<Step>, step: Step)
    ensures Run(b, steps + [step]) ==
            if Apply(Run(b, steps), step).Some? then Apply(Run(b, steps), step).value else Run(b, steps)
  {
    assert (steps + [step])[..|steps|] == steps;
  }

  // ---------------------------------------------------------------- when a posting is accepted

  /** What a move on credit of the partner would consume. */
  ghost function DueFrom(moves: map<MoveId, Move>, p: PartnerId): MoveId -> int {
    (id: MoveId) => if id in moves && moves[id].onCredit && moves[id].partner == p then moves[id].amount else 0
  }

  /** What a flagged move gives back to the partner. */
  ghost function FlaggedFor(moves: map<MoveId, Move>, p: PartnerId): MoveId -> int {
    (id: MoveId) =>
      if id in moves && moves[id].onCredit && moves[id].isLimit && moves[id].partner == p then moves[id].amount else 0
  }

  /** The partners have a credit, and the amounts of each, up to any of its moves, fit what is available. */
  ghost predicate FitsLimits(credits: map<PartnerId, Credit>, allowed: set<PartnerId>, moves: map<MoveId, Move>,
                             ids: seq<MoveId>) {
    forall k :: 0 <= k < |ids| ==> FitsAt(credits, allowed, moves, ids, k)
  }

  ghost predicate FitsAt(credits: map<PartnerId, Credit>, allowed: set<PartnerId>, moves: map<MoveId, Move>,
                         ids: seq<MoveId>, k: nat)
    requires k < |ids|
  {
    ids[k] in moves && moves[ids[k]].onCredit ==>
      var p := moves[ids[k]].partner;
      && p in allowed && p in credits
      && SumBy(ids[..k + 1], DueFrom(moves, p)) <= credits[p].limit - credits[p].consumed
  }

  /** Every partner consumes its moves on credit more, and nothing else of its figures changes. */
  ghost predicate ConsumedMore(before: map<PartnerId, Credit>, after: map<PartnerId, Credit>,
                               moves: map<MoveId, Move>, ids: seq<MoveId>) {
    && after.Keys == before.Keys
    && forall p :: p in before ==>
         && after[p].limit == before[p].limit
         && after[p].consumed == before[p].consumed + SumBy(ids, DueFrom(moves, p))
  }

  /** Every partner consumes its flagged moves less. */
  ghost predicate ConsumedLess(before: map<PartnerId, Credit>, after: map<PartnerId, Credit>,
                               moves: map<MoveId, Move>, ids: seq<MoveId>) {
    && after.Keys == before.Keys
    && forall p :: p in before ==>
         && after[p].limit == before[p].limit
         && after[p].consumed == before[p].consumed - SumBy(ids, FlaggedFor(moves, p))
  }

  lemma FitsMore(credits: map<PartnerId, Credit>, allowed: set<PartnerId>, moves: map<MoveId, Move>,
                 init: seq<MoveId>, last: MoveId)
    requires last in moves
    ensures FitsLimits(credits, allowed, moves, init + [last]) <==>
            && FitsLimits(credits, allowed, moves, init)
            && (moves[last].onCredit ==>
                  && moves[last].partner in allowed && moves[last].partner in credits
                  && SumBy(init, DueFrom(moves, moves[last].partner)) + moves[last].amount
                       <= credits[moves[last].partner].limit - credits[moves[last].partner].consumed)
  {
    var ids := init + [last];
    hide SumBy;
    forall k | 0 <= k < |init|
      ensures FitsAt(credits, allowed, moves, ids, k) <==> FitsAt(credits, allowed, moves, init, k)
    {
      assert ids[..k + 1] == init[..k + 1] && ids[k] == init[k];
    }
    assert ids[..|init| + 1] == ids && ids[|init|] == last;
    SumByAppend(init, last, DueFrom(moves, moves[last].partner));
    if FitsLimits(credits, allowed, moves, ids) {
      assert FitsAt(credits, allowed, moves, ids, |init|);
      forall k | 0 <= k < |init| ensures FitsAt(credits, allowed, moves, init, k) {
        assert FitsAt(credits, allowed, moves, ids, k);
      }
    }
  }

  lemma ConsumedOneMore(before: map<PartnerId, Credit>, mid: map<PartnerId, Credit>, moves: map<MoveId, Move>,
                        init: seq<MoveId>, last: MoveId)
    requires ConsumedMore(before, mid, moves, init) && last in moves
    requires moves[last].onCredit ==> moves[last].partner in mid
    ensures var m := moves[last];
            ConsumedMore(before, if m.onCredit then Charge(mid, m.partner, m.amount) else mid, moves, init + [last])
  {
    hide SumBy;
    forall p { SumByAppend(init, last, DueFrom(moves, p)); }
  }

  lemma ConsumedOneLess(before: map<PartnerId, Credit>, mid: map<PartnerId, Credit>, moves: map<MoveId, Move>,
                        init: seq<MoveId>, last: MoveId)
    requires ConsumedLess(before, mid, moves, init) && last in moves
    ensures var m := moves[last];
            var given := m.onCredit && m.isLimit && m.partner in mid;
            ConsumedLess(before, if given then Charge(mid, m.partner, 0 - m.amount) else mid, moves, init + [last])
  {
    hide SumBy;
    forall p { SumByAppend(init, last, FlaggedFor(moves, p)); }
  }

  lemma NothingConsumed(credits: map<PartnerId, Credit>, allowed: set<PartnerId>, moves: map<MoveId, Move>)
    ensures FitsLimits(credits, allowed, moves, [])
    ensures ConsumedMore(credits, credits, moves, []) && ConsumedLess(credits, credits, moves, [])
  {
  }

  /** `CheckMove`, read from the move as it was before the posting. */
  lemma CheckedMove(b: Book, c: Book, init: seq<MoveId>, last: MoveId)
    requires last in b.moves && last in c.moves && c.allowed == b.allowed
    requires ConsumedMore(b.credits, c.credits, b.moves, init)
    requires c.moves[last] == b.moves[last].(isLimit := c.moves[last].isLimit)
    ensures var m := b.moves[last];
            CheckMove(c, last).Some? <==>
            (m.onCredit ==>
               && m.partner in b.allowed && m.partner in b.credits
               && SumBy(init, DueFrom(b.moves, m.partner)) + m.amount
                    <= b.credits[m.partner].limit - b.credits[m.partner].consumed)
    ensures CheckMove(c, last).Some? ==>
              var m, d := b.moves[last], CheckMove(c, last).value;
              && (m.onCredit ==> m.partner in c.credits)
              && d.credits == (if m.onCredit then Charge(c.credits, m.partner, m.amount) else c.credits)
              && d.moves == (if m.onCredit then c.moves[last := m.(isLimit := true)] else c.moves)
              && d == c.(credits := d.credits, moves := d.moves)
  {
    hide SumBy;
  }

  /** The checks of a posting pass if and only if all its moves on credit fit; every partner is then
      charged the sum of its moves, which are flagged. */
  lemma {:induction false} CheckAllIff(b: Book, ids: seq<MoveId>)
    requires forall id :: id in ids ==> id in b.moves
    ensures CheckAll(b, ids).Some? <==> FitsLimits(b.credits, b.allowed, b.moves, ids)
    ensures CheckAll(b, ids).Some? ==>
              var c := CheckAll(b, ids).value;
              && ConsumedMore(b.credits, c.credits, b.moves, ids)
              && c == b.(credits := c.credits, moves := c.moves) && c.moves.Keys == b.moves.Keys
              && forall id :: id in b.moves ==>
                   c.moves[id] == b.moves[id].(isLimit := b.moves[id].isLimit || (id in ids && b.moves[id].onCredit))
  {
    hide SumBy, FitsLimits, ConsumedMore, CheckMove, Charge;
    if ids == [] {
      NothingConsumed(b.credits, b.allowed, b.moves);
    } else {
      var init, last := ids[..|ids| - 1], ids[|ids| - 1];
      assert ids == init + [last];
      assert last in ids;
      CheckAllIff(b, init);
      FitsMore(b.credits, b.allowed, b.moves, init, last);
      if CheckAll(b, init).Some? {
        var c := CheckAll(b, init).value;
        CheckedMove(b, c, init, last);
        if CheckMove(c, last).Some? { ConsumedOneMore(b.credits, c.credits, b.moves, init, last); }
      }
    }
  }

  lemma {:induction false} SameDue(moves: map<MoveId, Move>, posted: map<MoveId, Move>, ids: seq<MoveId>, p: PartnerId)
    requires moves.Keys == posted.Keys
    requires forall id :: id in moves ==> posted[id] == moves[id].(posted := posted[id].posted)
    ensures SumBy(ids, DueFrom(posted, p)) == SumBy(ids, DueFrom(moves, p))
  {
    if ids != [] { SameDue(moves, posted, ids[..|ids| - 1], p); }
  }

  lemma SameLimits(credits: map<PartnerId, Credit>, allowed: set<PartnerId>, after: map<PartnerId, Credit>,
                   moves: map<MoveId, Move>, posted: map<MoveId, Move>, ids: seq<MoveId>)
    requires moves.Keys == posted.Keys
    requires forall id :: id in moves ==> posted[id] == moves[id].(posted := posted[id].posted)
    ensures FitsLimits(credits, allowed, posted, ids) <==> FitsLimits(credits, allowed, moves, ids)
    ensures ConsumedMore(credits, after, posted, ids) <==> ConsumedMore(credits, after, moves, ids)
  {
    hide SumBy, DueFrom;
    forall p ensures SumBy(ids, DueFrom(posted, p)) == SumBy(ids, DueFrom(moves, p)) { SameDue(moves, posted, ids, p); }
    forall k | 0 <= k < |ids|
      ensures FitsAt(credits, allowed, posted, ids, k) <==> FitsAt(credits, allowed, moves, ids, k)
    {
      if ids[k] in moves { SameDue(moves, posted, ids[..k + 1], moves[ids[k]].partner); }
    }
  }

  /** A posting succeeds if and only if no move is posted yet and all moves on credit fit. */
  lemma PostingSucceedsIff(b: Book, ids: seq<MoveId>)
    requires forall id :: id in ids ==> id in b.moves
    ensures Apply(b, Post(ids)).Some? <==>
            (forall id :: id in ids ==> !b.moves[id].posted) && FitsLimits(b.credits, b.allowed, b.moves, ids)
    ensures Apply(b, Post(ids)).Some? ==>
              var c := Apply(b, Post(ids)).value;
              && ConsumedMore(b.credits, c.credits, b.moves, ids) && c.moves.Keys == b.moves.Keys
              && forall id :: id in b.moves ==>
                   c.moves[id] ==
                     if id !in ids then b.moves[id]
                     else b.moves[id].(posted := true, isLimit := b.moves[id].isLimit || b.moves[id].onCredit)
  {
    hide SumBy, CheckAll, PostAll, FitsLimits, ConsumedMore;
    var posted := PostAll(b, ids, true);
    PostAllOnly(b, ids, true);
    forall id | id in b.moves ensures posted.moves[id] == b.moves[id].(posted := posted.moves[id].posted) { }
    CheckAllIff(posted, ids);
    var after := if CheckAll(posted, ids).Some? then CheckAll(posted, ids).value.credits else b.credits;
    SameLimits(b.credits, b.allowed, after, b.moves, posted.moves, ids);
  }

  /** Back to draft: every partner gets its flagged moves back. */
  lemma {:induction false} RetireAllGivesBack(b: Book, ids: seq<MoveId>)
    requires NoDuplicates(ids) && forall id :: id in ids ==> id in b.moves
    ensures ConsumedLess(b.credits, RetireAll(b, ids).credits, b.moves, ids)
  {
    hide SumBy, ConsumedLess, Conserved, Charge;
    if ids == [] {
      NothingConsumed(b.credits, b.allowed, b.moves);
    } else {
      var init, last := ids[..|ids| - 1], ids[|ids| - 1];
      assert ids == init + [last];
      assert last in ids && last !in init;
      RetireAllGivesBack(b, init);
      RetireAllConserves(b, init);
      ConsumedOneLess(b.credits, RetireAll(b, init).credits, b.moves, init, last);
    }
  }

  /** `button_draft` succeeds if and only if all moves are posted; the flagged moves are given back. */
  lemma BackToDraftGivesBack(b: Book, ids: seq<MoveId>)
    requires NoDuplicates(ids) && forall id :: id in ids ==> id in b.moves
    ensures Apply(b, BackToDraft(ids)).Some? <==> forall id :: id in ids ==> b.moves[id].posted
    ensures Apply(b, BackToDraft(ids)).Some? ==>
              var c := Apply(b, BackToDraft(ids)).value;
              && ConsumedLess(b.credits, c.credits, b.moves, ids) && c.moves.Keys == b.moves.Keys
              && forall id :: id in b.moves ==>
                   c.moves[id] ==
                     if id !in ids then b.moves[id]
                     else if b.moves[id].onCredit && b.moves[id].partner in b.credits
                     then b.moves[id].(posted := false, isLimit := false)
                     else b.moves[id].(posted := false)
  {
    hide SumBy, RetireAll, PostAll, ConsumedLess;
    RetireAllGivesBack(b, ids);
    RetireAllConserves(b, ids);
    PostAllOnly(RetireAll(b, ids), ids, false);
  }

  // ---------------------------------------------------------------- the records, updated in place

  class Desk {
    var credits: map<PartnerId, Credit>
    var allowed: set<PartnerId>
    var moves: map<MoveId, Move>
    var payments: map<PaymentId, Payment>
    ghost var pos: map<PartnerId, int>
    ghost var adjustments: map<PartnerId, int>

    ghost function Contents(): Book
      reads this
    {
      Book(credits, allowed, moves, payments, pos, adjustments)
    }

    constructor (credits: map<PartnerId, Credit>, allowed: set<PartnerId>)
      ensures Contents() == Book(credits, allowed, map[], map[], map[], map[])
    {
      this.credits := credits;
      this.allowed := allowed;
      moves, payments, pos, adjustments := map[], map[], map[], map[];
    }

    method AddConsumption(p: PartnerId, amount: int)
      requires p in credits
      modifies this`credits
      ensures credits == Charge(old(credits), p, amount)
    {
      var c := credits[p];
      credits := credits[p := Credit(c.limit, c.consumed + amount, c.operations + [amount])];
    }

    /** Creates or edits a draft; a posted move is not edited. */
    method WriteDraft(id: MoveId, partner: PartnerId, amount: nat, onCredit: bool) returns (ok: bool)
      modifies this`moves
      ensures var r := Apply(old(Contents()), Draft(id, partner, amount, onCredit));
              (ok <==> r.Some?) && Contents() == if ok then r.value else old(Contents())
    {
      ok := id !in moves || !moves[id].posted;
      if ok {
        var isLimit := id in moves && moves[id].isLimit;
        moves := moves[id := Move(partner, amount, onCredit, false, isLimit)];
      }
    }

    /** `_check_credit_limit` for one move. */
    method CheckCreditLimit(id: MoveId) returns (ok: bool)
      requires id in moves
      modifies this`credits, this`moves
      ensures ok <==> var m := old(moves)[id];
                      m.onCredit ==> && m.partner in allowed && m.partner in old(credits)
                                     && m.amount <= old(credits)[m.partner].limit - old(credits)[m.partner].consumed
      ensures ok && old(moves)[id].onCredit ==>
                && moves == old(moves)[id := old(moves)[id].(isLimit := true)]
                && credits == Charge(old(credits), old(moves)[id].partner, old(moves)[id].amount)
      ensures ok && !old(moves)[id].onCredit ==> moves == old(moves) && credits == old(credits)
      ensures ok <==> CheckMove(old(Contents()), id).Some?
      ensures ok ==> Contents() == CheckMove(old(Contents()), id).value
      ensures moves.Keys == old(moves).Keys
    {
      var order := moves[id];
      if order.onCredit {
        if order.partner !in allowed || order.partner !in credits {
          return false;
        }
        var available := credits[order.partner].limit - credits[order.partner].consumed;
        if order.amount > available {
          return false;
        }
        AddConsumption(order.partner, order.amount);
        moves := moves[id := order.(isLimit := true)];
      }
      ok := true;
    }

    /** `action_post` of an invoice, or of several: all are posted first, then checked one by one. */
    method ActionPost(ids: seq<MoveId>) returns (ok: bool)
      requires forall id :: id in ids ==> id in moves
      modifies this`credits, this`moves
      ensures ok <==> old((forall id :: id in ids ==> !moves[id].posted) && FitsLimits(credits, allowed, moves, ids))
      ensures ok ==> ConsumedMore(old(credits), credits, old(moves), ids) && moves.Keys == old(moves).Keys
      ensures ok ==> forall id :: id in moves ==>
                moves[id] == if id !in ids then old(moves)[id]
                             else old(moves)[id].(posted := true,
                                                  isLimit := old(moves)[id].isLimit || old(moves)[id].onCredit)
      ensures ok <==> Apply(old(Contents()), Post(ids)).Some?
      ensures Contents() == if ok then Apply(old(Contents()), Post(ids)).value else old(Contents())
    {
      PostingSucceedsIff(Contents(), ids);
      var startCredits, startMoves := credits, moves;
      ok := forall id | id in ids :: !moves[id].posted;
      if !ok { return; }
      SetPostedAll(ids, true);
      ok := CheckCreditLimits(ids);
      if !ok {
        credits, moves := startCredits, startMoves;
      }
    }

    /** `_check_credit_limit` over the posted moves; it stops at the first one refused. */
    method CheckCreditLimits(ids: seq<MoveId>) returns (ok: bool)
      requires forall id :: id in ids ==> id in moves
      modifies this`credits, this`moves
      ensures ok <==> CheckAll(old(Contents()), ids).Some?
      ensures ok ==> Some(Contents()) == CheckAll(old(Contents()), ids)
    {
      hide CheckMove;
      ok := true;
      for i := 0 to |ids|
        invariant forall id :: id in ids ==> id in moves
        invariant moves.Keys == old(moves).Keys && ok
        invariant CheckAll(old(Contents()), ids[..i]) == Some(Contents())
      {
        assert ids[i] in ids;
        assert ids[..i + 1][..i] == ids[..i];
        ok := CheckCreditLimit(ids[i]);
        if !ok {
          FailedCheckFails(old(Contents()), ids, i + 1);
          return;
        }
      }
      assert ids[..|ids|] == ids;
    }

    method SetPostedAll(ids: seq<MoveId>, posted: bool)
      requires forall id :: id in ids ==> id in moves
      modifies this`moves
      ensures Contents() == PostAll(old(Contents()), ids, posted)
    {
      for i := 0 to |ids|
        invariant forall id :: id in ids ==> id in moves
        invariant moves.Keys == old(moves).Keys
        invariant Contents() == PostAll(old(Contents()), ids[..i], posted)
      {
        assert ids[i] in ids;
        assert ids[..i + 1][..i] == ids[..i];
        moves := moves[ids[i] := moves[ids[i]].(posted := posted)];
      }
      assert ids[..|ids|] == ids;
    }

    /** `_retire_credit_limit` over the moves. */
    method RetireCreditLimits(ids: seq<MoveId>)
      requires forall id :: id in ids ==> id in moves
      modifies this`credits, this`moves
      ensures Contents() == RetireAll(old(Contents()), ids) && moves.Keys == old(moves).Keys
    {
      for i := 0 to |ids|
        invariant forall id :: id in ids ==> id in moves
        invariant moves.Keys == old(moves).Keys
        invariant Contents() == RetireAll(old(Contents()), ids[..i])
      {
        assert ids[i] in ids;
        assert ids[..i + 1][..i] == ids[..i];
        var order := moves[ids[i]];
        if order.onCredit && order.isLimit && order.partner in credits {
          AddConsumption(order.partner, 0 - order.amount);
          moves := moves[ids[i] := order.(isLimit := false)];
        }
      }
      assert ids[..|ids|] == ids;
    }

    /** `button_draft`: the credit is given back first. */
    method ButtonDraft(ids: seq<MoveId>) returns (ok: bool)
      requires forall id :: id in ids ==> id in moves
      modifies this`credits, this`moves
      ensures ok <==> forall id :: id in ids ==> old(moves)[id].posted
      ensures ok && NoDuplicates(ids) ==>
                ConsumedLess(old(credits), credits, old(moves), ids) && moves.Keys == old(moves).Keys
      ensures ok <==> Apply(old(Contents()), BackToDraft(ids)).Some?
      ensures Contents() == if ok then Apply(old(Contents()), BackToDraft(ids)).value else old(Contents())
    {
      hide ConsumedLess, NoDuplicates, RetireAll, PostAll, Charge;
      ok := forall id | id in ids :: moves[id].posted;
      if !ok { return; }
      if NoDuplicates(ids) { BackToDraftGivesBack(Contents(), ids); }
      RetireCreditLimits(ids);
      SetPostedAll(ids, false);
    }

    /** `create` of a POS payment with a limit method, for one payment. */
    method CreatePosPayment(partner: PartnerId, amount: int) returns (ok: bool)
      modifies this
      ensures ok <==> && partner in allowed && partner in old(credits)
                      && amount <= old(credits)[partner].limit - old(credits)[partner].consumed
      ensures ok ==> credits == Charge(old(credits), partner, amount)
      ensures ok <==> Apply(old(Contents()), PosPayment(partner, amount)).Some?
      ensures Contents() == if ok then Apply(old(Contents()), PosPayment(partner, amount)).value else old(Contents())
    {
      if partner !in allowed || partner !in credits || amount > credits[partner].limit - credits[partner].consumed {
        return false;
      }
      AddConsumption(partner, amount);
      pos := Credited(pos, partner, amount);
      ok := true;
    }

    /** `action_create_payments` of the register wizard, linked to the credit limit. */
    method CreateSettlement(id: PaymentId, partner: PartnerId, invoiced: Option<PartnerId>, amount: nat)
      returns (ok: bool)
      requires id !in payments
      modifies this
      ensures ok <==> partner in old(credits) && amount <= old(credits)[partner].consumed
      ensures ok ==> credits == Charge(old(credits), partner, 0 - amount)
      ensures ok ==> payments == old(payments)[id := Payment(partner, invoiced, amount, true, false)]
      ensures var r := Apply(old(Contents()), Settle(id, partner, invoiced, amount));
              (ok <==> r.Some?) && Contents() == if ok then r.value else old(Contents())
    {
      if partner !in credits || amount > credits[partner].consumed {
        return false;
      }
      payments := payments[id := Payment(partner, invoiced, amount, true, false)];
      AddConsumption(partner, 0 - amount);
      ok := true;
    }

    /** `_retire_limit` for one payment. */
    method RetireLimit(id: PaymentId)
      requires id in payments
      modifies this`credits, this`payments
      ensures Contents() == RetirePayment(old(Contents()), id) && payments.Keys == old(payments).Keys
      ensures var y := old(payments)[id];
              if y.linked && y.invoiced.Some? && y.invoiced.value in old(credits)
              then && credits == Charge(old(credits), y.invoiced.value, y.amount)
                   && payments == old(payments)[id := y.(linked := false)]
              else credits == old(credits) && payments == old(payments)
    {
      var payment := payments[id];
      if payment.linked && payment.invoiced.Some? && payment.invoiced.value in credits {
        AddConsumption(payment.invoiced.value, payment.amount);
        payments := payments[id := payment.(linked := false)];
      }
    }

    /** `action_cancel` of payments. */
    method ActionCancel(ids: seq<PaymentId>)
      requires forall id :: id in ids ==> id in payments
      modifies this`credits, this`payments
      ensures Some(Contents()) == Apply(old(Contents()), CancelPayments(ids))
    {
      for i := 0 to |ids|
        invariant forall id :: id in ids ==> id in payments
        invariant payments.Keys == old(payments).Keys
        invariant Contents() == CancelAll(old(Contents()), ids[..i])
      {
        assert ids[i] in ids;
        assert ids[..i + 1][..i] == ids[..i];
        payments := payments[ids[i] := payments[ids[i]].(canceled := true)];
      }
      assert ids[..|ids|] == ids;
      ghost var canceled := Contents();
      for i := 0 to |ids|
        invariant forall id :: id in ids ==> id in payments
        invariant payments.Keys == old(payments).Keys
        invariant Contents() == RetirePayments(canceled, ids[..i])
      {
        assert ids[i] in ids;
        assert ids[..i + 1][..i] == ids[..i];
        RetireLimit(ids[i]);
      }
    }

    /** The wizard `update.limit.credit`, for the three motives that do not fail always. */
    method UpdateLimitCredit(step: Step) returns (ok: bool)
      requires step.UpdateLimit? || step.UpdateConsumption? || step.RecoverCanceled?
      modifies this
      ensures step.UpdateLimit? ==>
                && (ok <==> step.partner in old(credits) && step.newLimit >= old(credits)[step.partner].consumed)
                && (ok ==> step.partner in credits && credits[step.partner].limit == step.newLimit
                           && credits[step.partner].consumed == old(credits)[step.partner].consumed)
      ensures step.UpdateConsumption? ==>
                && (ok <==> step.partner in old(credits) && 0 < step.paid <= old(credits)[step.partner].consumed)
                && (ok ==> credits == Charge(old(credits), step.partner, 0 - step.paid))
      ensures step.RecoverCanceled? ==>
                (ok <==> step.payment in old(payments)
                         && old(payments)[step.payment].linked && old(payments)[step.payment].canceled)
      ensures ok <==> Apply(old(Contents()), step).Some?
      ensures Contents() == if ok then Apply(old(Contents()), step).value else old(Contents())
    {
      match step
      case UpdateLimit(partner, newLimit) =>
        ok := partner in credits && newLimit >= credits[partner].consumed;
        if ok {
          var c := credits[partner];
          credits := credits[partner := c.(limit := newLimit, operations := c.operations + [newLimit - c.limit])];
        }
      case UpdateConsumption(partner, paid) =>
        ok := partner in credits && 0 < paid <= credits[partner].consumed;
        if ok {
          AddConsumption(partner, 0 - paid);
          adjustments := Credited(adjustments, partner, paid);
        }
      case RecoverCanceled(payment) =>
        ok := payment in payments && payments[payment].linked && payments[payment].canceled;
        if ok {
          RetireLimit(payment);
        }
    }
  }

  /** A refused move makes the whole posting fail. */
  lemma {:induction false} FailedCheckFails(b: Book, ids: seq<MoveId>, k: nat)
    requires k <= |ids| && forall id :: id in ids ==> id in b.moves
    requires CheckAll(b, ids[..k]).None?
    ensures CheckAll(b, ids).None?
    decreases |ids|
  {
    if k == |ids| {
      assert ids[..k] == ids;
    } else {
      var init := ids[..|ids| - 1];
      assert init[..k] == ids[..k];
      FailedCheckFails(b, init, k);
    }
  }
}
