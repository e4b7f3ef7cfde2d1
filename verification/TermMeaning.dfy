/** Flattening and meaning of chain/group terms: no link ever contradicts the meaning, and the links
    carry all of it exactly when the term is `Faithful`. */
module TermMeaning {
  import opened Digraphs
  import opened Terms

  /** Every pair of `before` is carried by a path of `links`. */
  ghost predicate Complete(links: Edges<JobId>, before: Edges<JobId>) {
    forall edge :: edge in before ==> Reach(links, edge.0, edge.1)
  }

  ghost predicate AllReach(e: Edges<JobId>, s: set<JobId>, targets: set<JobId>) {
    forall x :: x in s ==> ReachesSome(e, x, targets)
  }

  ghost predicate AllReached(e: Edges<JobId>, sources: set<JobId>, s: set<JobId>) {
    forall y :: y in s ==> ReachedFromSome(e, sources, y)
  }

  // ---------------------------------------------------------------- two parts joined

  /** Jobs `a` with links `ea`, then jobs `b` with links `eb`, every one of `xs` linked to every one of `ys`. */
  datatype Joint = Joint(a: set<JobId>, ea: Edges<JobId>, xs: set<JobId>, b: set<JobId>, eb: Edges<JobId>,
                         ys: set<JobId>) {
    ghost predicate Valid() { Composed(All(), a, ea, xs, b, eb, ys) }
    ghost function All(): Edges<JobId> { ea + eb + Cross(xs, ys) }

    lemma Reaches(x: JobId, y: JobId)
      requires Valid()
      ensures Reach(All(), x, y) <==>
                || (x in a && y in a && Reach(ea, x, y))
                || (x in b && y in b && Reach(eb, x, y))
                || (x in a && y in b && ReachesSome(ea, x, xs) && ReachedFromSome(eb, ys, y))
    {
      ReachComposed(All(), a, ea, xs, b, eb, ys, x, y);
    }

    lemma ReachesSomeTarget(x: JobId, ta: set<JobId>, tb: set<JobId>)
      requires Valid() && ta <= a && tb <= b
      ensures x in b ==> (ReachesSome(All(), x, ta + tb) <==> ReachesSome(eb, x, tb))
      ensures x in a && (xs == {} || tb == {}) ==> (ReachesSome(All(), x, ta + tb) <==> ReachesSome(ea, x, ta))
    {
      forall u { Reaches(x, u); }
    }

    lemma ReachedFromSource(y: JobId, sa: set<JobId>, sb: set<JobId>)
      requires Valid() && sa <= a && sb <= b
      ensures y in a ==> (ReachedFromSome(All(), sa + sb, y) <==> ReachedFromSome(ea, sa, y))
      ensures y in b && (xs == {} || sa == {}) ==> (ReachedFromSome(All(), sa + sb, y) <==> ReachedFromSome(eb, sb, y))
    {
      forall u { Reaches(u, y); }
    }

    /** Every job of the first part leads to `xs` and every job of the second follows `ys`. */
    ghost predicate Linked() {
      a == {} || b == {} || (AllReach(ea, a, xs) && AllReached(eb, ys, b))
    }

    /** A sequence of two parts carries its meaning exactly when both parts do and they are linked. */
    lemma InSequence(ba: Edges<JobId>, bb: Edges<JobId>)
      requires Valid() && Within(ba, a) && Within(bb, b)
      ensures Complete(All(), ba + bb + Cross(a, b)) <==> Complete(ea, ba) && Complete(eb, bb) && Linked()
    {
      forall x, y { Reaches(x, y); }
      var before := ba + bb + Cross(a, b);
      if Complete(All(), before) {
        forall edge | edge in ba ensures Reach(ea, edge.0, edge.1) { assert edge in before; }
        forall edge | edge in bb ensures Reach(eb, edge.0, edge.1) { assert edge in before; }
        if a != {} && b != {} {
          var x0, y0 := AnyOf(a), AnyOf(b);
          forall x | x in a ensures ReachesSome(ea, x, xs) { assert (x, y0) in before; }
          forall y | y in b ensures ReachedFromSome(eb, ys, y) { assert (x0, y) in before; }
        }
      }
      if Complete(ea, ba) && Complete(eb, bb) && Linked() {
        forall edge | edge in before ensures Reach(All(), edge.0, edge.1) {
          Reaches(edge.0, edge.1);
          if edge !in ba && edge !in bb { assert edge in Cross(a, b); CrossReach(edge.0, edge.1); }
        }
      }
    }

    lemma SideBySide(ba: Edges<JobId>, bb: Edges<JobId>)
      requires Valid() && Within(ba, a) && Within(bb, b) && xs == {}
      ensures Complete(All(), ba + bb) <==> Complete(ea, ba) && Complete(eb, bb)
    {
      forall x, y { Reaches(x, y); }
      if Complete(All(), ba + bb) {
        forall edge | edge in ba ensures Reach(ea, edge.0, edge.1) { assert edge in ba + bb; }
        forall edge | edge in bb ensures Reach(eb, edge.0, edge.1) { assert edge in ba + bb; }
      }
    }

    lemma CrossReach(x: JobId, y: JobId)
      requires Valid() && Linked() && x in a && y in b
      ensures Reach(All(), x, y)
    {
      Reaches(x, y);
    }

    /** Targets in both of two unconnected parts, or in one part only. */
    lemma Targets(ta: set<JobId>, tb: set<JobId>)
      requires Valid() && ta <= a && tb <= b
      ensures xs == {} ==> (AllReach(All(), a + b, ta + tb) <==> AllReach(ea, a, ta) && AllReach(eb, b, tb))
      ensures ta == {} && Linked() ==> (AllReach(All(), a + b, tb) <==> AllReach(eb, b, tb) && (a == {} || tb != {}))
      ensures tb == {} ==> (AllReach(All(), a + b, ta) <==> AllReach(ea, a, ta) && b == {})
    {
      forall x ensures x in b ==> (ReachesSome(All(), x, ta + tb) <==> ReachesSome(eb, x, tb))
               ensures x in a && (xs == {} || tb == {}) ==>
                         (ReachesSome(All(), x, ta + tb) <==> ReachesSome(ea, x, ta)) {
        ReachesSomeTarget(x, ta, tb);
      }
      NoEnds(All(), a);
      NoEnds(eb, b);
      if ta == {} {
        assert ta + tb == tb;
        if Linked() && tb != {} {
          var y := AnyOf(tb);
          forall x | x in a ensures ReachesSome(All(), x, tb) { CrossReach(x, y); assert ReachOrSame(All(), x, y); }
        }
      }
      if tb == {} { assert ta + tb == ta; }
    }

    /** Sources in both of two unconnected parts, or in one part only. */
    lemma Sources(sa: set<JobId>, sb: set<JobId>)
      requires Valid() && sa <= a && sb <= b
      ensures xs == {} ==> (AllReached(All(), sa + sb, a + b) <==> AllReached(ea, sa, a) && AllReached(eb, sb, b))
      ensures sa == {} ==> (AllReached(All(), sb, a + b) <==> AllReached(eb, sb, b) && a == {})
      ensures sb == {} && Linked() ==>
                (AllReached(All(), sa, a + b) <==> AllReached(ea, sa, a) && (b == {} || sa != {}))
    {
      forall y ensures y in a ==> (ReachedFromSome(All(), sa + sb, y) <==> ReachedFromSome(ea, sa, y))
               ensures y in b && (xs == {} || sa == {}) ==>
                         (ReachedFromSome(All(), sa + sb, y) <==> ReachedFromSome(eb, sb, y)) {
        ReachedFromSource(y, sa, sb);
      }
      NoEnds(All(), b);
      NoEnds(ea, a);
      if sa == {} { assert sa + sb == sb; }
      if sb == {} {
        assert sa + sb == sa;
        if Linked() && sa != {} {
          var x := AnyOf(sa);
          forall y | y in b ensures ReachedFromSome(All(), sa, y) { CrossReach(x, y); assert ReachOrSame(All(), x, y); }
        }
      }
    }
  }

  lemma NoEnds(e: Edges<JobId>, s: set<JobId>)
    ensures AllReach(e, s, {}) <==> s == {}
    ensures AllReached(e, {}, s) <==> s == {}
    ensures s == {} ==> forall t :: AllReach(e, s, t) && AllReached(e, t, s)
  {
    if s != {} {
      var x := AnyOf(s);
      assert !ReachesSome(e, x, {}) && !ReachedFromSome(e, {}, x);
    }
  }

  // ---------------------------------------------------------------- everything stays inside the term

  lemma {:induction false} InsideTerm(t: Term)
    ensures Heads(t) <= Jobs(t) && Tails(t) <= Jobs(t)
    ensures Within(Links(t), Jobs(t)) && Within(Before(t), Jobs(t))
  {
    match t
    case Job(_) =>
    case Chain(ts) => InsideTerms(ts);
    case Group(ts) => InsideTerms(ts);
  }

  lemma {:induction false} InsideTerms(ts: Terms)
    ensures HeadsOf(ts) <= JobsOf(ts) && TailsOf(ts) <= JobsOf(ts) && LastHeads(ts) <= JobsOf(ts)
    ensures FirstHeads(ts) <= JobsOf(ts)
    ensures ts.Cons? ==> Tails(ts.head) <= JobsOf(ts)
    ensures Within(LinksInChain(ts), JobsOf(ts)) && Within(BeforeInChain(ts), JobsOf(ts))
    ensures Within(LinksInGroup(ts), JobsOf(ts)) && Within(BeforeInGroup(ts), JobsOf(ts))
  {
    if ts.Cons? {
      InsideTerm(ts.head);
      InsideTerms(ts.tail);
    }
  }

  ghost function SequenceJoint(ts: Terms): (j: Joint)
    requires ts.Cons?
  {
    Joint(Jobs(ts.head), Links(ts.head), Tails(ts.head), JobsOf(ts.tail), LinksInChain(ts.tail), FirstHeads(ts.tail))
  }

  ghost function GroupJoint(ts: Terms): (j: Joint)
    requires ts.Cons?
  {
    Joint(Jobs(ts.head), Links(ts.head), {}, JobsOf(ts.tail), LinksInGroup(ts.tail), {})
  }

  lemma Joints(ts: Terms)
    requires ts.Cons? && AllDistinct(ts)
    ensures SequenceJoint(ts).Valid() && SequenceJoint(ts).All() == LinksInChain(ts)
    ensures GroupJoint(ts).Valid() && GroupJoint(ts).All() == LinksInGroup(ts)
    ensures Within(Before(ts.head), Jobs(ts.head))
    ensures Within(BeforeInChain(ts.tail), JobsOf(ts.tail)) && Within(BeforeInGroup(ts.tail), JobsOf(ts.tail))
  {
    InsideTerm(ts.head);
    InsideTerms(ts.tail);
  }

  // ---------------------------------------------------------------- soundness

  lemma {:induction false} MeaningIsOrder(t: Term)
    requires Distinct(t)
    ensures Transitive(Before(t))
    ensures forall a :: (a, a) !in Before(t)
    ensures Links(t) <= Before(t)
  {
    match t
    case Job(_) =>
    case Chain(ts) => MeaningsAreOrders(ts);
    case Group(ts) => MeaningsAreOrders(ts);
  }

  lemma {:induction false} MeaningsAreOrders(ts: Terms)
    requires AllDistinct(ts)
    ensures Transitive(BeforeInChain(ts)) && Transitive(BeforeInGroup(ts))
    ensures forall a :: (a, a) !in BeforeInChain(ts) && (a, a) !in BeforeInGroup(ts)
    ensures LinksInChain(ts) <= BeforeInChain(ts) && LinksInGroup(ts) <= BeforeInGroup(ts)
  {
    if ts.Cons? {
      MeaningIsOrder(ts.head);
      MeaningsAreOrders(ts.tail);
      InsideTerm(ts.head);
      InsideTerms(ts.tail);
    }
  }

  /** Over distinct jobs, a link path never says more than the term, and there is no cycle. */
  lemma FlatteningIsSound(t: Term)
    requires Distinct(t)
    ensures forall x, y :: Reach(Links(t), x, y) ==> (x, y) in Before(t)
    ensures Acyclic(Links(t))
  {
    MeaningIsOrder(t);
    forall x, y | Reach(Links(t), x, y) ensures (x, y) in Before(t) {
      ReachWithinTransitive(Links(t), Before(t), x, y);
    }
  }

  // ---------------------------------------------------------------- what the conditions mean

  /** On a term whose links carry its meaning, the four syntactic tests say what they are named after. */
  lemma {:induction false} ConditionsMean(t: Term)
    requires Distinct(t) && Complete(Links(t), Before(t))
    ensures EndsAtTails(t) <==> AllReach(Links(t), Jobs(t), Tails(t))
    ensures EndsAtHeads(t) <==> AllReach(Links(t), Jobs(t), Heads(t))
    ensures StartsAtHeads(t) <==> AllReached(Links(t), Heads(t), Jobs(t))
    ensures StartsAtTails(t) <==> AllReached(Links(t), Tails(t), Jobs(t))
  {
    match t
    case Job(id) =>
      assert ReachesSome({}, id, {id}) by { assert ReachOrSame({}, id, id); }
      assert ReachedFromSome({}, {id}, id) by { assert ReachOrSame({}, id, id); }
    case Chain(ts) =>
      ChainEnds(ts);
      if ts.Cons? { ChainEdge(ts); }
    case Group(ts) => GroupConditions(ts);
  }

  lemma {:induction false} GroupConditions(ts: Terms)
    requires AllDistinct(ts) && Complete(LinksInGroup(ts), BeforeInGroup(ts))
    ensures AllEndAtTails(ts) <==> AllReach(LinksInGroup(ts), JobsOf(ts), TailsOf(ts))
    ensures AllEndAtHeads(ts) <==> AllReach(LinksInGroup(ts), JobsOf(ts), HeadsOf(ts))
    ensures AllStartAtHeads(ts) <==> AllReached(LinksInGroup(ts), HeadsOf(ts), JobsOf(ts))
    ensures AllStartAtTails(ts) <==> AllReached(LinksInGroup(ts), TailsOf(ts), JobsOf(ts))
  {
    if ts.Cons? {
      Joints(ts);
      var j := GroupJoint(ts);
      j.SideBySide(Before(ts.head), BeforeInGroup(ts.tail));
      ConditionsMean(ts.head);
      GroupConditions(ts.tail);
      InsideTerm(ts.head);
      InsideTerms(ts.tail);
      j.Targets(Tails(ts.head), TailsOf(ts.tail));
      j.Sources(Tails(ts.head), TailsOf(ts.tail));
      j.Targets(Heads(ts.head), HeadsOf(ts.tail));
      j.Sources(Heads(ts.head), HeadsOf(ts.tail));
    }
  }

  /** The last element of a chain. */
  lemma {:induction false} ChainEnds(ts: Terms)
    requires AllDistinct(ts) && Complete(LinksInChain(ts), BeforeInChain(ts))
    ensures (JobsOf(ts) == {} || LastEndsAtHeads(ts)) <==> AllReach(LinksInChain(ts), JobsOf(ts), LastHeads(ts))
    ensures OnlyLastStartsAtHeads(ts) <==> AllReached(LinksInChain(ts), LastHeads(ts), JobsOf(ts))
  {
    hide AllReach, AllReached, Complete, Joint.Valid;
    NoEnds(LinksInChain(ts), JobsOf(ts));
    LastHasJobs(ts);
    if ts.Cons? {
      NoEnds(LinksInChain(ts.tail), JobsOf(ts.tail));
      LastHasJobs(ts.tail);
      Joints(ts);
      var j := SequenceJoint(ts);
      j.InSequence(Before(ts.head), BeforeInChain(ts.tail));
      InsideTerm(ts.head);
      InsideTerms(ts.tail);
      if ts.tail.Nil? {
        ConditionsMean(ts.head);
        assert LinksInChain(ts) == Links(ts.head) && JobsOf(ts) == Jobs(ts.head);
      } else {
        ChainEnds(ts.tail);
        j.Targets({}, LastHeads(ts.tail));
        j.Sources({}, LastHeads(ts.tail));
      }
    }
  }

  lemma LastHasJobs(ts: Terms)
    ensures LastEndsAtHeads(ts) ==> JobsOf(ts) != {}
  {
  }

  /** The first element of a chain. */
  lemma ChainEdge(ts: Terms)
    requires ts.Cons? && AllDistinct(ts) && Complete(LinksInChain(ts), BeforeInChain(ts))
    ensures EndsAtHeads(Chain(ts)) <==> AllReach(LinksInChain(ts), JobsOf(ts), Tails(ts.head))
    ensures StartsAtHeads(Chain(ts)) <==> AllReached(LinksInChain(ts), Tails(ts.head), JobsOf(ts))
    decreases ts, 0
  {
    hide AllReach, AllReached, Complete, Joint.Valid;
    NoEnds(Links(ts.head), Jobs(ts.head));
    Joints(ts);
    var j := SequenceJoint(ts);
    j.InSequence(Before(ts.head), BeforeInChain(ts.tail));
    InsideTerm(ts.head);
    ConditionsMean(ts.head);
    j.Targets(Tails(ts.head), {});
    j.Sources(Tails(ts.head), {});
  }

  // ---------------------------------------------------------------- the exact condition

  lemma {:induction false} CompleteIffFaithful(t: Term)
    requires Distinct(t)
    ensures Complete(Links(t), Before(t)) <==> Faithful(t)
  {
    match t
    case Job(_) =>
    case Chain(ts) => ChainCompleteIffFaithful(ts);
    case Group(ts) => GroupCompleteIffFaithful(ts);
  }

  lemma {:induction false} GroupCompleteIffFaithful(ts: Terms)
    requires AllDistinct(ts)
    ensures Complete(LinksInGroup(ts), BeforeInGroup(ts)) <==> AllFaithful(ts)
  {
    if ts.Cons? {
      Joints(ts);
      GroupJoint(ts).SideBySide(Before(ts.head), BeforeInGroup(ts.tail));
      CompleteIffFaithful(ts.head);
      GroupCompleteIffFaithful(ts.tail);
    }
  }

  lemma {:induction false} ChainCompleteIffFaithful(ts: Terms)
    requires AllDistinct(ts)
    ensures Complete(LinksInChain(ts), BeforeInChain(ts)) <==> FaithfulChain(ts)
  {
    if ts.Cons? {
      Joints(ts);
      SequenceJoint(ts).InSequence(Before(ts.head), BeforeInChain(ts.tail));
      CompleteIffFaithful(ts.head);
      ChainCompleteIffFaithful(ts.tail);
      if Faithful(ts.head) && FaithfulChain(ts.tail) {
        LinkedIffConditions(ts);
      }
    }
  }

  lemma LinkedIffConditions(ts: Terms)
    requires ts.Cons? && AllDistinct(ts)
    requires Complete(Links(ts.head), Before(ts.head)) && Complete(LinksInChain(ts.tail), BeforeInChain(ts.tail))
    ensures SequenceJoint(ts).Linked() <==>
              Jobs(ts.head) == {} || JobsOf(ts.tail) == {} ||
              (EndsAtTails(ts.head) && Jobs(ts.tail.head) != {} && StartsAtHeads(ts.tail.head))
  {
    hide AllReach, AllReached, Complete, Joint.Valid;
    ConditionsMean(ts.head);
    if ts.tail.Cons? {
      var rest := ts.tail;
      Joints(rest);
      var j := SequenceJoint(rest);
      j.InSequence(Before(rest.head), BeforeInChain(rest.tail));
      ConditionsMean(rest.head);
      InsideTerm(rest.head);
      j.Sources(Heads(rest.head), {});
      NoEnds(Links(rest.head), Jobs(rest.head));
    }
  }

  /** The flattening theorem. Over distinct jobs, the flattened graph is acyclic, and y is reachable
      from x in it exactly when the term says that x comes before y, for all x and y, if and only if
      the term is `Faithful`. */
  lemma FlatteningPreservesMeaning(t: Term)
    requires Distinct(t)
    ensures Acyclic(Links(t))
    ensures (forall x, y :: Reach(Links(t), x, y) <==> (x, y) in Before(t)) <==> Faithful(t)
  {
    FlatteningIsSound(t);
    CompleteIffFaithful(t);
    if forall x, y :: Reach(Links(t), x, y) <==> (x, y) in Before(t) {
      forall edge | edge in Before(t) ensures Reach(Links(t), edge.0, edge.1) {
        var (x, y) := edge;
      }
    }
  }

  // ---------------------------------------------------------------- when nesting is harmless

  /** Terms whose heads and tails are the same jobs. */
  predicate Symmetric(t: Term) {
    match t
    case Job(_) => true
    case Chain(ts) => ts.Cons? && ts.tail.Nil? && Symmetric(ts.head)
    case Group(ts) => ts.Cons? && AllSymmetric(ts)
  }

  predicate AllSymmetric(ts: Terms) {
    ts.Cons? ==> Symmetric(ts.head) && AllSymmetric(ts.tail)
  }

  /** Non-empty groups and chains, every chain beginning and ending with a symmetric element:
      the nestings for which the swapped `_head`/`_tail` calls cannot be noticed. */
  predicate Nestable(t: Term) {
    match t
    case Job(_) => true
    case Chain(ts) => ts.Cons? && Symmetric(ts.head) && LastSymmetric(ts) && AllNestable(ts)
    case Group(ts) => ts.Cons? && AllNestable(ts)
  }

  predicate LastSymmetric(ts: Terms) {
    match ts
    case Nil => false
    case Cons(t, Nil) => Symmetric(t)
    case Cons(_, rest) => LastSymmetric(rest)
  }

  predicate AllNestable(ts: Terms) {
    ts.Cons? ==> Nestable(ts.head) && AllNestable(ts.tail)
  }

  lemma {:induction false} SymmetricEnds(t: Term)
    requires Symmetric(t)
    ensures Jobs(t) != {} && Heads(t) == Tails(t)
    ensures EndsAtTails(t) && EndsAtHeads(t) && StartsAtHeads(t) && StartsAtTails(t)
  {
    match t
    case Job(id) => assert id in Jobs(t);
    case Chain(ts) =>
      SymmetricEnds(ts.head);
      assert JobsOf(ts) == Jobs(ts.head) && JobsOf(ts.tail) == {};
    case Group(ts) =>
      SymmetricEnds(ts.head);
      AllSymmetricEnds(ts);
      assert AnyOf(Jobs(ts.head)) in JobsOf(ts);
  }

  lemma {:induction false} AllSymmetricEnds(ts: Terms)
    requires AllSymmetric(ts)
    ensures HeadsOf(ts) == TailsOf(ts)
    ensures AllEndAtTails(ts) && AllEndAtHeads(ts) && AllStartAtHeads(ts) && AllStartAtTails(ts)
  {
    if ts.Cons? {
      SymmetricEnds(ts.head);
      AllSymmetricEnds(ts.tail);
    }
  }

  lemma {:induction false} LastSymmetricEnds(ts: Terms)
    requires LastSymmetric(ts)
    ensures LastEndsAtHeads(ts)
  {
    if ts.tail.Nil? { SymmetricEnds(ts.head); } else { LastSymmetricEnds(ts.tail); }
  }

  /** Nestable terms always mean what they say. */
  lemma {:induction false} NestableIsFaithful(t: Term)
    requires Nestable(t)
    ensures Faithful(t) && Jobs(t) != {} && EndsAtTails(t) && StartsAtHeads(t)
  {
    match t
    case Job(id) => assert id in Jobs(t);
    case Chain(ts) =>
      AllNestableAreFaithful(ts);
      SymmetricEnds(ts.head);
      LastSymmetricEnds(ts);
      assert AnyOf(Jobs(ts.head)) in JobsOf(ts);
    case Group(ts) =>
      AllNestableAreFaithful(ts);
      NestableIsFaithful(ts.head);
      assert AnyOf(Jobs(ts.head)) in JobsOf(ts);
  }

  lemma {:induction false} AllNestableAreFaithful(ts: Terms)
    requires AllNestable(ts)
    ensures AllFaithful(ts) && FaithfulChain(ts) && AllEndAtTails(ts) && AllStartAtHeads(ts)
  {
    if ts.Cons? {
      NestableIsFaithful(ts.head);
      AllNestableAreFaithful(ts.tail);
      if ts.tail.Cons? { NestableIsFaithful(ts.tail.head); }
    }
  }

  // ---------------------------------------------------------------- counterexamples

  function Pair(t: Term, u: Term): Term {
    Chain(Cons(t, Cons(u, Nil)))
  }

  lemma PairFacts(t: Term, u: Term)
    ensures Jobs(Pair(t, u)) == Jobs(t) + Jobs(u)
    ensures Heads(Pair(t, u)) == Tails(t) && Tails(Pair(t, u)) == Heads(u)
    ensures Links(Pair(t, u)) == Links(t) + Links(u) + Cross(Tails(t), Heads(u))
    ensures Cross(Jobs(t), Jobs(u)) <= Before(Pair(t, u))
    ensures Distinct(Pair(t, u)) <==> Distinct(t) && Distinct(u) && Jobs(t) !! Jobs(u)
  {
    var rest := Cons(u, Nil);
    assert JobsOf(rest) == Jobs(u) && FirstHeads(rest) == Heads(u) && LastHeads(rest) == Heads(u);
    assert LinksInChain(rest) == Links(u);
    assert AllDistinct(rest) <==> Distinct(u);
    assert LinksInChain(Cons(t, rest)) == Links(t) + LinksInChain(rest) + Cross(Tails(t), FirstHeads(rest));
    assert LastHeads(Cons(t, rest)) == Heads(u);
    assert BeforeInChain(Cons(t, rest)) == Before(t) + BeforeInChain(rest) + Cross(Jobs(t), JobsOf(rest));
  }

  /** `chain(x, chain(chain(a, b), c))`: the link after x goes to b, so a does not wait for x. */
  lemma NestedChainLosesOrder(x: JobId, a: JobId, b: JobId, c: JobId)
    requires x != a && x != b && x != c && a != b && a != c && b != c
    ensures var t := Pair(Job(x), Pair(Pair(Job(a), Job(b)), Job(c)));
            Distinct(t) && (x, a) in Before(t) && !Reach(Links(t), x, a) && !Faithful(t)
  {
    var ab := Pair(Job(a), Job(b));
    var abc := Pair(ab, Job(c));
    var t := Pair(Job(x), abc);
    PairFacts(Job(a), Job(b));
    PairFacts(ab, Job(c));
    PairFacts(Job(x), abc);
    assert (x, a) in Cross(Jobs(Job(x)), Jobs(abc));
    RootIsNotReached(Links(t), x, a);
    FlatteningPreservesMeaning(t);
  }

  /** `chain(a, group(), b)`: the empty group has no job to link, so b does not wait for a. */
  lemma EmptyGroupLosesOrder(a: JobId, b: JobId)
    requires a != b
    ensures var t := Pair(Job(a), Pair(Group(Nil), Job(b)));
            Distinct(t) && (a, b) in Before(t) && !Reach(Links(t), a, b) && !Faithful(t)
  {
    var gb := Pair(Group(Nil), Job(b));
    var t := Pair(Job(a), gb);
    PairFacts(Group(Nil), Job(b));
    PairFacts(Job(a), gb);
    assert (a, b) in Cross(Jobs(Job(a)), Jobs(gb));
    assert Links(t) == {};
    RootIsNotReached(Links(t), a, b);
    FlatteningPreservesMeaning(t);
  }
}
