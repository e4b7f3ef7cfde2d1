/** What `t.on_done(u, v, ...)` means when t, u, v are any chains, groups or jobs, themselves with
    `on_done` calls, and exactly when the flattened graph agrees (queue_job/delay.py). */
module OnDoneMeaning {
  import opened Digraphs
  import opened Terms
  import opened TermMeaning

  /** `term.on_done(children...)`. */
  datatype Plan = Plan(term: Term, children: Plans)

  datatype Plans = NoPlan | AndPlan(first: Plan, rest: Plans)

  function PlanJobs(p: Plan): set<JobId> {
    Jobs(p.term) + AllPlanJobs(p.children)
  }

  function AllPlanJobs(ps: Plans): set<JobId> {
    match ps
    case NoPlan => {}
    case AndPlan(p, rest) => PlanJobs(p) + AllPlanJobs(rest)
  }

  predicate PlanDistinct(p: Plan) {
    Distinct(p.term) && AllPlansDistinct(p.children) && Jobs(p.term) !! AllPlanJobs(p.children)
  }

  predicate AllPlansDistinct(ps: Plans) {
    ps.AndPlan? ==> PlanDistinct(ps.first) && AllPlansDistinct(ps.rest) && PlanJobs(ps.first) !! AllPlanJobs(ps.rest)
  }

  /** The children, and what follows them, come after all of the term. */
  ghost function PlanBefore(p: Plan): Edges<JobId> {
    Before(p.term) + AllPlanBefore(p.children) + Cross(Jobs(p.term), AllPlanJobs(p.children))
  }

  ghost function AllPlanBefore(ps: Plans): Edges<JobId> {
    match ps
    case NoPlan => {}
    case AndPlan(p, rest) => PlanBefore(p) + AllPlanBefore(rest)
  }

  // ---------------------------------------------------------------- links made by the flattening

  /** Where the links of `on_done` start: the tails of the last element of a chain, of the members of a group. */
  ghost function OnDoneTails(t: Term): set<JobId> {
    match t
    case Job(id) => {id}
    case Chain(ts) => LastTails(ts)
    case Group(ts) => TailsOf(ts)
  }

  ghost function LastTails(ts: Terms): set<JobId> {
    match ts
    case Nil => {}
    case Cons(t, Nil) => Tails(t)
    case Cons(_, rest) => LastTails(rest)
  }

  /** An empty group has no member that could be linked to the children: they are forgotten. */
  predicate Forgets(t: Term) {
    t == Group(Nil)
  }

  /** The jobs of the flattened graph. */
  function KeptJobs(p: Plan): set<JobId> {
    Jobs(p.term) + if Forgets(p.term) then {} else AllKeptJobs(p.children)
  }

  function AllKeptJobs(ps: Plans): set<JobId> {
    match ps
    case NoPlan => {}
    case AndPlan(p, rest) => KeptJobs(p) + AllKeptJobs(rest)
  }

  ghost function RootHeads(ps: Plans): set<JobId> {
    match ps
    case NoPlan => {}
    case AndPlan(p, rest) => Heads(p.term) + RootHeads(rest)
  }

  ghost function PlanLinks(p: Plan): Edges<JobId> {
    Links(p.term) +
    if Forgets(p.term) then {} else AllPlanLinks(p.children) + Cross(OnDoneTails(p.term), RootHeads(p.children))
  }

  ghost function AllPlanLinks(ps: Plans): Edges<JobId> {
    match ps
    case NoPlan => {}
    case AndPlan(p, rest) => PlanLinks(p) + AllPlanLinks(rest)
  }

  // ---------------------------------------------------------------- the exact condition

  /** Every job of the term leads to (or is) one from which the links of `on_done` start. */
  predicate EndsForOnDone(t: Term) {
    match t
    case Job(_) => true
    case Chain(ts) => JobsOf(ts) == {} || LastEndsAtTails(ts)
    case Group(ts) => AllEndAtTails(ts)
  }

  predicate LastEndsAtTails(ts: Terms) {
    match ts
    case Nil => false
    case Cons(t, Nil) => Jobs(t) != {} && EndsAtTails(t)
    case Cons(_, rest) => LastEndsAtTails(rest)
  }

  predicate StartsAtRoot(p: Plan) {
    StartsAtHeads(p.term) && (AllPlanJobs(p.children) == {} || Jobs(p.term) != {})
  }

  predicate AllStartAtRoots(ps: Plans) {
    ps.AndPlan? ==> StartsAtRoot(ps.first) && AllStartAtRoots(ps.rest)
  }

  /** What a caller can check of the calls before delaying: every term means what it says, no empty
      group has children with jobs, and where there are jobs before and after, the term ends where its
      `on_done` links start and the children start at their heads. */
  predicate PlanFaithful(p: Plan) {
    && Faithful(p.term) && AllPlansFaithful(p.children)
    && (Forgets(p.term) ==> AllPlanJobs(p.children) == {})
    && (Jobs(p.term) == {} || AllPlanJobs(p.children) == {} || (EndsForOnDone(p.term) && AllStartAtRoots(p.children)))
  }

  predicate AllPlansFaithful(ps: Plans) {
    ps.AndPlan? ==> PlanFaithful(ps.first) && AllPlansFaithful(ps.rest)
  }

  // ---------------------------------------------------------------- everything stays inside the plan

  lemma InsideLast(ts: Terms)
    ensures LastTails(ts) <= JobsOf(ts)
  {
    if ts.Cons? {
      InsideTerm(ts.head);
      InsideLast(ts.tail);
    }
  }

  lemma InsideOnDone(t: Term)
    ensures OnDoneTails(t) <= Jobs(t)
  {
    match t
    case Job(_) =>
    case Chain(ts) => InsideLast(ts);
    case Group(ts) => InsideTerms(ts);
  }

  lemma {:induction false} InsidePlan(p: Plan)
    ensures KeptJobs(p) <= PlanJobs(p)
    ensures Within(PlanLinks(p), KeptJobs(p)) && Within(PlanBefore(p), PlanJobs(p))
  {
    InsideTerm(p.term);
    InsideOnDone(p.term);
    InsidePlans(p.children);
  }

  lemma {:induction false} InsidePlans(ps: Plans)
    ensures AllKeptJobs(ps) <= AllPlanJobs(ps) && RootHeads(ps) <= AllKeptJobs(ps)
    ensures Within(AllPlanLinks(ps), AllKeptJobs(ps)) && Within(AllPlanBefore(ps), AllPlanJobs(ps))
  {
    if ps.AndPlan? {
      InsidePlan(ps.first);
      InsideTerm(ps.first.term);
      InsidePlans(ps.rest);
    }
  }

  // ---------------------------------------------------------------- soundness

  lemma {:induction false} PlanIsOrder(p: Plan)
    requires PlanDistinct(p)
    ensures Transitive(PlanBefore(p)) && (forall a :: (a, a) !in PlanBefore(p)) && PlanLinks(p) <= PlanBefore(p)
  {
    MeaningIsOrder(p.term);
    InsideTerm(p.term);
    InsideOnDone(p.term);
    PlansAreOrders(p.children);
    InsidePlans(p.children);
  }

  lemma {:induction false} PlansAreOrders(ps: Plans)
    requires AllPlansDistinct(ps)
    ensures Transitive(AllPlanBefore(ps)) && (forall a :: (a, a) !in AllPlanBefore(ps))
            && AllPlanLinks(ps) <= AllPlanBefore(ps)
  {
    if ps.AndPlan? {
      PlanIsOrder(ps.first);
      InsidePlan(ps.first);
      PlansAreOrders(ps.rest);
      InsidePlans(ps.rest);
    }
  }

  // ---------------------------------------------------------------- completeness

  /** No job is forgotten and all of the meaning is carried. */
  ghost predicate PlanComplete(p: Plan) {
    KeptJobs(p) == PlanJobs(p) && Complete(PlanLinks(p), PlanBefore(p))
  }

  ghost predicate AllPlansComplete(ps: Plans) {
    AllKeptJobs(ps) == AllPlanJobs(ps) && Complete(AllPlanLinks(ps), AllPlanBefore(ps))
  }

  ghost function PlanJoint(p: Plan): Joint {
    Joint(Jobs(p.term), Links(p.term), OnDoneTails(p.term),
          AllPlanJobs(p.children), AllPlanLinks(p.children), RootHeads(p.children))
  }

  ghost function PlansJoint(ps: Plans): Joint
    requires ps.AndPlan?
  {
    Joint(PlanJobs(ps.first), PlanLinks(ps.first), {}, AllPlanJobs(ps.rest), AllPlanLinks(ps.rest), {})
  }

  lemma JointOfPlan(p: Plan)
    requires PlanDistinct(p) && !Forgets(p.term)
    ensures PlanJoint(p).Valid() && PlanJoint(p).All() == PlanLinks(p)
    ensures Within(Before(p.term), Jobs(p.term)) && Within(AllPlanBefore(p.children), AllPlanJobs(p.children))
  {
    InsideTerm(p.term);
    InsideOnDone(p.term);
    InsidePlans(p.children);
  }

  lemma JointOfPlans(ps: Plans)
    requires ps.AndPlan? && AllPlansDistinct(ps)
    ensures PlansJoint(ps).Valid() && PlansJoint(ps).All() == AllPlanLinks(ps)
    ensures Within(PlanBefore(ps.first), PlanJobs(ps.first)) && Within(AllPlanBefore(ps.rest), AllPlanJobs(ps.rest))
  {
    InsidePlan(ps.first);
    InsidePlans(ps.rest);
  }

  /** The last element of a chain, as `on_done` uses it. */
  lemma {:induction false} ChainEndsForOnDone(ts: Terms)
    requires AllDistinct(ts) && Complete(LinksInChain(ts), BeforeInChain(ts))
    ensures (JobsOf(ts) == {} || LastEndsAtTails(ts)) <==> AllReach(LinksInChain(ts), JobsOf(ts), LastTails(ts))
  {
    hide AllReach, AllReached, Complete, Joint.Valid;
    NoEnds(LinksInChain(ts), JobsOf(ts));
    LastTailsHaveJobs(ts);
    if ts.Cons? {
      NoEnds(LinksInChain(ts.tail), JobsOf(ts.tail));
      LastTailsHaveJobs(ts.tail);
      Joints(ts);
      var j := SequenceJoint(ts);
      j.InSequence(Before(ts.head), BeforeInChain(ts.tail));
      InsideTerm(ts.head);
      InsideLast(ts.tail);
      if ts.tail.Nil? {
        ConditionsMean(ts.head);
        assert LinksInChain(ts) == Links(ts.head) && JobsOf(ts) == Jobs(ts.head);
      } else {
        ChainEndsForOnDone(ts.tail);
        j.Targets({}, LastTails(ts.tail));
      }
    }
  }

  lemma LastTailsHaveJobs(ts: Terms)
    ensures LastEndsAtTails(ts) ==> JobsOf(ts) != {}
  {
  }

  lemma EndsForOnDoneMeans(t: Term)
    requires Distinct(t) && Complete(Links(t), Before(t))
    ensures EndsForOnDone(t) <==> AllReach(Links(t), Jobs(t), OnDoneTails(t))
  {
    match t
    case Job(_) => ConditionsMean(t);
    case Chain(ts) => ChainEndsForOnDone(ts);
    case Group(ts) => GroupConditions(ts);
  }

  lemma {:induction false} RootsMean(ps: Plans)
    requires AllPlansDistinct(ps) && AllPlansComplete(ps) && AllPlansFaithful(ps)
    ensures AllStartAtRoots(ps) <==> AllReached(AllPlanLinks(ps), RootHeads(ps), AllPlanJobs(ps))
  {
    hide AllReached, AllReach, Joint.Valid, Complete;
    NoEnds(AllPlanLinks(ps), AllPlanJobs(ps));
    if ps.AndPlan? {
      JointOfPlans(ps);
      var j := PlansJoint(ps);
      j.SideBySide(PlanBefore(ps.first), AllPlanBefore(ps.rest));
      PlansKept(ps);
      RootMeans(ps.first);
      RootsMean(ps.rest);
      InsidePlan(ps.first);
      InsideTerm(ps.first.term);
      InsidePlans(ps.rest);
      j.Sources(Heads(ps.first.term), RootHeads(ps.rest));
    }
  }

  lemma PlansKept(ps: Plans)
    requires ps.AndPlan? && AllPlansDistinct(ps)
    ensures AllKeptJobs(ps) == AllPlanJobs(ps) <==>
            KeptJobs(ps.first) == PlanJobs(ps.first) && AllKeptJobs(ps.rest) == AllPlanJobs(ps.rest)
  {
    InsidePlan(ps.first);
    InsidePlans(ps.rest);
  }

  lemma RootMeans(p: Plan)
    requires PlanDistinct(p) && PlanComplete(p) && PlanFaithful(p)
    ensures StartsAtRoot(p) <==> AllReached(PlanLinks(p), Heads(p.term), PlanJobs(p))
  {
    hide AllReached, AllReach, Joint.Valid, Complete;
    CompleteIffFaithful(p.term);
    ConditionsMean(p.term);
    InsideTerm(p.term);
    InsidePlans(p.children);
    NoEnds(Links(p.term), Jobs(p.term));
    if Forgets(p.term) {
      assert PlanLinks(p) == Links(p.term) && PlanJobs(p) == Jobs(p.term);
    } else {
      JointOfPlan(p);
      var j := PlanJoint(p);
      j.InSequence(Before(p.term), AllPlanBefore(p.children));
      j.Sources(Heads(p.term), {});
    }
  }

  lemma {:induction false} CompleteIffPlanFaithful(p: Plan)
    requires PlanDistinct(p)
    ensures PlanComplete(p) <==> PlanFaithful(p)
  {
    hide AllReached, AllReach, Joint.Valid, Complete;
    CompleteIffFaithful(p.term);
    AllCompleteIffFaithful(p.children);
    InsidePlans(p.children);
    if Forgets(p.term) {
      ForgottenPlan(p);
    } else {
      JointOfPlan(p);
      PlanJoint(p).InSequence(Before(p.term), AllPlanBefore(p.children));
      assert KeptJobs(p) == PlanJobs(p) <==> AllKeptJobs(p.children) == AllPlanJobs(p.children);
      if Faithful(p.term) && AllPlansFaithful(p.children) {
        EndsForOnDoneMeans(p.term);
        RootsMean(p.children);
      }
    }
  }

  lemma ForgottenPlan(p: Plan)
    requires PlanDistinct(p) && Forgets(p.term)
    requires AllPlansComplete(p.children) <==> AllPlansFaithful(p.children)
    ensures PlanComplete(p) <==> PlanFaithful(p)
  {
    InsidePlans(p.children);
    if AllPlanJobs(p.children) == {} {
      assert AllPlanBefore(p.children) == {} && AllPlanLinks(p.children) == {};
      assert PlanBefore(p) == {};
    }
  }

  lemma {:induction false} AllCompleteIffFaithful(ps: Plans)
    requires AllPlansDistinct(ps)
    ensures AllPlansComplete(ps) <==> AllPlansFaithful(ps)
  {
    if ps.AndPlan? {
      JointOfPlans(ps);
      PlansJoint(ps).SideBySide(PlanBefore(ps.first), AllPlanBefore(ps.rest));
      PlansKept(ps);
      CompleteIffPlanFaithful(ps.first);
      AllCompleteIffFaithful(ps.rest);
    }
  }

  /** `on_done` on arbitrary terms. Over distinct jobs the flattened graph is acyclic and never says more
      than the calls; it has all their jobs and all their order if and only if the plan is faithful. */
  lemma OnDonePreservesMeaning(p: Plan)
    requires PlanDistinct(p)
    ensures Acyclic(PlanLinks(p))
    ensures forall x, y :: Reach(PlanLinks(p), x, y) ==> (x, y) in PlanBefore(p)
    ensures (KeptJobs(p) == PlanJobs(p) && forall x, y :: Reach(PlanLinks(p), x, y) <==> (x, y) in PlanBefore(p))
            <==> PlanFaithful(p)
  {
    PlanIsOrder(p);
    forall x, y | Reach(PlanLinks(p), x, y) ensures (x, y) in PlanBefore(p) {
      ReachWithinTransitive(PlanLinks(p), PlanBefore(p), x, y);
    }
    CompleteIffPlanFaithful(p);
    if forall x, y :: Reach(PlanLinks(p), x, y) <==> (x, y) in PlanBefore(p) {
      forall edge | edge in PlanBefore(p) ensures Reach(PlanLinks(p), edge.0, edge.1) {
        var (x, y) := edge;
      }
    }
  }

  // ---------------------------------------------------------------- when the calls are harmless

  predicate PlanNestable(p: Plan) {
    Nestable(p.term) && AllPlansNestable(p.children)
  }

  predicate AllPlansNestable(ps: Plans) {
    ps.AndPlan? ==> PlanNestable(ps.first) && AllPlansNestable(ps.rest)
  }

  /** `on_done` between nestable chains, groups and jobs always means what it says. */
  lemma {:induction false} NestablePlanIsFaithful(p: Plan)
    requires PlanNestable(p)
    ensures PlanFaithful(p) && StartsAtRoot(p)
  {
    NestableIsFaithful(p.term);
    NestableEndsForOnDone(p.term);
    NestablePlansAreFaithful(p.children);
  }

  lemma {:induction false} NestablePlansAreFaithful(ps: Plans)
    requires AllPlansNestable(ps)
    ensures AllPlansFaithful(ps) && AllStartAtRoots(ps)
  {
    if ps.AndPlan? {
      NestablePlanIsFaithful(ps.first);
      NestablePlansAreFaithful(ps.rest);
    }
  }

  lemma NestableEndsForOnDone(t: Term)
    requires Nestable(t)
    ensures EndsForOnDone(t)
  {
    match t
    case Job(_) =>
    case Chain(ts) => NestableLastEnds(ts);
    case Group(ts) => NestableIsFaithful(t);
  }

  lemma {:induction false} NestableLastEnds(ts: Terms)
    requires ts.Cons? && AllNestable(ts)
    ensures LastEndsAtTails(ts)
  {
    NestableIsFaithful(ts.head);
    if ts.tail.Cons? { NestableLastEnds(ts.tail); }
  }

  /** `a.on_done(b.on_done(c...))`. */
  function Nested(ids: seq<JobId>): Plan
    requires ids != []
  {
    Plan(Job(ids[0]), if |ids| == 1 then NoPlan else AndPlan(Nested(ids[1..]), NoPlan))
  }

  /** It has the links and the jobs of `chain(a, b, c...)`, as the README of queue_job says. */
  lemma {:induction false} NestedOnDoneIsChain(ids: seq<JobId>)
    requires ids != []
    ensures PlanLinks(Nested(ids)) == Links(Chain(JobTerms(ids))) && KeptJobs(Nested(ids)) == Jobs(Chain(JobTerms(ids)))
  {
    if |ids| > 1 {
      NestedOnDoneIsChain(ids[1..]);
      var p := Nested(ids);
      assert AllPlanLinks(p.children) == PlanLinks(Nested(ids[1..])) && RootHeads(p.children) == {ids[1]};
      assert AllKeptJobs(p.children) == KeptJobs(Nested(ids[1..]));
      assert FirstHeads(JobTerms(ids[1..])) == {ids[1]};
    } else {
      assert JobTerms(ids[1..]) == Nil;
      assert LinksInChain(Nil) == {} && FirstHeads(Nil) == {} && JobsOf(Nil) == {};
      assert LinksInChain(JobTerms(ids)) == {} && JobsOf(JobTerms(ids)) == {ids[0]};
      assert AllPlanLinks(NoPlan) == {} && RootHeads(NoPlan) == {} && AllKeptJobs(NoPlan) == {};
      assert PlanLinks(Nested(ids)) == {};
    }
  }

  /** `on_done` is right where a chain is not: chain(a, chain(b, c)).on_done(d) orders c before d, and
      chain(chain(a, chain(b, c)), d) does not. */
  lemma OnDoneKeepsWhatChainLoses(a: JobId, b: JobId, c: JobId, d: JobId)
    requires a != b && a != c && b != c && d !in {a, b, c}
    ensures var t := Pair(Job(a), Pair(Job(b), Job(c)));
            && PlanFaithful(Plan(t, AndPlan(Plan(Job(d), NoPlan), NoPlan)))
            && !Faithful(Pair(t, Job(d))) && Distinct(Pair(t, Job(d)))
            && (c, d) in Before(Pair(t, Job(d))) && !Reach(Links(Pair(t, Job(d))), c, d)
  {
    var bc := Pair(Job(b), Job(c));
    var t := Pair(Job(a), bc);
    var all := Pair(t, Job(d));
    PairFacts(Job(b), Job(c));
    PairFacts(Job(a), bc);
    PairFacts(t, Job(d));
    PairConditions(Job(b), Job(c));
    PairConditions(Job(a), bc);
    OneChild(t, d);
    assert (c, d) in Cross(Jobs(t), Jobs(Job(d)));
    LeafReachesNothing(Links(all), c, d);
    FlatteningPreservesMeaning(all);
  }

  lemma PairConditions(t: Term, u: Term)
    requires Jobs(u) != {}
    ensures Faithful(Pair(t, u)) <==>
            Faithful(t) && Faithful(u) && (Jobs(t) == {} || (EndsAtTails(t) && StartsAtHeads(u)))
    ensures EndsForOnDone(Pair(t, u)) <==> EndsAtTails(u)
    ensures EndsAtTails(Pair(t, u)) <==> EndsAtHeads(u)
    ensures StartsAtHeads(Pair(t, u)) <==> Jobs(t) != {} && StartsAtTails(t)
  {
    var rest := Cons(u, Nil);
    assert JobsOf(rest) == Jobs(u) && JobsOf(Cons(t, rest)) == Jobs(t) + Jobs(u);
    assert FaithfulChain(rest) <==> Faithful(u);
    var linked := Jobs(t) == {} || JobsOf(rest) == {} || (EndsAtTails(t) && Jobs(u) != {} && StartsAtHeads(u));
    assert FaithfulChain(Cons(t, rest)) <==> Faithful(t) && FaithfulChain(rest) && linked;
    assert LastEndsAtTails(rest) <==> EndsAtTails(u);
    assert LastEndsAtHeads(rest) <==> EndsAtHeads(u);
  }

  lemma OneChild(t: Term, d: JobId)
    requires Faithful(t) && EndsForOnDone(t) && !Forgets(t)
    ensures PlanFaithful(Plan(t, AndPlan(Plan(Job(d), NoPlan), NoPlan)))
  {
    var leaf := Plan(Job(d), NoPlan);
    assert AllPlanJobs(NoPlan) == {};
    assert PlanFaithful(leaf) && StartsAtRoot(leaf);
    assert AllPlansFaithful(AndPlan(leaf, NoPlan)) && AllStartAtRoots(AndPlan(leaf, NoPlan));
  }

  lemma LeafReachesNothing(e: Edges<JobId>, x: JobId, y: JobId)
    requires forall edge | edge in e :: edge.0 != x
    ensures !Reach(e, x, y)
  {
    if Reach(e, x, y) { var z := FirstEdge(e, x, y); }
  }
}
