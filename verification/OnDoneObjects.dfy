/** The objects that `t.on_done(u, v, ...)` leaves for arbitrary terms, and the flat graph that
    `_connect_graphs` makes of them (queue_job/delay.py). */
module OnDoneObjects {
  import opened Digraphs
  import opened DelayGraph
  import opened Terms
  import opened TermMeaning
  import opened OnDoneMeaning
  import opened Flatten
  import opened Compilation

  /** A plan together with the objects built for its terms. */
  datatype BuiltPlan = BuiltPlan(root: Built, children: BuiltPlans)

  datatype BuiltPlans = NoneBuilt | AndBuilt(first: BuiltPlan, rest: BuiltPlans)

  ghost function PlanOf(b: BuiltPlan): Plan {
    Plan(TermOf(b.root), PlansOf(b.children))
  }

  ghost function PlansOf(bs: BuiltPlans): Plans {
    match bs
    case NoneBuilt => NoPlan
    case AndBuilt(b, rest) => AndPlan(PlanOf(b), PlansOf(rest))
  }

  /** The objects passed to `on_done`. */
  ghost function Roots(bs: BuiltPlans): seq<Vertex> {
    match bs
    case NoneBuilt => []
    case AndBuilt(b, rest) => [b.root.v] + Roots(rest)
  }

  /** All graphs of the objects, met or not. */
  ghost function AllGraphs(b: BuiltPlan): set<Graph<Vertex>> {
    GraphsIn(b.root) + GraphsOfAll(b.children)
  }

  ghost function GraphsOfAll(bs: BuiltPlans): set<Graph<Vertex>> {
    match bs
    case NoneBuilt => {}
    case AndBuilt(b, rest) => AllGraphs(b) + GraphsOfAll(rest)
  }

  /** The graph of the object as its constructor leaves it: vertices and edges. */
  ghost function OwnVertices(b: Built): set<Vertex> {
    match b
    case BuiltJob(v, _) => {v}
    case BuiltChain(_, bs) => Elements(Vertices(bs))
    case BuiltGroup(_, bs) => Elements(Vertices(bs))
  }

  ghost function OwnEdges(b: Built): Edges<Vertex> {
    match b
    case BuiltJob(_, _) => {}
    case BuiltChain(_, bs) => Consecutive(Vertices(bs))
    case BuiltGroup(_, bs) => {}
  }

  /** The object of the node refers to those of its elements, which are as constructed. */
  ghost predicate Rooted(store: Store, b: Built) {
    match b
    case BuiltJob(v, id) => v == Delayable(v.graph, id)
    case BuiltChain(v, bs) =>
      var vs := Vertices(bs);
      vs != [] && v == DelayableChain(v.graph, vs[0], vs[|vs| - 1]) && AllLaid(store, bs)
    case BuiltGroup(v, bs) =>
      v == DelayableGroup(v.graph, Elements(Vertices(bs))) && AllLaid(store, bs)
  }

  /** The object after `on_done(children)`: its graph has the children and the links to them as well. */
  ghost predicate LaidWith(store: Store, b: Built, children: seq<Vertex>) {
    && b.v.graph in store && Rooted(store, b)
    && store[b.v.graph].Keys == OwnVertices(b) + (if Ends(b.v) == {} then {} else Elements(children))
    && EdgesOf(store[b.v.graph]) == OwnEdges(b) + Cross(Ends(b.v), Elements(children))
  }

  ghost predicate LaidPlan(store: Store, b: BuiltPlan) {
    LaidWith(store, b.root, Roots(b.children)) && AllLaidPlans(store, b.children)
  }

  ghost predicate AllLaidPlans(store: Store, bs: BuiltPlans) {
    bs.AndBuilt? ==> LaidPlan(store, bs.first) && AllLaidPlans(store, bs.rest)
  }

  // ---------------------------------------------------------------- building

  predicate PlanBuildable(p: Plan) {
    Buildable(p.term) && AllPlansBuildable(p.children)
  }

  predicate AllPlansBuildable(ps: Plans) {
    ps.AndPlan? ==> PlanBuildable(ps.first) && AllPlansBuildable(ps.rest)
  }

  lemma EdgesOfOne(v: Vertex)
    ensures EdgesOf(map[v := {}]) == {}
  {
  }

  lemma RootedInLarger(store: Store, larger: Store, b: Built)
    requires Rooted(store, b)
    requires forall g :: g in SubGraphs(b) && g in store ==> g in larger && larger[g] == store[g]
    ensures Rooted(larger, b)
  {
    match b
    case BuiltJob(_, _) =>
    case BuiltChain(_, bs) => AllLaidInLarger(store, larger, bs);
    case BuiltGroup(_, bs) => AllLaidInLarger(store, larger, bs);
  }

  lemma LaidIsRooted(store: Store, b: Built)
    requires Laid(store, b)
    ensures b.v.graph in store && Rooted(store, b)
    ensures store[b.v.graph].Keys == OwnVertices(b) && EdgesOf(store[b.v.graph]) == OwnEdges(b)
  {
    if b.BuiltJob? { EdgesOfOne(b.v); }
  }

  lemma EndsAreOwn(b: Built, store: Store)
    requires Rooted(store, b)
    ensures Ends(b.v) <= OwnVertices(b)
  {
  }

  lemma {:induction false} PlanInLarger(store: Store, larger: Store, b: BuiltPlan)
    requires LaidPlan(store, b)
    requires forall g :: g in AllGraphs(b) && g in store ==> g in larger && larger[g] == store[g]
    ensures LaidPlan(larger, b)
  {
    assert b.root.v.graph in GraphsIn(b.root);
    RootedInLarger(store, larger, b.root);
    PlansInLarger(store, larger, b.children);
  }

  lemma {:induction false} PlansInLarger(store: Store, larger: Store, bs: BuiltPlans)
    requires AllLaidPlans(store, bs)
    requires forall g :: g in GraphsOfAll(bs) && g in store ==> g in larger && larger[g] == store[g]
    ensures AllLaidPlans(larger, bs)
  {
    if bs.AndBuilt? {
      PlanInLarger(store, larger, bs.first);
      PlansInLarger(store, larger, bs.rest);
    }
  }

  /** Evaluates the constructor calls of the terms and the `on_done` calls of a plan. */
  method BuildPlan(p: Plan) returns (v: Vertex, ghost b: BuiltPlan)
    requires PlanBuildable(p)
    ensures b.root.v == v && PlanOf(b) == p
    ensures fresh(AllGraphs(b)) && LaidPlan(Contents(AllGraphs(b)), b)
    decreases p
  {
    hide Laid, LaidPlan, AllLaidPlans, Cross, EdgesOf, Ends, SubGraphs, GraphsIn, GraphsOfAll, Jobs, Buildable;
    ghost var root;
    v, root := Compile(p.term);
    ghost var before := Contents(GraphsIn(root));
    ghost var children;
    var vs;
    vs, children := BuildPlans(p.children);
    ghost var store := Contents(GraphsOfAll(children));
    b := BuiltPlan(root, children);
    OnDone(v, vs);
    GraphsOfRoot(root);
    assert vs != [] ==> vs[0] in Elements(vs);
    PlanIsLaid(before, store, Contents(AllGraphs(b)), b);
  }

  lemma GraphsOfRoot(b: Built)
    ensures GraphsIn(b) == {b.v.graph} + SubGraphs(b)
  {
  }

  /** From the objects of a term and of the children, and what `on_done` adds to the graph of the first. */
  lemma PlanIsLaid(before: Store, store: Store, after: Store, b: BuiltPlan)
    requires Laid(before, b.root) && AllLaidPlans(store, b.children)
    requires forall g :: g in SubGraphs(b.root) && g in before ==> g in after && after[g] == before[g]
    requires forall g :: g in GraphsOfAll(b.children) && g in store ==> g in after && after[g] == store[g]
    requires var g, ends, vs := b.root.v.graph, Ends(b.root.v), Elements(Roots(b.children));
      && g in after && g in before
      && after[g].Keys == before[g].Keys + (if vs == {} || ends == {} then {} else ends + vs)
      && EdgesOf(after[g]) == EdgesOf(before[g]) + Cross(ends, vs)
    ensures LaidPlan(after, b)
  {
    LaidIsRooted(before, b.root);
    RootedInLarger(before, after, b.root);
    EndsAreOwn(b.root, after);
    PlansInLarger(store, after, b.children);
  }

  method BuildPlans(ps: Plans) returns (vs: seq<Vertex>, ghost bs: BuiltPlans)
    requires AllPlansBuildable(ps)
    ensures vs == Roots(bs) && PlansOf(bs) == ps
    ensures fresh(GraphsOfAll(bs)) && AllLaidPlans(Contents(GraphsOfAll(bs)), bs)
    decreases ps
  {
    match ps
    case NoPlan =>
      vs, bs := [], NoneBuilt;
    case AndPlan(p, rest) =>
      ghost var b, more;
      var v;
      v, b := BuildPlan(p);
      ghost var store := Contents(AllGraphs(b));
      vs, more := BuildPlans(rest);
      vs := [v] + vs;
      bs := AndBuilt(b, more);
      PlanInLarger(store, Contents(GraphsOfAll(bs)), b);
      PlansInLarger(Contents(GraphsOfAll(more)), Contents(GraphsOfAll(bs)), more);
  }

  // ---------------------------------------------------------------- heads and tails

  lemma {:induction false} LastTailsMatch(store: Store, bs: Builts)
    requires AllLaid(store, bs) && bs.More?
    ensures TailJobs(Vertices(bs)[|Vertices(bs)| - 1]) == LastTails(TermsOf(bs))
  {
    EndsMatch(store, bs.first);
    if bs.rest.More? { LastTailsMatch(store, bs.rest); }
  }

  lemma RootEndsMatch(store: Store, b: Built)
    requires Rooted(store, b)
    ensures HeadJobs(b.v) == Heads(TermOf(b)) && TailJobs(b.v) == Tails(TermOf(b))
    ensures JobsFrom(Ends(b.v)) == OnDoneTails(TermOf(b))
    ensures Ends(b.v) == {} <==> Forgets(TermOf(b))
  {
    match b
    case BuiltJob(v, _) => JobsFromOne(v);
    case BuiltChain(v, bs) =>
      AllEndsMatch(store, bs);
      LastTailsMatch(store, bs);
      JobsFromOne(v.tail);
    case BuiltGroup(_, bs) =>
      AllEndsMatch(store, bs);
      if bs.More? { assert Vertices(bs)[0] in Elements(Vertices(bs)); }
  }

  lemma {:induction false} RootsMatch(store: Store, bs: BuiltPlans)
    requires AllLaidPlans(store, bs)
    ensures HeadJobsOf(Elements(Roots(bs))) == RootHeads(PlansOf(bs))
    ensures JobsFrom(Elements(Roots(bs))) <= AllKeptJobs(PlansOf(bs))
  {
    if bs.AndBuilt? {
      var v := bs.first.root.v;
      RootsMatch(store, bs.rest);
      RootEndsMatch(store, bs.first.root);
      InsideTerm(TermOf(bs.first.root));
      assert Elements(Roots(bs)) == {v} + Elements(Roots(bs.rest));
      HeadJobsOfPrepend(v, Elements(Roots(bs.rest)));
      JobsFromUnion({v}, Elements(Roots(bs.rest)));
      JobsFromOne(v);
    }
  }

  // ---------------------------------------------------------------- links and jobs

  lemma LinksFromUnion(e: Edges<Vertex>, f: Edges<Vertex>)
    ensures LinksFrom(e + f) == LinksFrom(e) + LinksFrom(f)
  {
  }

  /** All edges between two sets of vertices make all links from the tails of the ones to the heads of the others. */
  lemma LinksFromCross(xs: set<Vertex>, ys: set<Vertex>)
    ensures LinksFrom(Cross(xs, ys)) == Cross(JobsFrom(xs), HeadJobsOf(ys))
  {
    forall link | link in Cross(JobsFrom(xs), HeadJobsOf(ys)) ensures link in LinksFrom(Cross(xs, ys)) {
      var x :| x in xs && link.0 in TailJobs(x);
      var y :| y in ys && link.1 in HeadJobs(y);
      assert (x, y) in Cross(xs, ys) && link in Cross(TailJobs(x), HeadJobs(y));
    }
    forall link | link in LinksFrom(Cross(xs, ys)) ensures link in Cross(JobsFrom(xs), HeadJobsOf(ys)) {
      var edge :| edge in Cross(xs, ys) && link in Cross(TailJobs(edge.0), HeadJobs(edge.1));
      var (tail, head) := link;
      assert tail in TailJobs(edge.0) && head in HeadJobs(edge.1);
      assert tail in JobsFrom(xs) && head in HeadJobsOf(ys);
    }
  }

  /** Nothing comes from nothing. */
  lemma NoGraphs(store: Store)
    ensures AllLinks(store, {}) == {} && AllJobs(store, {}) == {} && LinksFrom({}) == {} && JobsFrom({}) == {}
  {
  }

  /** The graph of the object as constructed, and those inside it, contribute the term's links and jobs. */
  lemma RootContributions(store: Store, b: Built)
    requires Rooted(store, b)
    ensures LinksFrom(OwnEdges(b)) + AllLinks(store, SubGraphs(b)) == Links(TermOf(b))
    ensures JobsFrom(OwnVertices(b)) + AllJobs(store, SubGraphs(b)) == Jobs(TermOf(b))
  {
    NoGraphs(store);
    InsideTerm(TermOf(b));
    match b
    case BuiltJob(v, _) => JobsFromOne(v);
    case BuiltChain(v, bs) =>
      AllContributionsMatch(store, bs);
      AllEndsMatch(store, bs);
      OwnLinksMatch(store, bs);
      ChainLinksSplit(TermsOf(bs));
      InsideTerms(TermsOf(bs));
    case BuiltGroup(v, bs) =>
      AllContributionsMatch(store, bs);
      AllEndsMatch(store, bs);
      InsideTerms(TermsOf(bs));
  }

  /** The graphs that the walk meets: an object without ends never leads to its children. */
  ghost function Met(b: BuiltPlan): set<Graph<Vertex>> {
    GraphsIn(b.root) + if Ends(b.root.v) == {} then {} else MetOfAll(b.children)
  }

  ghost function MetOfAll(bs: BuiltPlans): set<Graph<Vertex>> {
    match bs
    case NoneBuilt => {}
    case AndBuilt(b, rest) => Met(b) + MetOfAll(rest)
  }

  lemma {:induction false} PlanContributions(store: Store, b: BuiltPlan)
    requires LaidPlan(store, b)
    ensures AllLinks(store, Met(b)) == PlanLinks(PlanOf(b))
    ensures AllJobs(store, Met(b)) == KeptJobs(PlanOf(b))
  {
    hide Links, Jobs, AllLinks, AllJobs, LinksFrom, JobsFrom, SubGraphs, OwnEdges, OwnVertices, Ends, GraphsIn, Cross;
    var root, g, roots := b.root, b.root.v.graph, Elements(Roots(b.children));
    GraphsOfRoot(root);
    RootContributions(store, root);
    RootEndsMatch(store, root);
    AllOfOne(store, g);
    AllOfUnion(store, {g}, SubGraphs(root));
    LinksFromUnion(OwnEdges(root), Cross(Ends(root.v), roots));
    LinksFromCross(Ends(root.v), roots);
    JobsFromUnion(OwnVertices(root), roots);
    RootsMatch(store, b.children);
    if Ends(root.v) == {} {
      NoGraphs(store);
      CrossOfNone(Ends(root.v), roots);
      assert Met(b) == GraphsIn(root);
      assert OwnVertices(root) + {} == OwnVertices(root);
    } else {
      PlansContributions(store, b.children);
      AllOfUnion(store, GraphsIn(root), MetOfAll(b.children));
    }
  }

  lemma {:induction false} PlansContributions(store: Store, bs: BuiltPlans)
    requires AllLaidPlans(store, bs)
    ensures AllLinks(store, MetOfAll(bs)) == AllPlanLinks(PlansOf(bs))
    ensures AllJobs(store, MetOfAll(bs)) == AllKeptJobs(PlansOf(bs))
  {
    if bs.AndBuilt? {
      PlanContributions(store, bs.first);
      PlansContributions(store, bs.rest);
      AllOfUnion(store, Met(bs.first), MetOfAll(bs.rest));
    } else {
      NoGraphs(store);
    }
  }

  // ---------------------------------------------------------------- the walk

  ghost function GraphsOfVertices(vs: set<Vertex>): set<Graph<Vertex>> {
    set v | v in vs :: v.graph
  }

  lemma SuccessorsOfRoot(store: Store, b: Built, children: seq<Vertex>)
    requires LaidWith(store, b, children)
    ensures VertexGraphs(store, {b.v.graph}) ==
            GraphsOfVertices(OwnVertices(b)) + if Ends(b.v) == {} then {} else GraphsOfVertices(Elements(children))
  {
    hide OwnVertices, Ends;
    var g := b.v.graph;
    forall x ensures x in VertexGraphs(store, {g}) <==> exists v :: v in store[g] && v.graph == x {
      assert g in {g};
    }
  }

  lemma OwnVerticesInside(b: Built)
    ensures GraphsOfVertices(OwnVertices(b)) <= GraphsIn(b)
  {
    match b
    case BuiltJob(_, _) =>
    case BuiltChain(_, bs) => OwnGraphsOfVertices(bs);
    case BuiltGroup(_, bs) => OwnGraphsOfVertices(bs);
  }

  lemma {:induction false} RootGraphs(bs: BuiltPlans)
    ensures GraphsOfVertices(Elements(Roots(bs))) <= MetOfAll(bs)
  {
    if bs.AndBuilt? {
      RootGraphs(bs.rest);
      GraphsOfRoot(bs.first.root);
    }
  }

  lemma SubGraphsClosed(store: Store, b: Built)
    requires Rooted(store, b)
    ensures VertexGraphs(store, SubGraphs(b)) <= SubGraphs(b) <= store.Keys
  {
    match b
    case BuiltJob(_, _) =>
    case BuiltChain(_, bs) => AllGraphsAreClosed(store, bs); AllGraphsStored(store, bs);
    case BuiltGroup(_, bs) => AllGraphsAreClosed(store, bs); AllGraphsStored(store, bs);
  }

  lemma {:induction false} MetIsClosed(store: Store, b: BuiltPlan)
    requires LaidPlan(store, b)
    ensures VertexGraphs(store, Met(b)) <= Met(b) <= store.Keys
  {
    hide SubGraphs, OwnVertices, Ends, GraphsIn, VertexGraphs, GraphsOfVertices;
    var root, g := b.root, b.root.v.graph;
    GraphsOfRoot(root);
    SuccessorsOfRoot(store, root, Roots(b.children));
    OwnVerticesInside(root);
    SubGraphsClosed(store, root);
    VertexGraphsUnion(store, {g}, SubGraphs(root));
    if Ends(root.v) != {} {
      MetOfAllIsClosed(store, b.children);
      RootGraphs(b.children);
      VertexGraphsUnion(store, GraphsIn(root), MetOfAll(b.children));
    } else {
      assert Met(b) == GraphsIn(root);
    }
  }

  lemma {:induction false} MetOfAllIsClosed(store: Store, bs: BuiltPlans)
    requires AllLaidPlans(store, bs)
    ensures VertexGraphs(store, MetOfAll(bs)) <= MetOfAll(bs) <= store.Keys
  {
    if bs.AndBuilt? {
      MetIsClosed(store, bs.first);
      MetOfAllIsClosed(store, bs.rest);
      VertexGraphsUnion(store, Met(bs.first), MetOfAll(bs.rest));
    }
  }

  lemma RootIsMet(store: Store, b: Built, children: seq<Vertex>, r: set<Graph<Vertex>>)
    requires LaidWith(store, b, children) && b.v.graph in r && VertexGraphs(store, r) <= r
    ensures GraphsIn(b) <= r
    ensures Ends(b.v) != {} ==> GraphsOfVertices(Elements(children)) <= r
  {
    SuccessorsOfRoot(store, b, children);
    assert {b.v.graph} + r == r;
    VertexGraphsUnion(store, {b.v.graph}, r);
    match b
    case BuiltJob(_, _) =>
    case BuiltChain(_, bs) => OwnGraphsOfVertices(bs); AllGraphsAreMet(store, bs, r);
    case BuiltGroup(_, bs) => OwnGraphsOfVertices(bs); AllGraphsAreMet(store, bs, r);
  }

  lemma {:induction false} PlanIsMet(store: Store, b: BuiltPlan, r: set<Graph<Vertex>>)
    requires LaidPlan(store, b) && b.root.v.graph in r && VertexGraphs(store, r) <= r
    ensures Met(b) <= r
  {
    hide SubGraphs, OwnVertices, Ends, GraphsIn, VertexGraphs, LaidWith;
    RootIsMet(store, b.root, Roots(b.children), r);
    if Ends(b.root.v) != {} { PlansAreMet(store, b.children, r); }
  }

  lemma {:induction false} PlansAreMet(store: Store, bs: BuiltPlans, r: set<Graph<Vertex>>)
    requires AllLaidPlans(store, bs) && GraphsOfVertices(Elements(Roots(bs))) <= r && VertexGraphs(store, r) <= r
    ensures MetOfAll(bs) <= r
  {
    if bs.AndBuilt? {
      hide VertexGraphs;
      assert bs.first.root.v in Elements(Roots(bs));
      assert Elements(Roots(bs.rest)) <= Elements(Roots(bs));
      PlanIsMet(store, bs.first, r);
      PlansAreMet(store, bs.rest, r);
    }
  }

  /** The flat graph of a plan has the jobs and links that the meaning of `on_done` is proved about. */
  lemma PlanIsFlattened(store: Store, b: BuiltPlan)
    requires ClosedStore(store) && LaidPlan(store, b)
    ensures AllLinks(store, Visited(store, {b.root.v.graph})) == PlanLinks(PlanOf(b))
    ensures AllJobs(store, Visited(store, {b.root.v.graph})) == KeptJobs(PlanOf(b))
  {
    hide AllLinks, AllJobs, VertexGraphs, PlanLinks, KeptJobs;
    var g := b.root.v.graph;
    MetIsClosed(store, b);
    GraphsOfRoot(b.root);
    VisitedIsLeast(store, {g}, Met(b));
    PlanIsMet(store, b, Visited(store, {g}));
    assert Visited(store, {g}) == Met(b);
    PlanContributions(store, b);
  }

  /** Evaluates and flattens a plan over distinct jobs: the graph is acyclic, contradicts nothing the
      calls say, and has all their jobs and all their order if and only if the plan is faithful. */
  method FlattenedPlan(p: Plan) returns (flat: Graph<JobId>)
    requires PlanBuildable(p) && PlanDistinct(p)
    ensures fresh(flat) && flat.adj.Keys == KeptJobs(p) && EdgesOf(flat.adj) == PlanLinks(p)
    ensures Acyclic(EdgesOf(flat.adj))
    ensures forall x, y :: Reach(EdgesOf(flat.adj), x, y) ==> (x, y) in PlanBefore(p)
    ensures (flat.adj.Keys == PlanJobs(p) && forall x, y :: Reach(EdgesOf(flat.adj), x, y) <==> (x, y) in PlanBefore(p))
            <==> PlanFaithful(p)
  {
    ghost var b;
    var v;
    v, b := BuildPlan(p);
    ghost var world := AllGraphs(b);
    ghost var store := Contents(world);
    PlanStoreIsClosed(store, b);
    GraphsOfRoot(b.root);
    flat := ConnectGraphs(v.graph, world);
    PlanIsFlattened(store, b);
    OnDonePreservesMeaning(p);
  }

  lemma {:induction false} AllGraphsClosed(store: Store, b: BuiltPlan)
    requires LaidPlan(store, b)
    ensures VertexGraphs(store, AllGraphs(b)) <= AllGraphs(b)
  {
    hide SubGraphs, OwnVertices, Ends, GraphsIn, VertexGraphs, GraphsOfVertices;
    var root, g := b.root, b.root.v.graph;
    GraphsOfRoot(root);
    SuccessorsOfRoot(store, root, Roots(b.children));
    OwnVerticesInside(root);
    SubGraphsClosed(store, root);
    VertexGraphsUnion(store, {g}, SubGraphs(root));
    GraphsOfAllClosed(store, b.children);
    RootsAreIn(b.children);
    VertexGraphsUnion(store, GraphsIn(root), GraphsOfAll(b.children));
  }

  lemma {:induction false} GraphsOfAllClosed(store: Store, bs: BuiltPlans)
    requires AllLaidPlans(store, bs)
    ensures VertexGraphs(store, GraphsOfAll(bs)) <= GraphsOfAll(bs)
  {
    if bs.AndBuilt? {
      AllGraphsClosed(store, bs.first);
      GraphsOfAllClosed(store, bs.rest);
      VertexGraphsUnion(store, AllGraphs(bs.first), GraphsOfAll(bs.rest));
    }
  }

  lemma {:induction false} RootsAreIn(bs: BuiltPlans)
    ensures GraphsOfVertices(Elements(Roots(bs))) <= GraphsOfAll(bs)
  {
    if bs.AndBuilt? {
      RootsAreIn(bs.rest);
      GraphsOfRoot(bs.first.root);
    }
  }

  lemma PlanStoreIsClosed(store: Store, b: BuiltPlan)
    requires LaidPlan(store, b) && store.Keys == AllGraphs(b)
    ensures ClosedStore(store)
  {
    AllGraphsClosed(store, b);
  }
}
