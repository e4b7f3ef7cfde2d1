/** From a chain/group term to its flat job graph: the objects that the constructor calls leave
    behind, and the graph that `_connect_graphs` makes of them. */
module Compilation {
  import opened Digraphs
  import opened DelayGraph
  import opened Terms
  import opened TermMeaning
  import opened Flatten

  /** A term together with the object built for each of its nodes. */
  datatype Built =
    | BuiltJob(v: Vertex, id: JobId)
    | BuiltChain(v: Vertex, elements: Builts)
    | BuiltGroup(v: Vertex, members: Builts)

  datatype Builts = None | More(first: Built, rest: Builts)

  ghost function TermOf(b: Built): Term {
    match b
    case BuiltJob(_, id) => Job(id)
    case BuiltChain(_, bs) => Chain(TermsOf(bs))
    case BuiltGroup(_, bs) => Group(TermsOf(bs))
  }

  ghost function TermsOf(bs: Builts): Terms {
    match bs
    case None => Nil
    case More(b, rest) => Cons(TermOf(b), TermsOf(rest))
  }

  ghost function Vertices(bs: Builts): (vs: seq<Vertex>)
    ensures vs == [] <==> bs.None?
  {
    match bs
    case None => []
    case More(b, rest) => [b.v] + Vertices(rest)
  }

  ghost function GraphsIn(b: Built): set<Graph<Vertex>> {
    {b.v.graph} + match b
      case BuiltJob(_, _) => {}
      case BuiltChain(_, bs) => GraphsInAll(bs)
      case BuiltGroup(_, bs) => GraphsInAll(bs)
  }

  ghost function GraphsInAll(bs: Builts): set<Graph<Vertex>> {
    match bs
    case None => {}
    case More(b, rest) => GraphsIn(b) + GraphsInAll(rest)
  }

  /** The graphs of the elements. */
  ghost function SubGraphs(b: Built): set<Graph<Vertex>> {
    match b
    case BuiltJob(_, _) => {}
    case BuiltChain(_, bs) => GraphsInAll(bs)
    case BuiltGroup(_, bs) => GraphsInAll(bs)
  }

  /** Every node's object and graph are as its constructor call leaves them. */
  ghost predicate Laid(store: Store, b: Built) {
    && b.v.graph in store
    && match b
       case BuiltJob(v, id) =>
         v == Delayable(v.graph, id) && store[v.graph] == map[v := {}]
       case BuiltChain(v, bs) =>
         var vs := Vertices(bs);
         && vs != [] && v == DelayableChain(v.graph, vs[0], vs[|vs| - 1])
         && store[v.graph].Keys == Elements(vs) && EdgesOf(store[v.graph]) == Consecutive(vs)
         && AllLaid(store, bs)
       case BuiltGroup(v, bs) =>
         var vs := Vertices(bs);
         && v == DelayableGroup(v.graph, Elements(vs))
         && store[v.graph].Keys == Elements(vs) && EdgesOf(store[v.graph]) == {}
         && AllLaid(store, bs)
  }

  ghost predicate AllLaid(store: Store, bs: Builts) {
    bs.More? ==> Laid(store, bs.first) && AllLaid(store, bs.rest)
  }

  // ---------------------------------------------------------------- building

  /** Every chain of the term has an element: others cannot be constructed. */
  predicate Buildable(t: Term) {
    match t
    case Job(_) => true
    case Chain(ts) => ts.Cons? && AllBuildable(ts)
    case Group(ts) => AllBuildable(ts)
  }

  predicate AllBuildable(ts: Terms) {
    ts.Cons? ==> Buildable(ts.head) && AllBuildable(ts.tail)
  }

  lemma {:induction false} LaidInLarger(store: Store, larger: Store, b: Built)
    requires Laid(store, b)
    requires forall g :: g in GraphsIn(b) && g in store ==> g in larger && larger[g] == store[g]
    ensures Laid(larger, b)
  {
    match b
    case BuiltJob(_, _) =>
    case BuiltChain(_, bs) => AllLaidInLarger(store, larger, bs);
    case BuiltGroup(_, bs) => AllLaidInLarger(store, larger, bs);
  }

  lemma {:induction false} AllLaidInLarger(store: Store, larger: Store, bs: Builts)
    requires AllLaid(store, bs)
    requires forall g :: g in GraphsInAll(bs) && g in store ==> g in larger && larger[g] == store[g]
    ensures AllLaid(larger, bs)
  {
    if bs.More? {
      LaidInLarger(store, larger, bs.first);
      AllLaidInLarger(store, larger, bs.rest);
    }
  }

  /** Evaluates the constructor calls of a term, innermost first. */
  method Compile(t: Term) returns (v: Vertex, ghost b: Built)
    requires Buildable(t)
    ensures b.v == v && TermOf(b) == t
    ensures fresh(GraphsIn(b)) && Laid(Contents(GraphsIn(b)), b) && v.graph !in SubGraphs(b)
    decreases t
  {
    match t
    case Job(id) =>
      v := NewDelayable(id);
      b := BuiltJob(v, id);
    case Chain(ts) =>
      ghost var bs;
      var vs;
      vs, bs := CompileAll(ts);
      ghost var store := Contents(GraphsInAll(bs));
      v := NewChain(vs);
      b := BuiltChain(v, bs);
      AllLaidInLarger(store, Contents(GraphsIn(b)), bs);
    case Group(ts) =>
      ghost var bs;
      var vs;
      vs, bs := CompileAll(ts);
      ghost var store := Contents(GraphsInAll(bs));
      v := NewGroup(vs);
      b := BuiltGroup(v, bs);
      AllLaidInLarger(store, Contents(GraphsIn(b)), bs);
  }

  method CompileAll(ts: Terms) returns (vs: seq<Vertex>, ghost bs: Builts)
    requires AllBuildable(ts)
    ensures vs == Vertices(bs) && TermsOf(bs) == ts
    ensures fresh(GraphsInAll(bs)) && AllLaid(Contents(GraphsInAll(bs)), bs)
    decreases ts
  {
    match ts
    case Nil =>
      vs, bs := [], None;
    case Cons(t, rest) =>
      ghost var b, more;
      var v;
      v, b := Compile(t);
      ghost var store := Contents(GraphsIn(b));
      vs, more := CompileAll(rest);
      vs := [v] + vs;
      bs := More(b, more);
      LaidInLarger(store, Contents(GraphsInAll(bs)), b);
      AllLaidInLarger(Contents(GraphsInAll(more)), Contents(GraphsInAll(bs)), more);
  }

  // ---------------------------------------------------------------- heads and tails

  lemma {:induction false} EndsMatch(store: Store, b: Built)
    requires Laid(store, b)
    ensures HeadJobs(b.v) == Heads(TermOf(b)) && TailJobs(b.v) == Tails(TermOf(b))
  {
    match b
    case BuiltJob(_, _) =>
    case BuiltChain(v, bs) =>
      AllEndsMatch(store, bs);
    case BuiltGroup(v, bs) =>
      AllEndsMatch(store, bs);
  }

  lemma {:induction false} AllEndsMatch(store: Store, bs: Builts)
    requires AllLaid(store, bs)
    ensures HeadJobsOf(Elements(Vertices(bs))) == HeadsOf(TermsOf(bs))
    ensures JobsFrom(Elements(Vertices(bs))) == TailsOf(TermsOf(bs))
    ensures bs.More? ==> TailJobs(Vertices(bs)[0]) == Tails(TermsOf(bs).head)
    ensures bs.More? ==> HeadJobs(Vertices(bs)[0]) == Heads(TermsOf(bs).head)
    ensures bs.More? ==> HeadJobs(Vertices(bs)[|Vertices(bs)| - 1]) == LastHeads(TermsOf(bs))
  {
    if bs.More? {
      EndsMatch(store, bs.first);
      AllEndsMatch(store, bs.rest);
      var vs := Vertices(bs);
      JobsFromUnion({bs.first.v}, Elements(Vertices(bs.rest)));
      JobsFromOne(bs.first.v);
      HeadJobsOfPrepend(bs.first.v, Elements(Vertices(bs.rest)));
    }
  }

  lemma HeadJobsOfPrepend(v: Vertex, vs: set<Vertex>)
    ensures HeadJobsOf({v} + vs) == HeadJobs(v) + HeadJobsOf(vs)
  {
    forall id | id in HeadJobs(v) ensures id in HeadJobsOf({v} + vs) { assert v in {v} + vs; }
    forall id | id in HeadJobsOf(vs) ensures id in HeadJobsOf({v} + vs) {
      var n :| n in vs && id in HeadJobs(n);
      assert n in {v} + vs;
    }
  }

  // ---------------------------------------------------------------- links and jobs

  lemma GraphsStored(store: Store, b: Built)
    requires Laid(store, b)
    ensures GraphsIn(b) <= store.Keys
  {
    match b
    case BuiltJob(_, _) =>
    case BuiltChain(_, bs) => AllGraphsStored(store, bs);
    case BuiltGroup(_, bs) => AllGraphsStored(store, bs);
  }

  lemma AllGraphsStored(store: Store, bs: Builts)
    requires AllLaid(store, bs)
    ensures GraphsInAll(bs) <= store.Keys
  {
    if bs.More? {
      GraphsStored(store, bs.first);
      AllGraphsStored(store, bs.rest);
    }
  }

  /** The links between the elements of a chain, not those inside them. */
  ghost function OwnLinks(ts: Terms): Edges<JobId> {
    match ts
    case Nil => {}
    case Cons(t, rest) => Cross(Tails(t), FirstHeads(rest)) + OwnLinks(rest)
  }

  lemma {:induction false} ChainLinksSplit(ts: Terms)
    ensures LinksInChain(ts) == OwnLinks(ts) + LinksInGroup(ts)
  {
    if ts.Cons? { ChainLinksSplit(ts.tail); }
  }

  /** The graph of a chain contributes exactly the links between its elements. */
  lemma {:induction false} OwnLinksMatch(store: Store, bs: Builts)
    requires AllLaid(store, bs)
    ensures LinksFrom(Consecutive(Vertices(bs))) == OwnLinks(TermsOf(bs))
  {
    if bs.More? {
      OwnLinksMatch(store, bs.rest);
      EndsMatch(store, bs.first);
      var vs, rest := Vertices(bs), Vertices(bs.rest);
      assert vs[1..] == rest;
      if bs.rest.More? {
        EndsMatch(store, bs.rest.first);
        LinksFromOne(vs[0], vs[1]);
      } else {
        assert FirstHeads(TermsOf(bs.rest)) == {};
      }
    }
  }

  lemma LinksFromOne(v: Vertex, w: Vertex)
    ensures LinksFrom({(v, w)}) == Cross(TailJobs(v), HeadJobs(w))
  {
    forall link | link in Cross(TailJobs(v), HeadJobs(w)) ensures link in LinksFrom({(v, w)}) {
      assert (v, w) in {(v, w)};
    }
  }

  /** All graphs built for a term contribute the term's links and its jobs. */
  lemma {:induction false} ContributionsMatch(store: Store, b: Built)
    requires Laid(store, b)
    ensures AllLinks(store, GraphsIn(b)) == Links(TermOf(b))
    ensures AllJobs(store, GraphsIn(b)) == Jobs(TermOf(b))
  {
    AllOfOne(store, b.v.graph);
    EndsMatch(store, b);
    InsideTerm(TermOf(b));
    match b
    case BuiltJob(v, id) =>
      assert GraphsIn(b) == {v.graph};
      JobsFromOne(v);
      assert EdgesOf(store[v.graph]) == {};
    case BuiltChain(v, bs) =>
      AllContributionsMatch(store, bs);
      AllEndsMatch(store, bs);
      OwnLinksMatch(store, bs);
      ChainLinksSplit(TermsOf(bs));
      InsideTerms(TermsOf(bs));
      AllOfUnion(store, {v.graph}, GraphsInAll(bs));
    case BuiltGroup(v, bs) =>
      AllContributionsMatch(store, bs);
      AllEndsMatch(store, bs);
      InsideTerms(TermsOf(bs));
      AllOfUnion(store, {v.graph}, GraphsInAll(bs));
  }

  lemma {:induction false} AllContributionsMatch(store: Store, bs: Builts)
    requires AllLaid(store, bs)
    ensures AllLinks(store, GraphsInAll(bs)) == LinksInGroup(TermsOf(bs))
    ensures AllJobs(store, GraphsInAll(bs)) == JobsOf(TermsOf(bs))
  {
    if bs.More? {
      ContributionsMatch(store, bs.first);
      AllContributionsMatch(store, bs.rest);
      AllOfUnion(store, GraphsIn(bs.first), GraphsInAll(bs.rest));
    }
  }

  // ---------------------------------------------------------------- the walk meets every graph of the term

  ghost function OwnGraphs(bs: Builts): set<Graph<Vertex>> {
    match bs
    case None => {}
    case More(b, rest) => {b.v.graph} + OwnGraphs(rest)
  }

  lemma {:induction false} OwnGraphsOfVertices(bs: Builts)
    ensures OwnGraphs(bs) == set v | v in Elements(Vertices(bs)) :: v.graph
    ensures OwnGraphs(bs) <= GraphsInAll(bs)
  {
    if bs.More? {
      OwnGraphsOfVertices(bs.rest);
    }
  }

  /** The vertices of a node's graph are the objects of its elements (of the job itself for a job). */
  lemma SuccessorsMatch(store: Store, b: Built)
    requires Laid(store, b)
    ensures VertexGraphs(store, {b.v.graph}) == match b
              case BuiltJob(v, _) => {v.graph}
              case BuiltChain(_, bs) => OwnGraphs(bs)
              case BuiltGroup(_, bs) => OwnGraphs(bs)
  {
    var g := b.v.graph;
    assert VertexGraphs(store, {g}) == set v | v in store[g].Keys :: v.graph by {
      forall x | x in (set v | v in store[g].Keys :: v.graph) ensures x in VertexGraphs(store, {g}) {
        assert g in {g};
      }
    }
    match b
    case BuiltJob(_, _) =>
    case BuiltChain(_, bs) => OwnGraphsOfVertices(bs);
    case BuiltGroup(_, bs) => OwnGraphsOfVertices(bs);
  }

  lemma VertexGraphsUnion(store: Store, s: set<Graph<Vertex>>, t: set<Graph<Vertex>>)
    ensures VertexGraphs(store, s + t) == VertexGraphs(store, s) + VertexGraphs(store, t)
  {
  }

  lemma {:induction false} GraphsAreClosed(store: Store, b: Built)
    requires Laid(store, b)
    ensures VertexGraphs(store, GraphsIn(b)) <= GraphsIn(b)
  {
    SuccessorsMatch(store, b);
    match b
    case BuiltJob(v, _) => assert GraphsIn(b) == {v.graph};
    case BuiltChain(v, bs) =>
      AllGraphsAreClosed(store, bs);
      OwnGraphsOfVertices(bs);
      VertexGraphsUnion(store, {v.graph}, GraphsInAll(bs));
    case BuiltGroup(v, bs) =>
      AllGraphsAreClosed(store, bs);
      OwnGraphsOfVertices(bs);
      VertexGraphsUnion(store, {v.graph}, GraphsInAll(bs));
  }

  lemma {:induction false} AllGraphsAreClosed(store: Store, bs: Builts)
    requires AllLaid(store, bs)
    ensures VertexGraphs(store, GraphsInAll(bs)) <= GraphsInAll(bs)
  {
    if bs.More? {
      GraphsAreClosed(store, bs.first);
      AllGraphsAreClosed(store, bs.rest);
      VertexGraphsUnion(store, GraphsIn(bs.first), GraphsInAll(bs.rest));
    }
  }

  lemma {:induction false} GraphsAreMet(store: Store, b: Built, r: set<Graph<Vertex>>)
    requires Laid(store, b) && b.v.graph in r && VertexGraphs(store, r) <= r
    ensures GraphsIn(b) <= r
  {
    SuccessorsMatch(store, b);
    assert {b.v.graph} + r == r;
    VertexGraphsUnion(store, {b.v.graph}, r);
    match b
    case BuiltJob(_, _) =>
    case BuiltChain(_, bs) => AllGraphsAreMet(store, bs, r);
    case BuiltGroup(_, bs) => AllGraphsAreMet(store, bs, r);
  }

  lemma {:induction false} AllGraphsAreMet(store: Store, bs: Builts, r: set<Graph<Vertex>>)
    requires AllLaid(store, bs) && OwnGraphs(bs) <= r && VertexGraphs(store, r) <= r
    ensures GraphsInAll(bs) <= r
  {
    if bs.More? {
      GraphsAreMet(store, bs.first, r);
      AllGraphsAreMet(store, bs.rest, r);
    }
  }

  /** The graphs met from the top object are those of the term, no more and no less. */
  lemma VisitedMatch(store: Store, b: Built)
    requires Laid(store, b) && ClosedStore(store)
    ensures b.v.graph in store && Visited(store, {b.v.graph}) == GraphsIn(b)
  {
    GraphsStored(store, b);
    GraphsAreClosed(store, b);
    VisitedIsLeast(store, {b.v.graph}, GraphsIn(b));
    GraphsAreMet(store, b, Visited(store, {b.v.graph}));
  }

  // ---------------------------------------------------------------- the flattened term

  /** Builds a term over distinct jobs and flattens it: the graph has exactly the term's jobs, it is
      acyclic, no path contradicts the term, and all of the term's order is there exactly when the
      term is `Faithful`. */
  method Flattened(t: Term) returns (flat: Graph<JobId>)
    requires Buildable(t) && Distinct(t)
    ensures fresh(flat) && flat.adj.Keys == Jobs(t) && EdgesOf(flat.adj) == Links(t) && Closed(flat.adj)
    ensures Acyclic(EdgesOf(flat.adj))
    ensures forall x, y :: Reach(EdgesOf(flat.adj), x, y) ==> (x, y) in Before(t)
    ensures (forall x, y :: Reach(EdgesOf(flat.adj), x, y) <==> (x, y) in Before(t)) <==> Faithful(t)
  {
    ghost var b;
    var v;
    v, b := Compile(t);
    ghost var world := GraphsIn(b);
    GraphsAreClosed(Contents(world), b);
    VisitedMatch(Contents(world), b);
    ContributionsMatch(Contents(world), b);
    flat := ConnectGraphs(v.graph, world);
    FlatteningIsSound(t);
    FlatteningPreservesMeaning(t);
    InsideTerm(t);
    forall u, w | u in flat.adj && w in flat.adj[u] ensures w in flat.adj {
      assert (u, w) in EdgesOf(flat.adj);
    }
  }

  /** The direct execution of a term (`_execute_graph_direct`) performs every job once, in an order
      that the term allows; when the term is `Faithful` it respects all of it. */
  method ExecutionOrder(t: Term) returns (order: seq<JobId>)
    requires Buildable(t) && Distinct(t)
    ensures NoDuplicates(order) && Elements(order) == Jobs(t)
    ensures ParentsFirst(Links(t), order)
    ensures Faithful(t) ==>
              forall i, j :: 0 <= i < |order| && 0 <= j < |order| && (order[i], order[j]) in Before(t) ==> i < j
  {
    var flat := Flattened(t);
    order := TopologicalSort(flat);
    SortIsTotalIffAcyclic(flat.adj, order);
    if Faithful(t) {
      forall i, j | 0 <= i < |order| && 0 <= j < |order| && (order[i], order[j]) in Before(t) ensures i < j {
        assert Reach(EdgesOf(flat.adj), order[i], order[j]);
        AncestorsBefore(EdgesOf(flat.adj), order, order[i], j);
      }
    }
  }
}
