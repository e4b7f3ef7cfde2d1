/** `DelayableGraph`, `DelayableChain`, `DelayableGroup` and `Delayable` of queue_job/delay.py.
    Each of them owns a mutable graph object; delaying one of them walks the graphs of its vertices,
    and of their vertices, and merges them all into one graph of jobs. */
module Flatten {
  import opened DelayGraph
  import opened Digraphs
  import opened Terms

  /** What a graph may have as a vertex. The graph object gives a vertex its identity. */
  datatype Vertex =
    | Delayable(graph: Graph<Vertex>, id: JobId)
    | DelayableChain(graph: Graph<Vertex>, head: Vertex, tail: Vertex)
    | DelayableGroup(graph: Graph<Vertex>, delayables: set<Vertex>)

  /** `_head()`. */
  function HeadJobs(v: Vertex): set<JobId> {
    match v
    case Delayable(_, id) => {id}
    case DelayableChain(_, head, _) => TailJobs(head)
    case DelayableGroup(_, delayables) => set node, id | node in delayables && id in HeadJobs(node) :: id
  }

  /** `_tail()`. */
  function TailJobs(v: Vertex): set<JobId> {
    match v
    case Delayable(_, id) => {id}
    case DelayableChain(_, _, tail) => HeadJobs(tail)
    case DelayableGroup(_, delayables) => set node, id | node in delayables && id in TailJobs(node) :: id
  }

  function HeadJobsOf(vs: set<Vertex>): set<JobId> {
    set node, id | node in vs && id in HeadJobs(node) :: id
  }

  // ---------------------------------------------------------------- merging one graph

  /** The jobs that a graph with these vertices contributes. */
  ghost function JobsFrom(vs: set<Vertex>): set<JobId> {
    set v, id | v in vs && id in TailJobs(v) :: id
  }

  /** The job links that a graph with these edges contributes: tails to heads. */
  ghost function LinksFrom(e: Edges<Vertex>): Edges<JobId> {
    set edge, link | edge in e && link in Cross(TailJobs(edge.0), HeadJobs(edge.1)) :: link
  }

  lemma JobsFromUnion(vs: set<Vertex>, ws: set<Vertex>)
    ensures JobsFrom(vs + ws) == JobsFrom(vs) + JobsFrom(ws)
  {
  }

  lemma JobsFromOne(v: Vertex)
    ensures JobsFrom({v}) == TailJobs(v)
  {
    forall id | id in TailJobs(v) ensures id in JobsFrom({v}) { assert v in {v}; }
  }

  lemma TailsAreJobs(v: Vertex, vs: set<Vertex>)
    requires v in vs
    ensures TailJobs(v) <= JobsFrom(vs)
  {
    forall id | id in TailJobs(v) ensures id in JobsFrom(vs) { assert v in vs; }
  }

  ghost function EdgesAt(v: Vertex, neighbours: set<Vertex>): Edges<Vertex> {
    set n | n in neighbours :: (v, n)
  }

  lemma LinksAtVertex(v: Vertex, neighbours: set<Vertex>)
    ensures LinksFrom(EdgesAt(v, neighbours)) == Cross(TailJobs(v), HeadJobsOf(neighbours))
  {
    var e := EdgesAt(v, neighbours);
    forall link | link in Cross(TailJobs(v), HeadJobsOf(neighbours)) ensures link in LinksFrom(e) {
      var n :| n in neighbours && link.1 in HeadJobs(n);
      assert (v, n) in e && link in Cross(TailJobs(v), HeadJobs(n));
    }
    forall link | link in LinksFrom(e) ensures link in Cross(TailJobs(v), HeadJobsOf(neighbours)) {
      var edge :| edge in e && link in Cross(TailJobs(edge.0), HeadJobs(edge.1));
      var (tail, head) := link;
      var n := edge.1;
      assert tail in TailJobs(v) && head in HeadJobs(n) && n in neighbours;
      assert head in HeadJobsOf(neighbours);
    }
  }

  /** One round of the merge: every tail of the vertex is linked to every head of its neighbours. */
  method MergeVertex(flat: Graph<JobId>, vertex: Vertex, neighbours: set<Vertex>)
    modifies flat
    ensures flat.adj.Keys == old(flat.adj).Keys + TailJobs(vertex)
    ensures EdgesOf(flat.adj) == old(EdgesOf(flat.adj)) + LinksFrom(EdgesAt(vertex, neighbours))
  {
    var heads := HeadJobsOf(neighbours);
    var tails := TailJobs(vertex);
    ghost var done: set<JobId> := {};
    LinksAtVertex(vertex, neighbours);
    while tails != {}
      invariant tails + done == TailJobs(vertex) && tails !! done
      invariant flat.adj.Keys == old(flat.adj).Keys + done
      invariant EdgesOf(flat.adj) == old(EdgesOf(flat.adj)) + Cross(done, heads)
    {
      var tail := Pick(tails);
      ghost var before := flat.adj;
      flat.adj := flat.adj[tail := (if tail in flat.adj then flat.adj[tail] else {}) + heads];
      forall x, y ensures (x, y) in EdgesOf(flat.adj) <==> (x, y) in EdgesOf(before) || (x == tail && y in heads) { }
      tails := tails - {tail};
      done := done + {tail};
    }
  }

  /** `_merge_graph`. */
  method MergeGraph(flat: Graph<JobId>, graph: Graph<Vertex>)
    modifies flat
    ensures flat.adj.Keys == old(flat.adj).Keys + JobsFrom(graph.adj.Keys)
    ensures EdgesOf(flat.adj) == old(EdgesOf(flat.adj)) + LinksFrom(EdgesOf(graph.adj))
  {
    ghost var done: set<Vertex>, merged: Edges<Vertex> := {}, {};
    var adj := graph.adj;
    var todo := adj.Keys;
    while todo != {}
      invariant todo + done == adj.Keys && todo !! done
      invariant forall edge :: edge in merged <==> edge in EdgesOf(adj) && edge.0 in done
      invariant flat.adj.Keys == old(flat.adj).Keys + JobsFrom(done)
      invariant EdgesOf(flat.adj) == old(EdgesOf(flat.adj)) + LinksFrom(merged)
    {
      var vertex :| vertex in todo;
      MergeVertex(flat, vertex, adj[vertex]);
      JobsFromUnion(done, {vertex});
      JobsFromOne(vertex);
      merged := merged + EdgesAt(vertex, adj[vertex]);
      todo := todo - {vertex};
      done := done + {vertex};
    }
    assert merged == EdgesOf(adj);
  }

  // ---------------------------------------------------------------- walking the graph of graphs

  /** What a set of graph objects holds at one moment. */
  type Store = map<Graph<Vertex>, Adjacency<Vertex>>

  ghost function Contents(world: set<Graph<Vertex>>): Store
    reads world
  {
    map g | g in world :: g.adj
  }

  /** The graphs of the vertices of the graphs in `s`. */
  ghost function VertexGraphs(store: Store, s: set<Graph<Vertex>>): set<Graph<Vertex>> {
    set g, v | g in s && g in store && v in store[g] :: v.graph
  }

  ghost predicate ClosedStore(store: Store) {
    VertexGraphs(store, store.Keys) <= store.Keys
  }

  /** All graphs met from those in `s`: the least set that contains `s` and the graphs of its vertices. */
  ghost function Visited(store: Store, s: set<Graph<Vertex>>): (r: set<Graph<Vertex>>)
    requires ClosedStore(store) && s <= store.Keys
    ensures s <= r <= store.Keys && VertexGraphs(store, r) <= r
    decreases |store.Keys - s|
  {
    var more := s + VertexGraphs(store, s);
    if more == s then s
    else
      SubsetSize(store.Keys - more, store.Keys - s);
      Visited(store, more)
  }

  lemma {:induction false} VisitedIsLeast(store: Store, s: set<Graph<Vertex>>, r: set<Graph<Vertex>>)
    requires ClosedStore(store) && s <= store.Keys
    requires s <= r && VertexGraphs(store, r) <= r
    ensures Visited(store, s) <= r
    decreases |store.Keys - s|
  {
    var more := s + VertexGraphs(store, s);
    if more != s {
      SubsetSize(store.Keys - more, store.Keys - s);
      VisitedIsLeast(store, more, r);
    }
  }

  ghost function AllJobs(store: Store, s: set<Graph<Vertex>>): set<JobId> {
    set g, id | g in s && g in store && id in JobsFrom(store[g].Keys) :: id
  }

  ghost function AllLinks(store: Store, s: set<Graph<Vertex>>): Edges<JobId> {
    set g, link | g in s && g in store && link in LinksFrom(EdgesOf(store[g])) :: link
  }

  lemma AllOfUnion(store: Store, s: set<Graph<Vertex>>, t: set<Graph<Vertex>>)
    ensures AllJobs(store, s + t) == AllJobs(store, s) + AllJobs(store, t)
    ensures AllLinks(store, s + t) == AllLinks(store, s) + AllLinks(store, t)
  {
  }

  lemma AllOfOne(store: Store, g: Graph<Vertex>)
    requires g in store
    ensures AllJobs(store, {g}) == JobsFrom(store[g].Keys)
    ensures AllLinks(store, {g}) == LinksFrom(EdgesOf(store[g]))
  {
    assert g in {g};
  }

  /** The flat graph has the jobs and links of the graphs in `merged`. */
  ghost predicate FlatHolds(flat: Graph<JobId>, store: Store, merged: set<Graph<Vertex>>)
    reads flat
  {
    flat.adj.Keys == AllJobs(store, merged) && EdgesOf(flat.adj) == AllLinks(store, merged)
  }

  /** Merges the graph of one more vertex. */
  method MergeOne(flat: Graph<JobId>, graph: Graph<Vertex>, ghost store: Store, ghost merged: set<Graph<Vertex>>)
    requires graph in store && store[graph] == graph.adj
    requires FlatHolds(flat, store, merged)
    modifies flat
    ensures FlatHolds(flat, store, merged + {graph})
  {
    AllOfUnion(store, merged, {graph});
    AllOfOne(store, graph);
    MergeGraph(flat, graph);
  }

  /** The body of the walk: merges and queues the graphs of all vertices of `current`. */
  method MergeVertexGraphs(flat: Graph<JobId>, current: Graph<Vertex>, stack: seq<Graph<Vertex>>,
                           ghost world: set<Graph<Vertex>>, ghost merged: set<Graph<Vertex>>)
    returns (stack': seq<Graph<Vertex>>, ghost merged': set<Graph<Vertex>>)
    requires current in world && ClosedStore(Contents(world))
    requires FlatHolds(flat, Contents(world), merged)
    modifies flat
    ensures Contents(world) == old(Contents(world))
    ensures FlatHolds(flat, Contents(world), merged')
    ensures merged' == merged + set v | v in current.adj :: v.graph
    ensures Elements(stack') == Elements(stack) + set v | v in current.adj :: v.graph
  {
    stack', merged' := stack, merged;
    var todo := current.adj.Keys;
    ghost var done: set<Vertex> := {};
    while todo != {}
      invariant todo + done == current.adj.Keys && todo !! done
      invariant Contents(world) == old(Contents(world))
      invariant FlatHolds(flat, Contents(world), merged')
      invariant merged' == merged + set v | v in done :: v.graph
      invariant Elements(stack') == Elements(stack) + set v | v in done :: v.graph
    {
      var vertex :| vertex in todo;
      assert vertex.graph in VertexGraphs(Contents(world), world);
      MergeOne(flat, vertex.graph, Contents(world), merged');
      AppendDistinct(stack', vertex.graph);
      stack' := stack' + [vertex.graph];
      merged' := merged' + {vertex.graph};
      todo := todo - {vertex};
      done := done + {vertex};
    }
    assert done == current.adj.Keys;
  }

  /** Where the walk stands: `merged` is `self` and the graphs of the vertices of the `seen` graphs;
      those not seen are queued. */
  ghost predicate Walk(store: Store, self: Graph<Vertex>, seen: set<Graph<Vertex>>, queued: set<Graph<Vertex>>,
                       merged: set<Graph<Vertex>>) {
    && ClosedStore(store) && self in store
    && seen <= merged && merged <= seen + queued && queued <= merged
    && merged == {self} + VertexGraphs(store, seen)
    && merged <= Visited(store, {self})
  }

  lemma WalkStarts(store: Store, self: Graph<Vertex>)
    requires ClosedStore(store) && self in store
    ensures Walk(store, self, {}, {self}, {self})
  {
  }

  lemma WalkSkips(store: Store, self: Graph<Vertex>, seen: set<Graph<Vertex>>, stack: seq<Graph<Vertex>>,
                  merged: set<Graph<Vertex>>)
    requires stack != [] && Walk(store, self, seen, Elements(stack), merged) && stack[0] in seen
    ensures Walk(store, self, seen, Elements(stack[1..]), merged)
  {
    assert Elements(stack) == {stack[0]} + Elements(stack[1..]);
  }

  lemma WalkSteps(store: Store, self: Graph<Vertex>, seen: set<Graph<Vertex>>, stack: seq<Graph<Vertex>>,
                  merged: set<Graph<Vertex>>)
    requires stack != [] && Walk(store, self, seen, Elements(stack), merged) && stack[0] !in seen
    ensures stack[0] in store
    ensures var found := set v | v in store[stack[0]] :: v.graph;
            Walk(store, self, seen + {stack[0]}, Elements(stack[1..]) + found, merged + found)
    ensures |store.Keys - (seen + {stack[0]})| < |store.Keys - seen|
  {
    var g := stack[0];
    assert g in Elements(stack);
    assert Elements(stack) == {g} + Elements(stack[1..]);
    var found := set v | v in store[g] :: v.graph;
    assert VertexGraphs(store, {g}) == found by { assert g in {g}; }
    assert {g} <= Visited(store, {self});
    forall x | x in found ensures x in VertexGraphs(store, Visited(store, {self})) { }
    assert store.Keys - seen == (store.Keys - (seen + {g})) + {g};
  }

  lemma WalkEnds(store: Store, self: Graph<Vertex>, seen: set<Graph<Vertex>>, merged: set<Graph<Vertex>>)
    requires Walk(store, self, seen, {}, merged)
    ensures merged == Visited(store, {self})
  {
    VisitedIsLeast(store, {self}, merged);
  }

  /** `_connect_graphs`: merges every graph met from `self`, each vertex's graph being walked in turn.
      The graphs may contain each other and themselves. */
  method ConnectGraphs(self: Graph<Vertex>, ghost world: set<Graph<Vertex>>) returns (flat: Graph<JobId>)
    requires self in world && ClosedStore(Contents(world))
    ensures fresh(flat)
    ensures flat.adj.Keys == AllJobs(Contents(world), Visited(Contents(world), {self}))
    ensures EdgesOf(flat.adj) == AllLinks(Contents(world), Visited(Contents(world), {self}))
  {
    hide Walk, Visited, VertexGraphs, ClosedStore;
    ghost var store := Contents(world);
    flat := new Graph();
    assert FlatHolds(flat, store, {});
    MergeOne(flat, self, store, {});
    ghost var merged := {self};
    assert {} + {self} == merged;
    var seen: set<Graph<Vertex>> := {};
    var visitStack := [self];
    assert Elements(visitStack) == {self};
    WalkStarts(store, self);
    while visitStack != []
      invariant Contents(world) == store
      invariant FlatHolds(flat, store, merged)
      invariant Walk(store, self, seen, Elements(visitStack), merged)
      decreases |store.Keys - seen|, |visitStack|
    {
      var current := visitStack[0];
      if current in seen {
        WalkSkips(store, self, seen, visitStack, merged);
        visitStack := visitStack[1..];
      } else {
        WalkSteps(store, self, seen, visitStack, merged);
        assert store[current] == current.adj;
        visitStack, merged := MergeVertexGraphs(flat, current, visitStack[1..], world, merged);
        seen := seen + {current};
      }
    }
    assert Elements(visitStack) == {};
    WalkEnds(store, self, seen, merged);
  }

  // ---------------------------------------------------------------- the flat graph is closed

  /** The jobs of an object are vertices of its own graph, or of its elements' graphs. */
  ghost predicate Anchored(store: Store, v: Vertex) {
    && v.graph in store
    && match v
       case Delayable(g, _) => v in store[g]
       case DelayableChain(g, head, tail) => head in store[g] && tail in store[g]
       case DelayableGroup(g, delayables) => delayables <= store[g].Keys
  }

  /** What the constructors and `on_done` leave behind: children are vertices, vertices are anchored. */
  ghost predicate WellFormed(store: Store) {
    forall g {:trigger WellFormedGraph(store, g)} :: g in store ==> WellFormedGraph(store, g)
  }

  ghost predicate WellFormedGraph(store: Store, g: Graph<Vertex>)
    requires g in store
  {
    Closed(store[g]) && forall v {:trigger Anchored(store, v)} :: v in store[g] ==> Anchored(store, v)
  }

  lemma {:induction false} EndsAreVertices(store: Store, r: set<Graph<Vertex>>, g: Graph<Vertex>, v: Vertex)
    requires WellFormed(store) && VertexGraphs(store, r) <= r
    requires g in r && g in store && v in store[g]
    ensures TailJobs(v) <= AllJobs(store, r) && HeadJobs(v) <= AllJobs(store, r)
    decreases v
  {
    TailsAreJobs(v, store[g].Keys);
    hide Closed;
    assert v.graph in VertexGraphs(store, r);
    assert WellFormedGraph(store, g);
    assert Anchored(store, v);
    match v
    case Delayable(_, _) =>
    case DelayableChain(own, head, _) =>
      TailsAreJobs(head, store[own].Keys);
    case DelayableGroup(own, delayables) =>
      forall node | node in delayables ensures HeadJobs(node) <= AllJobs(store, r) {
        EndsAreVertices(store, r, own, node);
      }
  }

  /** However the graphs contain each other, every neighbour of the flat graph is one of its vertices. */
  lemma FlatIsClosed(store: Store, self: Graph<Vertex>)
    requires ClosedStore(store) && WellFormed(store) && self in store
    ensures Within(AllLinks(store, Visited(store, {self})), AllJobs(store, Visited(store, {self})))
  {
    var r := Visited(store, {self});
    forall link | link in AllLinks(store, r) ensures link.0 in AllJobs(store, r) && link.1 in AllJobs(store, r) {
      var g :| g in r && g in store && link in LinksFrom(EdgesOf(store[g]));
      var edge :| edge in EdgesOf(store[g]) && link in Cross(TailJobs(edge.0), HeadJobs(edge.1));
      assert WellFormedGraph(store, g);
      EndsAreVertices(store, r, g, edge.0);
      EndsAreVertices(store, r, g, edge.1);
    }
  }

  // ---------------------------------------------------------------- constructors

  ghost function Consecutive<V>(vs: seq<V>): Edges<V> {
    if |vs| < 2 then {} else {(vs[0], vs[1])} + Consecutive(vs[1..])
  }

  /** `Delayable(...)`: its graph holds just itself. */
  method NewDelayable(id: JobId) returns (v: Vertex)
    ensures v.Delayable? && v.id == id && fresh(v.graph)
    ensures v.graph.adj == map[v := {}]
  {
    var graph := new Graph();
    v := Delayable(graph, id);
    graph.AddVertex(v);
  }

  lemma ConsecutiveOne<V>(vs: seq<V>)
    requires |vs| < 2
    ensures Consecutive(vs) == {}
  {
  }

  /** `chain(...)`. Without arguments the code raises StopIteration. */
  method NewChain(delayables: seq<Vertex>) returns (v: Vertex)
    requires delayables != []
    ensures v.DelayableChain? && fresh(v.graph)
    ensures v.head == delayables[0] && v.tail == delayables[|delayables| - 1]
    ensures v.graph.adj.Keys == Elements(delayables) && EdgesOf(v.graph.adj) == Consecutive(delayables)
  {
    hide Consecutive;
    var graph := new Graph();
    var head := delayables[0];
    graph.AddVertex(head);
    assert Consecutive(delayables[..1]) == {} by { ConsecutiveOne(delayables[..1]); }
    assert Elements(delayables[..1]) == {delayables[0]};
    for i := 1 to |delayables|
      invariant graph.adj.Keys == Elements(delayables[..i]) && head == delayables[i - 1]
      invariant EdgesOf(graph.adj) == Consecutive(delayables[..i])
      invariant fresh(graph)
    {
      var neighbour := delayables[i];
      graph.AddEdge(head, neighbour);
      ConsecutiveAppend(delayables[..i], neighbour);
      AppendDistinct(delayables[..i], neighbour);
      assert delayables[..i] + [neighbour] == delayables[..i + 1];
      head := neighbour;
    }
    assert delayables[..|delayables|] == delayables;
    v := DelayableChain(graph, delayables[0], head);
  }

  lemma {:induction false} ConsecutiveAppend<V>(vs: seq<V>, x: V)
    requires vs != []
    ensures Consecutive(vs + [x]) == Consecutive(vs) + {(vs[|vs| - 1], x)}
  {
    if |vs| > 1 {
      ConsecutiveAppend(vs[1..], x);
      assert (vs + [x])[1..] == vs[1..] + [x];
    } else {
      assert (vs + [x])[1..] == [x];
    }
  }

  /** `group(...)`. */
  method NewGroup(delayables: seq<Vertex>) returns (v: Vertex)
    ensures v.DelayableGroup? && fresh(v.graph)
    ensures v.delayables == Elements(delayables)
    ensures v.graph.adj.Keys == Elements(delayables) && EdgesOf(v.graph.adj) == {}
  {
    var graph := new Graph();
    for i := 0 to |delayables|
      invariant graph.adj.Keys == Elements(delayables[..i]) && EdgesOf(graph.adj) == {}
      invariant fresh(graph)
    {
      graph.AddVertex(delayables[i]);
      AppendDistinct(delayables[..i], delayables[i]);
      assert delayables[..i] + [delayables[i]] == delayables[..i + 1];
    }
    assert delayables[..|delayables|] == delayables;
    v := DelayableGroup(graph, set d | d in delayables);
  }

  /** The vertices of its own graph from which `on_done` links start. */
  function Ends(v: Vertex): set<Vertex> {
    match v
    case Delayable(_, _) => {v}
    case DelayableChain(_, _, tail) => {tail}
    case DelayableGroup(_, delayables) => delayables
  }

  method LinkToAll(graph: Graph<Vertex>, parent: Vertex, children: seq<Vertex>)
    modifies graph
    ensures EdgesOf(graph.adj) == old(EdgesOf(graph.adj)) + Cross({parent}, Elements(children))
    ensures graph.adj.Keys == old(graph.adj).Keys + if children == [] then {} else {parent} + Elements(children)
  {
    hide EdgesOf, Cross;
    CrossOfNone({parent}, Elements(children[..0]));
    for i := 0 to |children|
      invariant EdgesOf(graph.adj) == old(EdgesOf(graph.adj)) + Cross({parent}, Elements(children[..i]))
      invariant graph.adj.Keys == old(graph.adj).Keys + if i == 0 then {} else {parent} + Elements(children[..i])
    {
      graph.AddEdge(parent, children[i]);
      AppendDistinct(children[..i], children[i]);
      assert children[..i] + [children[i]] == children[..i + 1];
      CrossAppend({parent}, Elements(children[..i]), {}, {children[i]});
      CrossOfOne(parent, children[i]);
    }
    assert children[..|children|] == children;
  }

  /** `on_done(...)` of all three classes: links every end of `v` to every child. */
  method OnDone(v: Vertex, children: seq<Vertex>)
    modifies v.graph
    ensures EdgesOf(v.graph.adj) == old(EdgesOf(v.graph.adj)) + Cross(Ends(v), Elements(children))
    ensures v.graph.adj.Keys == old(v.graph.adj).Keys +
              if children == [] || Ends(v) == {} then {} else Ends(v) + Elements(children)
  {
    hide EdgesOf, Cross;
    var todo := Ends(v);
    ghost var done: set<Vertex> := {};
    CrossOfNone({}, Elements(children));
    while todo != {}
      invariant todo + done == Ends(v) && todo !! done
      invariant EdgesOf(v.graph.adj) == old(EdgesOf(v.graph.adj)) + Cross(done, Elements(children))
      invariant v.graph.adj.Keys == old(v.graph.adj).Keys +
                if children == [] || done == {} then {} else done + Elements(children)
    {
      var parent :| parent in todo;
      LinkToAll(v.graph, parent, children);
      CrossAppend(done, Elements(children), {parent}, {});
      todo := todo - {parent};
      done := done + {parent};
    }
    assert done == Ends(v);
  }

  lemma CrossOfNone<V>(xs: set<V>, ys: set<V>)
    ensures xs == {} || ys == {} ==> Cross(xs, ys) == {}
  {
  }

  lemma CrossOfOne<V>(x: V, y: V)
    ensures Cross({x}, {y}) == {(x, y)}
  {
  }

  lemma CrossAppend<V>(xs: set<V>, ys: set<V>, xs': set<V>, ys': set<V>)
    ensures Cross(xs + xs', ys) == Cross(xs, ys) + Cross(xs', ys)
    ensures Cross(xs, ys + ys') == Cross(xs, ys) + Cross(xs, ys')
  {
  }
}
