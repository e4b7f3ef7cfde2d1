/** The `Graph` class of queue_job/delay.py: vertices mapped to their sets of children,
    with its topological sort and its enumeration of cycle-free paths. */
module DelayGraph {
  import opened Digraphs

  type Adjacency<V(==)> = map<V, set<V>>

  function EdgesOf<V>(adj: Adjacency<V>): Edges<V> {
    set u, v | u in adj && v in adj[u] :: (u, v)
  }

  /** Every child is itself a vertex: what `add_edge` keeps. */
  ghost predicate Closed<V>(adj: Adjacency<V>) {
    forall u | u in adj :: adj[u] <= adj.Keys
  }

  class Graph<V(==)> {
    var adj: Adjacency<V>

    constructor ()
      ensures adj == map[]
    {
      adj := map[];
    }

    method AddVertex(vertex: V)
      modifies this
      ensures adj == if vertex in old(adj) then old(adj) else old(adj)[vertex := {}]
      ensures old(Closed(adj)) ==> Closed(adj)
    {
      if vertex !in adj {
        adj := adj[vertex := {}];
      }
    }

    /** Adds the edge and both its ends, and nothing else. */
    method AddEdge(parent: V, child: V)
      modifies this
      ensures adj.Keys == old(adj).Keys + {parent, child}
      ensures EdgesOf(adj) == old(EdgesOf(adj)) + {(parent, child)}
      ensures old(Closed(adj)) ==> Closed(adj)
    {
      AddVertex(child);
      var children := if parent in adj then adj[parent] else {};
      adj := adj[parent := children + {child}];
    }

    /** The vertices without a parent. */
    method RootVertices() returns (roots: set<V>)
      ensures roots == set v | v in adj && Parents(EdgesOf(adj), v) == {}
    {
      var dependencyVertices: set<V> := {};
      var todo := adj.Keys;
      while todo != {}
        invariant todo <= adj.Keys
        invariant dependencyVertices == set u, v | u in adj.Keys - todo && v in adj[u] :: v
      {
        var u :| u in todo;
        dependencyVertices := dependencyVertices + adj[u];
        todo := todo - {u};
      }
      roots := adj.Keys - dependencyVertices;
      forall v | v in adj ensures v in roots <==> Parents(EdgesOf(adj), v) == {} {
        if v in dependencyVertices {
          var u :| u in adj && v in adj[u];
          assert (u, v) in EdgesOf(adj);
          assert u in Parents(EdgesOf(adj), v);
        }
      }
    }
  }

  // ---------------------------------------------------------------- topological sort

  ghost predicate Counted<V(!new)>(e: Edges<V>, depends: map<V, int>) {
    && (forall v :: v in depends <==> Parents(e, v) != {})
    && (forall v | v in depends :: depends[v] == |Parents(e, v)|)
  }

  lemma CountOne<V(!new)>(e: Edges<V>, depends: map<V, int>, edge: (V, V))
    requires Counted(e, depends) && edge !in e
    ensures Counted(e + {edge}, depends[edge.1 := (if edge.1 in depends then depends[edge.1] else 0) + 1])
  {
    hide Parents;
    forall v ensures Parents(e + {edge}, v) == if v == edge.1 then Parents(e, v) + {edge.0} else Parents(e, v) {
      ParentsOfOneMore(e, edge, v);
    }
    ParentsOfOneMore(e, edge, edge.1);
  }

  lemma ParentsOfOneMore<V>(e: Edges<V>, edge: (V, V), v: V)
    requires edge !in e
    ensures Parents(e + {edge}, v) == if v == edge.1 then Parents(e, v) + {edge.0} else Parents(e, v)
    ensures v == edge.1 ==> edge.0 !in Parents(e, v)
  {
    if v == edge.1 { assert (edge.0, v) !in e; }
  }

  /** Counts the parents of every vertex that has one. */
  method CountDependencies<V(==,!new)>(graph: Graph<V>) returns (depends: map<V, int>)
    ensures Counted(EdgesOf(graph.adj), depends)
  {
    hide Counted;
    depends := map[];
    var edges := EdgesOf(graph.adj);
    ghost var counted: Edges<V> := {};
    assert Counted(counted, depends) by { CountNone<V>(); }
    while edges != {}
      invariant edges + counted == EdgesOf(graph.adj) && edges !! counted
      invariant Counted(counted, depends)
    {
      var edge :| edge in edges;
      CountOne(counted, depends, edge);
      var tail := edge.1;
      depends := depends[tail := (if tail in depends then depends[tail] else 0) + 1];
      counted := counted + {edge};
      edges := edges - {edge};
    }
    assert counted == EdgesOf(graph.adj);
  }

  lemma CountNone<V(!new)>()
    ensures Counted<V>({}, map[])
  {
  }

  /** `missing` gives the parents of every vertex that have not been resolved yet. A vertex is listed
      (yielded or queued) when it misses none; `depends` counts the misses of the non-roots. */
  ghost predicate Progress<V(!new)>(missing: map<V, set<V>>, depends: map<V, int>, listed: seq<V>) {
    && NoDuplicates(listed)
    && (forall v :: v in listed <==> v in missing && missing[v] == {})
    && (forall v | v in depends :: v in missing && depends[v] == |missing[v]|)
    && (forall v | v in missing && v !in depends :: missing[v] == {})
  }

  ghost function Without<V>(missing: map<V, set<V>>, x: V): map<V, set<V>> {
    map v | v in missing :: missing[v] - {x}
  }

  /** The child `node` of `x` learns that `x` is resolved. */
  lemma ProgressStep<V(!new)>(missing: map<V, set<V>>, depends: map<V, int>, listed: seq<V>, x: V, node: V)
    requires Progress(missing, depends, listed) && node in missing && x in missing[node]
    ensures node in depends
    ensures Progress(missing[node := missing[node] - {x}], depends[node := depends[node] - 1],
                     if depends[node] == 1 then listed + [node] else listed)
  {
    assert missing[node] == (missing[node] - {x}) + {x};
    AppendDistinct(listed, node);
  }

  /** The inner loop of the sort: `vertex` has just been yielded; every child loses one dependency
      and is queued when it has none left. */
  method ReleaseChildren<V(==,!new)>(graph: Graph<V>, vertex: V, depends: map<V, int>, queue: seq<V>,
                                     ghost order: seq<V>, ghost missing: map<V, set<V>>)
    returns (depends': map<V, int>, queue': seq<V>)
    requires vertex in graph.adj
    requires forall v :: v in graph.adj[vertex] <==> v in missing && vertex in missing[v]
    requires Progress(missing, depends, order + queue)
    ensures Progress(Without(missing, vertex), depends', order + queue')
  {
    hide Progress;
    depends', queue' := depends, queue;
    var todo := graph.adj[vertex];
    ghost var left := missing;
    while todo != {}
      invariant todo <= graph.adj[vertex] && left.Keys == missing.Keys
      invariant forall v | v in missing :: left[v] == if v in todo then missing[v] else missing[v] - {vertex}
      invariant Progress(left, depends', order + queue')
    {
      var node :| node in todo;
      ProgressStep(left, depends', order + queue', vertex, node);
      left := left[node := left[node] - {vertex}];
      depends' := depends'[node := depends'[node] - 1];
      if depends'[node] == 0 {
        assert order + (queue' + [node]) == (order + queue') + [node];
        queue' := queue' + [node];
      }
      todo := todo - {node};
    }
    assert left == Without(missing, vertex);
  }

  /** The parents of every vertex that are not in `done`. */
  ghost function Missing<V>(adj: Adjacency<V>, done: set<V>): map<V, set<V>> {
    map v | v in adj :: Parents(EdgesOf(adj), v) - done
  }

  /** Yields, in an order that puts parents first, exactly the vertices that are neither on a cycle
      nor below one. Nothing is assumed of the graph but that children are vertices. */
  method TopologicalSort<V(==,!new)>(graph: Graph<V>) returns (order: seq<V>)
    requires Closed(graph.adj)
    ensures NoDuplicates(order)
    ensures ParentsFirst(EdgesOf(graph.adj), order)
    ensures forall v :: v in order <==> v in graph.adj && !BelowCycle(EdgesOf(graph.adj), v)
  {
    hide Progress, Counted, Missing, Closed, Without, ParentsFirst, NoDuplicates, BelowCycle, EdgesOf, Elements;
    var depends := CountDependencies(graph);
    var roots := graph.RootVertices();
    var queue := Enumerate(roots);
    order := [];
    assert order + queue == queue;
    ghost var missing := Missing(graph.adj, {});
    ProgressFromRoots(graph.adj, depends, queue);
    while queue != []
      invariant missing == Missing(graph.adj, Elements(order))
      invariant Progress(missing, depends, order + queue)
      invariant ParentsFirst(EdgesOf(graph.adj), order)
      decreases |graph.adj| - |order|
    {
      var vertex := queue[0];
      NextIsReady(graph.adj, missing, depends, order, queue);
      MissingChildren(graph.adj, order, vertex);
      queue := queue[1..];
      order := order + [vertex];
      depends, queue := ReleaseChildren(graph, vertex, depends, queue, order, missing);
      missing := Missing(graph.adj, Elements(order));
    }
    assert order + queue == order;
    SortedExactly(graph.adj, depends, order);
  }

  lemma ProgressFromRoots<V(!new)>(adj: Adjacency<V>, depends: map<V, int>, queue: seq<V>)
    requires Closed(adj)
    requires NoDuplicates(queue) && forall v :: v in queue <==> v in adj && Parents(EdgesOf(adj), v) == {}
    requires Counted(EdgesOf(adj), depends)
    ensures Elements<V>([]) == {} && ParentsFirst(EdgesOf(adj), [])
    ensures Progress(Missing(adj, {}), depends, queue)
  {
    var missing := Missing(adj, {});
    forall v | v in adj ensures missing[v] == Parents(EdgesOf(adj), v) { }
    forall v | v in depends ensures v in adj {
      var u :| u in Parents(EdgesOf(adj), v);
      assert (u, v) in EdgesOf(adj);
    }
  }

  lemma MissingChildren<V(!new)>(adj: Adjacency<V>, order: seq<V>, x: V)
    requires Closed(adj) && x in adj && x !in order
    ensures forall v :: v in adj[x] <==>
              v in Missing(adj, Elements(order)) && x in Missing(adj, Elements(order))[v]
    ensures Missing(adj, Elements(order + [x])) == Without(Missing(adj, Elements(order)), x)
  {
    forall v | v in adj ensures v in adj[x] <==> x in Parents(EdgesOf(adj), v) {
      assert v in adj[x] <==> (x, v) in EdgesOf(adj);
    }
    AppendDistinct(order, x);
    forall v | v in adj
      ensures Parents(EdgesOf(adj), v) - Elements(order + [x]) == Parents(EdgesOf(adj), v) - Elements(order) - {x} { }
  }

  /** The first vertex of the queue has not been yielded and has all its parents before it. */
  lemma NextIsReady<V(!new)>(adj: Adjacency<V>, missing: map<V, set<V>>, depends: map<V, int>,
                             order: seq<V>, queue: seq<V>)
    requires queue != [] && ParentsFirst(EdgesOf(adj), order)
    requires missing == Missing(adj, Elements(order))
    requires Progress(missing, depends, order + queue)
    ensures queue[0] in adj && queue[0] !in order
    ensures ParentsFirst(EdgesOf(adj), order + [queue[0]])
    ensures (order + [queue[0]]) + queue[1..] == order + queue
    ensures |order| < |adj|
  {
    var listed, vertex := order + queue, queue[0];
    assert listed[|order|] == vertex && vertex in listed;
    assert vertex !in listed[..|order|];
    assert listed[..|order|] == order;
    assert Parents(EdgesOf(adj), vertex) <= Elements(order) by {
      assert missing[vertex] == {};
      forall y | y in Parents(EdgesOf(adj), vertex) ensures y in Elements(order) {
        assert y !in Parents(EdgesOf(adj), vertex) - Elements(order);
      }
    }
    ParentsFirstAppend(EdgesOf(adj), order, vertex);
    DistinctSize(listed);
    SubsetSize(Elements(listed), adj.Keys);
  }

  lemma ParentsFirstAppend<V>(e: Edges<V>, order: seq<V>, v: V)
    requires ParentsFirst(e, order) && Parents(e, v) <= Elements(order)
    ensures ParentsFirst(e, order + [v])
  {
    var longer := order + [v];
    forall edge, j | edge in e && 0 <= j < |longer| && longer[j] == edge.1 ensures edge.0 in longer[..j] {
      if j < |order| {
        assert longer[..j] == order[..j];
      } else {
        assert longer[..j] == order;
        assert edge.0 in Parents(e, v);
      }
    }
  }

  /** When the queue is empty, what is missing from the order is closed under taking some parent. */
  lemma SortedExactly<V(!new)>(adj: Adjacency<V>, depends: map<V, int>, order: seq<V>)
    requires Closed(adj) && ParentsFirst(EdgesOf(adj), order)
    requires Progress(Missing(adj, Elements(order)), depends, order)
    ensures NoDuplicates(order)
    ensures forall v :: v in order <==> v in adj && !BelowCycle(EdgesOf(adj), v)
  {
    var e := EdgesOf(adj);
    var rest := adj.Keys - Elements(order);
    forall x | x in rest ensures HasParentIn(e, rest, x) {
      UnsortedHasParent(adj, depends, order, x);
    }
    forall v ensures v in order <==> v in adj && !BelowCycle(e, v) {
      if v in order {
        var j :| 0 <= j < |order| && order[j] == v;
        ListedIsNotBelowCycle(e, order, j);
      } else if v in adj {
        ParentsForeverMeansCycle(e, rest, v);
      }
    }
  }

  lemma UnsortedHasParent<V(!new)>(adj: Adjacency<V>, depends: map<V, int>, order: seq<V>, x: V)
    requires Progress(Missing(adj, Elements(order)), depends, order) && x in adj && x !in order
    ensures HasParentIn(EdgesOf(adj), adj.Keys - Elements(order), x)
  {
    var y :| y in Missing(adj, Elements(order))[x];
    assert (y, x) in EdgesOf(adj);
  }

  /** All vertices are sorted if and only if the graph has no cycle. */
  lemma SortIsTotalIffAcyclic<V(!new)>(adj: Adjacency<V>, order: seq<V>)
    requires Closed(adj)
    requires forall v :: v in order <==> v in adj && !BelowCycle(EdgesOf(adj), v)
    ensures Elements(order) == adj.Keys <==> Acyclic(EdgesOf(adj))
  {
    var e := EdgesOf(adj);
    if !Acyclic(e) {
      var x :| Reach(e, x, x);
      var y := FirstEdge(e, x, x);
      assert x in adj && ReachOrSame(e, x, x);
      assert BelowCycle(e, x);
    }
  }

  // ---------------------------------------------------------------- cycle-free paths

  /** A path without repetition whose last vertex has no child outside it. */
  ghost predicate MaximalPath<V>(adj: Adjacency<V>, p: seq<V>) {
    && IsPath(EdgesOf(adj), p) && NoDuplicates(p)
    && p[|p| - 1] in adj && adj[p[|p| - 1]] <= Elements(p)
  }

  /** The variables `path` and `seen` shared by the nested calls of `search`. */
  class PathSearch<V(==,!new)> {
    const graph: Graph<V>
    var path: seq<V>
    var seen: set<V>

    ghost predicate Valid()
      reads this, graph
    {
      && Closed(graph.adj)
      && IsPath(EdgesOf(graph.adj), path) && NoDuplicates(path)
      && seen == Elements(path) <= graph.adj.Keys
    }

    constructor (graph: Graph<V>, vertex: V)
      requires Closed(graph.adj) && vertex in graph.adj
      ensures Valid() && path == [vertex] && this.graph == graph
    {
      this.graph := graph;
      path := [vertex];
      seen := {vertex};
    }

    method Search() returns (found: seq<seq<V>>)
      requires Valid()
      modifies this
      ensures Valid() && path == old(path) && seen == old(seen)
      ensures NoDuplicates(found)
      ensures forall p :: p in found <==> path <= p && MaximalPath(graph.adj, p)
      decreases |graph.adj| - |path|
    {
      hide Found, MaximalPath, IsPath;
      ghost var prefix := path;
      found := [];
      FoundNothing(graph.adj, path);
      var last := path[|path| - 1];
      var deadEnd := true;
      var todo := graph.adj[last];
      while todo != {}
        invariant todo <= graph.adj[last] && path == prefix && Valid()
        invariant deadEnd <==> graph.adj[last] - todo <= seen
        invariant Found(graph.adj, path, todo, found)
        decreases |todo|
      {
        var neighbour :| neighbour in todo;
        if neighbour !in seen {
          deadEnd := false;
          PathGrows(graph.adj, path, neighbour);
          seen := seen + {neighbour};
          path := path + [neighbour];
          var more := Search();
          path := path[..|path| - 1];
          seen := seen - {neighbour};
          assert path == prefix;
          FoundMore(graph.adj, path, todo, found, neighbour, more);
          found := found + more;
        } else {
          FoundSeen(graph.adj, path, todo, found, neighbour);
        }
        todo := todo - {neighbour};
      }
      FoundAll(graph.adj, path, found);
      if deadEnd {
        found := [path];
      }
    }
  }

  /** `found` has, each once, the maximal proper extensions of `prefix` by a neighbour not in `todo`. */
  ghost predicate Found<V(!new)>(adj: Adjacency<V>, prefix: seq<V>, todo: set<V>, found: seq<seq<V>>) {
    && NoDuplicates(found)
    && forall p :: p in found <==> Extends(prefix, p) && p[|prefix|] !in todo && MaximalPath(adj, p)
  }

  lemma FoundNothing<V(!new)>(adj: Adjacency<V>, prefix: seq<V>)
    requires IsPath(EdgesOf(adj), prefix) && Elements(prefix) <= adj.Keys
    ensures prefix != [] && prefix[|prefix| - 1] in Elements(prefix)
    ensures Found(adj, prefix, adj[prefix[|prefix| - 1]], [])
  {
    forall p | Extends(prefix, p) && MaximalPath(adj, p) ensures p[|prefix|] in adj[prefix[|prefix| - 1]] {
      assert Adjacent(EdgesOf(adj), p, |prefix| - 1);
    }
  }

  lemma FoundSeen<V(!new)>(adj: Adjacency<V>, prefix: seq<V>, todo: set<V>, found: seq<seq<V>>, v: V)
    requires Found(adj, prefix, todo, found) && v in prefix
    ensures Found(adj, prefix, todo - {v}, found)
  {
    var i :| 0 <= i < |prefix| && prefix[i] == v;
    forall p | Extends(prefix, p) && MaximalPath(adj, p) ensures p[|prefix|] != v {
      assert p[i] == prefix[i];
    }
  }

  lemma FoundMore<V(!new)>(adj: Adjacency<V>, prefix: seq<V>, todo: set<V>, found: seq<seq<V>>, v: V, more: seq<seq<V>>)
    requires Found(adj, prefix, todo, found) && v in todo
    requires NoDuplicates(more) && forall p :: p in more <==> prefix + [v] <= p && MaximalPath(adj, p)
    ensures Found(adj, prefix, todo - {v}, found + more)
  {
    forall p ensures prefix + [v] <= p <==> Extends(prefix, p) && p[|prefix|] == v {
      if Extends(prefix, p) && p[|prefix|] == v { assert p[..|prefix| + 1] == prefix + [v]; }
    }
    var all := found + more;
    forall i, j | 0 <= i < j < |all| ensures all[i] != all[j] {
      if i < |found| <= j {
        assert all[i] in found && all[j] in more;
      }
    }
    forall p ensures p in all <==> p in found || p in more { }
  }

  lemma ExtensionRepeats<V(!new)>(adj: Adjacency<V>, prefix: seq<V>, p: seq<V>)
    requires prefix != [] && prefix[|prefix| - 1] in adj && adj[prefix[|prefix| - 1]] <= Elements(prefix)
    requires Extends(prefix, p) && IsPath(EdgesOf(adj), p)
    ensures !NoDuplicates(p)
  {
    assert Adjacent(EdgesOf(adj), p, |prefix| - 1);
    var i :| 0 <= i < |prefix| && prefix[i] == p[|prefix|];
    assert p[i] == p[|prefix|];
  }

  /** Once every neighbour is treated: all maximal paths that begin with `prefix` are found, or
      `prefix` is the only one. */
  lemma FoundAll<V(!new)>(adj: Adjacency<V>, prefix: seq<V>, found: seq<seq<V>>)
    requires IsPath(EdgesOf(adj), prefix) && NoDuplicates(prefix) && prefix[|prefix| - 1] in adj
    requires Found(adj, prefix, {}, found)
    ensures NoDuplicates(found)
    ensures forall p :: prefix <= p && MaximalPath(adj, p) <==>
              if adj[prefix[|prefix| - 1]] <= Elements(prefix) then p == prefix else p in found
  {
    var last := prefix[|prefix| - 1];
    if adj[last] <= Elements(prefix) {
      forall p | prefix <= p && MaximalPath(adj, p) ensures p == prefix {
        if Extends(prefix, p) { ExtensionRepeats(adj, prefix, p); }
      }
    } else {
      forall p | prefix <= p && MaximalPath(adj, p) ensures Extends(prefix, p) {
        assert p[..|prefix|] == prefix;
      }
    }
  }

  ghost predicate Extends<V>(prefix: seq<V>, p: seq<V>) {
    prefix < p
  }

  lemma PathGrows<V>(adj: Adjacency<V>, path: seq<V>, v: V)
    requires Closed(adj) && IsPath(EdgesOf(adj), path) && NoDuplicates(path) && Elements(path) <= adj.Keys
    requires (path[|path| - 1], v) in EdgesOf(adj) && v !in path
    ensures IsPath(EdgesOf(adj), path + [v]) && NoDuplicates(path + [v])
    ensures Elements(path + [v]) == Elements(path) + {v}
    ensures v in adj && |path| + 1 <= |adj|
  {
    AppendDistinct(path, v);
    PathAppend(EdgesOf(adj), path, [v]);
    DistinctSize(path + [v]);
    SubsetSize(Elements(path + [v]), adj.Keys);
  }

  /** Exactly the maximal cycle-free paths from `vertex`, each once. */
  method Paths<V(==,!new)>(graph: Graph<V>, vertex: V) returns (found: seq<seq<V>>)
    requires Closed(graph.adj) && vertex in graph.adj
    ensures NoDuplicates(found)
    ensures forall p :: p in found <==> MaximalPath(graph.adj, p) && p[0] == vertex
  {
    var search := new PathSearch(graph, vertex);
    found := search.Search();
    forall p | MaximalPath(graph.adj, p) ensures p[0] == vertex <==> [vertex] <= p {
      if p[0] == vertex { assert p[..1] == [vertex]; }
    }
  }
}
