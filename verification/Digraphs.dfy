/** Finite directed graphs given by their set of edges.

    Paths and reachability (`IsPath`, `Reach`), cycles and what lies below them (`BelowCycle`), orders in
    which parents come first (`ParentsFirst`), and how reachability in a graph made of two parts and the
    links between them is that of the parts (`Composed`).

    Also the few facts about sets and sequences without duplicates that several modules need, and the
    choice of an arbitrary element, which models the iteration over a Python set or dictionary. */
module Digraphs {

  type Edges<V(==)> = set<(V, V)>

  ghost predicate Adjacent<V>(e: Edges<V>, p: seq<V>, i: nat)
    requires i + 1 < |p|
  {
    (p[i], p[i + 1]) in e
  }

  /** Consecutive vertices of `p` are joined by edges. */
  ghost predicate IsPath<V>(e: Edges<V>, p: seq<V>) {
    |p| > 0 && forall i {:trigger Adjacent(e, p, i)} :: 0 <= i < |p| - 1 ==> Adjacent(e, p, i)
  }

  ghost predicate Joins<V>(e: Edges<V>, p: seq<V>, x: V, y: V) {
    IsPath(e, p) && p[0] == x && p[|p| - 1] == y
  }

  /** A path of at least one edge leads from `x` to `y`. */
  ghost predicate Reach<V(!new)>(e: Edges<V>, x: V, y: V) {
    exists p :: |p| >= 2 && Joins(e, p, x, y)
  }

  ghost predicate ReachOrSame<V(!new)>(e: Edges<V>, x: V, y: V) {
    x == y || Reach(e, x, y)
  }

  ghost predicate ReachesSome<V(!new)>(e: Edges<V>, x: V, targets: set<V>) {
    exists u :: u in targets && ReachOrSame(e, x, u)
  }

  ghost predicate ReachedFromSome<V(!new)>(e: Edges<V>, sources: set<V>, y: V) {
    exists w :: w in sources && ReachOrSame(e, w, y)
  }

  ghost predicate Acyclic<V(!new)>(e: Edges<V>) {
    forall x :: !Reach(e, x, x)
  }

  /** Some cycle of the graph contains `v` or leads to it. */
  ghost predicate BelowCycle<V(!new)>(e: Edges<V>, v: V) {
    exists u :: Reach(e, u, u) && ReachOrSame(e, u, v)
  }

  ghost predicate Transitive<V(!new)>(r: Edges<V>) {
    forall a, b, c :: (a, b) in r && (b, c) in r ==> (a, c) in r
  }

  ghost function Parents<V>(e: Edges<V>, v: V): set<V> {
    set edge | edge in e && edge.1 == v :: edge.0
  }

  ghost predicate Within<V>(e: Edges<V>, s: set<V>) {
    forall edge | edge in e :: edge.0 in s && edge.1 in s
  }

  ghost predicate NoDuplicates<T>(s: seq<T>) {
    forall i, j :: 0 <= i < j < |s| ==> s[i] != s[j]
  }

  /** `x` stands somewhere before `y`. */
  ghost predicate Precedes<T>(s: seq<T>, x: T, y: T) {
    exists i, j :: 0 <= i < j < |s| && s[i] == x && s[j] == y
  }

  ghost function Elements<T>(s: seq<T>): set<T> {
    set x | x in s
  }

  ghost function AnyOf<T>(s: set<T>): (x: T)
    requires s != {}
    ensures x in s
  {
    var x :| x in s; x
  }

  /** Takes an element of a set that is iterated over: which one is left open. */
  method Pick<T(==)>(s: set<T>) returns (x: T)
    requires s != {}
    ensures x in s
  {
    x :| x in s;
  }

  lemma {:induction false} DistinctSize<T>(s: seq<T>)
    requires NoDuplicates(s)
    ensures |Elements(s)| == |s|
  {
    if s != [] {
      var init := s[..|s| - 1];
      DistinctSize(init);
      assert s == init + [s[|s| - 1]];
      assert s[|s| - 1] !in Elements(init);
      assert Elements(s) == Elements(init) + {s[|s| - 1]};
    }
  }

  lemma AppendDistinct<T>(s: seq<T>, x: T)
    ensures Elements(s + [x]) == Elements(s) + {x}
    ensures NoDuplicates(s) && x !in s ==> NoDuplicates(s + [x])
  {
    forall y ensures y in s + [x] <==> y in s || y == x { }
  }

  /** Lists the elements of a set, in an arbitrary order. */
  method Enumerate<V(==)>(s: set<V>) returns (r: seq<V>)
    ensures NoDuplicates(r) && forall v :: v in r <==> v in s
  {
    r := [];
    var todo := s;
    while todo != {}
      invariant todo <= s && NoDuplicates(r)
      invariant forall v :: v in r <==> v in s - todo
    {
      var v :| v in todo;
      AppendDistinct(r, v);
      r := r + [v];
      todo := todo - {v};
    }
  }

  lemma SubsetSize<T>(a: set<T>, b: set<T>)
    requires a <= b
    ensures |a| <= |b|
    ensures |a| == |b| ==> a == b
  {
    assert b == a + (b - a);
  }

  // ---------------------------------------------------------------- reachability

  lemma PathAppend<V>(e: Edges<V>, p: seq<V>, q: seq<V>)
    requires IsPath(e, p) && IsPath(e, q) && (p[|p| - 1], q[0]) in e
    ensures IsPath(e, p + q)
  {
    var r := p + q;
    forall i | 0 <= i < |r| - 1 ensures Adjacent(e, r, i) {
      if i < |p| - 1 {
        assert Adjacent(e, p, i);
      } else if i >= |p| {
        assert Adjacent(e, q, i - |p|);
      }
    }
  }

  lemma SubPath<V>(e: Edges<V>, p: seq<V>, lo: nat, hi: nat)
    requires IsPath(e, p) && lo < hi <= |p|
    ensures IsPath(e, p[lo..hi])
    ensures hi == |p| ==> p[lo..hi] == p[lo..]
  {
    forall i | 0 <= i < hi - lo - 1 ensures Adjacent(e, p[lo..hi], i) {
      assert Adjacent(e, p, lo + i);
    }
  }

  lemma EdgeReaches<V(!new)>(e: Edges<V>, x: V, y: V)
    requires (x, y) in e
    ensures Reach(e, x, y)
  {
    assert Joins(e, [x, y], x, y);
  }

  lemma ReachTransitive<V(!new)>(e: Edges<V>, x: V, y: V, z: V)
    requires Reach(e, x, y) && Reach(e, y, z)
    ensures Reach(e, x, z)
  {
    var p :| |p| >= 2 && Joins(e, p, x, y);
    var q :| |q| >= 2 && Joins(e, q, y, z);
    assert Adjacent(e, q, 0);
    SubPath(e, q, 1, |q|);
    PathAppend(e, p, q[1..]);
    assert Joins(e, p + q[1..], x, z);
  }

  lemma ReachThenSame<V(!new)>(e: Edges<V>, x: V, y: V, z: V)
    requires Reach(e, x, y) && ReachOrSame(e, y, z)
    ensures Reach(e, x, z)
  {
    if y != z { ReachTransitive(e, x, y, z); }
  }

  lemma SameThenReach<V(!new)>(e: Edges<V>, x: V, y: V, z: V)
    requires ReachOrSame(e, x, y) && Reach(e, y, z)
    ensures Reach(e, x, z)
  {
    if x != y { ReachTransitive(e, x, y, z); }
  }

  lemma FirstEdge<V(!new)>(e: Edges<V>, x: V, y: V) returns (z: V)
    requires Reach(e, x, y)
    ensures (x, z) in e && ReachOrSame(e, z, y)
  {
    var p :| |p| >= 2 && Joins(e, p, x, y);
    z := p[1];
    assert Adjacent(e, p, 0);
    SubPath(e, p, 1, |p|);
    if |p| > 2 { assert Joins(e, p[1..], z, y); }
  }

  lemma LastEdge<V(!new)>(e: Edges<V>, x: V, y: V) returns (z: V)
    requires Reach(e, x, y)
    ensures ReachOrSame(e, x, z) && (z, y) in e
  {
    var p :| |p| >= 2 && Joins(e, p, x, y);
    z := p[|p| - 2];
    assert Adjacent(e, p, |p| - 2);
    SubPath(e, p, 0, |p| - 1);
    if |p| > 2 { assert Joins(e, p[..|p| - 1], x, z); }
  }

  lemma RootIsNotReached<V(!new)>(e: Edges<V>, x: V, y: V)
    requires forall edge | edge in e :: edge.1 != y
    ensures !Reach(e, x, y)
  {
    if Reach(e, x, y) { var z := LastEdge(e, x, y); }
  }

  lemma ReachMonotone<V(!new)>(e: Edges<V>, f: Edges<V>, x: V, y: V)
    requires e <= f && Reach(e, x, y)
    ensures Reach(f, x, y)
  {
    var p :| |p| >= 2 && Joins(e, p, x, y);
    forall i | 0 <= i < |p| - 1 ensures Adjacent(f, p, i) { assert Adjacent(e, p, i); }
    assert Joins(f, p, x, y);
  }

  /** A transitive relation that contains the edges contains reachability. */
  lemma {:induction false} ReachWithinTransitive<V(!new)>(e: Edges<V>, r: Edges<V>, x: V, y: V)
    requires e <= r
    requires Transitive(r)
    requires Reach(e, x, y)
    ensures (x, y) in r
  {
    var p :| |p| >= 2 && Joins(e, p, x, y);
    PathWithinTransitive(e, r, p);
  }

  lemma {:induction false} PathWithinTransitive<V(!new)>(e: Edges<V>, r: Edges<V>, p: seq<V>)
    requires e <= r
    requires Transitive(r)
    requires |p| >= 2 && IsPath(e, p)
    ensures (p[0], p[|p| - 1]) in r
  {
    assert Adjacent(e, p, 0);
    if |p| > 2 {
      SubPath(e, p, 1, |p|);
      PathWithinTransitive(e, r, p[1..]);
    }
  }

  /** A set closed under the edges is never left. */
  lemma {:induction false} ReachStaysIn<V(!new)>(e: Edges<V>, s: set<V>, x: V, y: V)
    requires forall edge | edge in e :: edge.0 in s ==> edge.1 in s
    requires Reach(e, x, y) && x in s
    ensures y in s
  {
    var p :| |p| >= 2 && Joins(e, p, x, y);
    PathStaysIn(e, s, p);
  }

  lemma {:induction false} PathStaysIn<V>(e: Edges<V>, s: set<V>, p: seq<V>)
    requires forall edge | edge in e :: edge.0 in s ==> edge.1 in s
    requires IsPath(e, p) && p[0] in s
    ensures forall i :: 0 <= i < |p| ==> p[i] in s
  {
    if |p| > 1 {
      assert Adjacent(e, p, 0);
      SubPath(e, p, 1, |p|);
      PathStaysIn(e, s, p[1..]);
      forall i | 0 <= i < |p| ensures p[i] in s {
        if i > 0 { assert p[i] == p[1..][i - 1]; }
      }
    }
  }

  // ---------------------------------------------------------------- composition

  ghost function Cross<V>(xs: set<V>, ys: set<V>): Edges<V> {
    set x, y | x in xs && y in ys :: (x, y)
  }

  /** All edges of a path that stays in `s`, when only `ea` has edges inside `s`. */
  lemma PathInPart<V>(e: Edges<V>, ea: Edges<V>, s: set<V>, p: seq<V>)
    requires IsPath(e, p)
    requires forall i :: 0 <= i < |p| ==> p[i] in s
    requires forall edge | edge in e && edge.0 in s && edge.1 in s :: edge in ea
    ensures IsPath(ea, p)
  {
    forall i | 0 <= i < |p| - 1 ensures Adjacent(ea, p, i) {
      assert Adjacent(e, p, i);
    }
  }

  /** Two graphs on disjoint vertex sets, joined by all edges from `xs` to `ys`. */
  ghost predicate Composed<V>(e: Edges<V>, a: set<V>, ea: Edges<V>, xs: set<V>, b: set<V>, eb: Edges<V>, ys: set<V>) {
    && a !! b && Within(ea, a) && Within(eb, b) && xs <= a && ys <= b
    && e == ea + eb + Cross(xs, ys)
  }

  lemma ReachInSecond<V(!new)>(e: Edges<V>, a: set<V>, ea: Edges<V>, xs: set<V>,
                               b: set<V>, eb: Edges<V>, ys: set<V>, x: V, y: V)
    requires Composed(e, a, ea, xs, b, eb, ys)
    requires x in b
    ensures Reach(e, x, y) <==> Reach(eb, x, y)
    ensures Reach(e, x, y) ==> y in b
  {
    if Reach(e, x, y) {
      var p :| |p| >= 2 && Joins(e, p, x, y);
      PathStaysIn(e, b, p);
      PathInPart(e, eb, b, p);
      assert Joins(eb, p, x, y);
    }
    if Reach(eb, x, y) { ReachMonotone(eb, e, x, y); }
  }

  lemma {:induction false} ReachFromFirst<V(!new)>(e: Edges<V>, a: set<V>, ea: Edges<V>, xs: set<V>,
                                                  b: set<V>, eb: Edges<V>, ys: set<V>, p: seq<V>)
    requires Composed(e, a, ea, xs, b, eb, ys)
    requires |p| >= 2 && IsPath(e, p) && p[0] in a
    ensures p[|p| - 1] in a ==> Reach(ea, p[0], p[|p| - 1])
    ensures p[|p| - 1] !in a ==>
              && p[|p| - 1] in b
              && ReachesSome(ea, p[0], xs)
              && ReachedFromSome(eb, ys, p[|p| - 1])
  {
    var x, z, y := p[0], p[1], p[|p| - 1];
    assert Adjacent(e, p, 0);
    SubPath(e, p, 1, |p|);
    if z in b {
      assert x in xs && z in ys;
      assert ReachOrSame(ea, x, x);
      if |p| == 2 {
        assert ReachOrSame(eb, z, y);
      } else {
        assert Joins(e, p[1..], z, y);
        ReachInSecond(e, a, ea, xs, b, eb, ys, z, y);
        assert ReachOrSame(eb, z, y);
      }
    } else {
      assert (x, z) in ea;
      EdgeReaches(ea, x, z);
      if |p| > 2 {
        var q := p[1..];
        ReachFromFirst(e, a, ea, xs, b, eb, ys, q);
        assert q[0] == z && q[|q| - 1] == y;
        if y in a {
          ReachTransitive(ea, x, z, y);
        } else {
          var u :| u in xs && ReachOrSame(ea, z, u);
          ReachThenSame(ea, x, z, u);
        }
      }
    }
  }

  /** Reachability of a composed graph, in terms of its parts. */
  lemma {:induction false} ReachComposed<V(!new)>(e: Edges<V>, a: set<V>, ea: Edges<V>, xs: set<V>,
                                                 b: set<V>, eb: Edges<V>, ys: set<V>, x: V, y: V)
    requires Composed(e, a, ea, xs, b, eb, ys)
    ensures Reach(e, x, y) <==>
              || (x in a && y in a && Reach(ea, x, y))
              || (x in b && y in b && Reach(eb, x, y))
              || (x in a && y in b && ReachesSome(ea, x, xs) && ReachedFromSome(eb, ys, y))
  {
    if Reach(e, x, y) {
      var p :| |p| >= 2 && Joins(e, p, x, y);
      assert Adjacent(e, p, 0);
      if x in a {
        ReachFromFirst(e, a, ea, xs, b, eb, ys, p);
      } else {
        ReachInSecond(e, a, ea, xs, b, eb, ys, x, y);
      }
    }
    if x in a && y in a && Reach(ea, x, y) { ReachMonotone(ea, e, x, y); }
    if x in b && y in b && Reach(eb, x, y) { ReachMonotone(eb, e, x, y); }
    if x in a && y in b && ReachesSome(ea, x, xs) && ReachedFromSome(eb, ys, y) {
      var u :| u in xs && ReachOrSame(ea, x, u);
      var w :| w in ys && ReachOrSame(eb, w, y);
      assert (u, w) in e;
      EdgeReaches(e, u, w);
      if x != u { ReachMonotone(ea, e, x, u); }
      if w != y { ReachMonotone(eb, e, w, y); }
      SameThenReach(e, x, u, w);
      ReachThenSame(e, x, w, y);
    }
  }

  // ---------------------------------------------------------------- cycles

  ghost predicate HasParentIn<V(!new)>(e: Edges<V>, s: set<V>, v: V) {
    exists y :: y in s && (y, v) in e
  }

  ghost predicate ParentClosed<V(!new)>(e: Edges<V>, s: set<V>) {
    forall x {:trigger HasParentIn(e, s, x)} :: x in s ==> HasParentIn(e, s, x)
  }

  /** If every vertex of `s` has a parent in `s`, each of them lies on or below a cycle. */
  lemma ParentsForeverMeansCycle<V(!new)>(e: Edges<V>, s: set<V>, v: V)
    requires v in s
    requires ParentClosed(e, s)
    ensures BelowCycle(e, v)
  {
    assert Elements([v]) == {v};
    ClimbToCycle(e, s, [v]);
  }

  lemma {:induction false} ClimbToCycle<V(!new)>(e: Edges<V>, s: set<V>, p: seq<V>)
    requires IsPath(e, p) && NoDuplicates(p) && Elements(p) <= s
    requires ParentClosed(e, s)
    ensures BelowCycle(e, p[|p| - 1])
    decreases |s| - |p|
  {
    assert p[0] in Elements(p);
    assert HasParentIn(e, s, p[0]);
    var w :| w in s && (w, p[0]) in e;
    if w in p {
      ClosedClimb(e, p, w);
    } else {
      var q := [w] + p;
      assert Elements(q) == {w} + Elements(p);
      PathAppend(e, [w], p);
      DistinctSize(q);
      SubsetSize(Elements(q), s);
      ClimbToCycle(e, s, q);
    }
  }

  /** An edge from a vertex of a path back to its start closes a cycle above the path's end. */
  lemma ClosedClimb<V(!new)>(e: Edges<V>, p: seq<V>, w: V)
    requires IsPath(e, p) && w in p && (w, p[0]) in e
    ensures BelowCycle(e, p[|p| - 1])
  {
    var i :| 0 <= i < |p| && p[i] == w;
    EdgeReaches(e, w, p[0]);
    SubPath(e, p, 0, i + 1);
    SubPath(e, p, i, |p|);
    if i > 0 { assert Joins(e, p[..i + 1], p[0], w); }
    ReachThenSame(e, w, p[0], w);
    if i < |p| - 1 { assert Joins(e, p[i..], w, p[|p| - 1]); }
    assert ReachOrSame(e, w, p[|p| - 1]);
  }

  /** `order` lists every parent of each of its vertices before that vertex. */
  ghost predicate ParentsFirst<V>(e: Edges<V>, order: seq<V>) {
    forall edge, j | edge in e && 0 <= j < |order| && order[j] == edge.1 :: edge.0 in order[..j]
  }

  /** In such an order, whatever reaches a listed vertex is listed strictly before it. */
  lemma {:induction false} AncestorsBefore<V(!new)>(e: Edges<V>, order: seq<V>, x: V, j: nat)
    requires ParentsFirst(e, order)
    requires j < |order| && Reach(e, x, order[j])
    ensures x in order[..j]
    decreases j
  {
    var z := LastEdge(e, x, order[j]);
    assert (z, order[j]) in e;
    if x != z {
      var i :| 0 <= i < j && order[i] == z;
      AncestorsBefore(e, order, x, i);
    }
  }

  /** A vertex of such an order, listed once, is not on or below a cycle. */
  lemma {:induction false} ListedIsNotBelowCycle<V(!new)>(e: Edges<V>, order: seq<V>, j: nat)
    requires ParentsFirst(e, order) && NoDuplicates(order)
    requires j < |order|
    ensures !BelowCycle(e, order[j])
  {
    if BelowCycle(e, order[j]) {
      var u :| Reach(e, u, u) && ReachOrSame(e, u, order[j]);
      if u != order[j] { AncestorsBefore(e, order, u, j); }
      var i :| 0 <= i < |order| && order[i] == u;
      AncestorsBefore(e, order, u, i);
    }
  }
}
