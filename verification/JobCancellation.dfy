/** How far the cancellation of jobs goes (`cancel_dependent_jobs`, queue_job/job.py): what one click
    cancels, and which waiting jobs some sequence of clicks can cancel. */
module JobCancellation {
  import opened Digraphs
  import opened Terms
  import opened JobProtocol

  type States = map<JobId, JobState>

  // ---------------------------------------------------------------- one click

  /** Cancelling `f` cancels all jobs that depend on it if and only if each of them is `f` itself, or
      already cancelled, or a waiting child of `f` whose other parents are all cancelled. */
  lemma OneClickCancelsAllIff(e: Edges<JobId>, q: Queue, f: JobId)
    requires Within(e, q.state.Keys) && Enabled(q, ButtonCancel(f))
    ensures (forall d :: d in q.state && Reach(e, f, d) ==> Next(e, q, ButtonCancel(f)).state[d] == Cancelled) <==>
            (forall d :: d in q.state && Reach(e, f, d) ==>
               || d == f || q.state[d] == Cancelled
               || (q.state[d] == WaitDependencies && (f, d) in e
                   && AllParents(e, q.state[f := Cancelled], d, Cancelled)))
  {
  }

  /** Three chained jobs, from `delay()`: the first fails and is cancelled with the second; the third
      waits, and no sequence of further cancellations changes that. */
  lemma ChainIsCutAtChildren(a: JobId, b: JobId, c: JobId, more: seq<Step>)
    requires a != b && b != c && a != c
    ensures var e := {(a, b), (b, c)};
            var q, steps := Initial(e, {a, b, c}), [Enqueue(a), Start(a), Fail(a), ButtonCancel(a)];
            && Legal(e, q, steps)
            && After(e, q, steps) == Three(a, Cancelled, b, Cancelled, c, WaitDependencies, {})
            && (Legal(e, After(e, q, steps), more) && AllClicks(more) ==>
                  After(e, After(e, q, steps), more).state[c] == WaitDependencies)
  {
    hide Enabled, Next, Initial;
    var e := {(a, b), (b, c)};
    ChainSteps(a, b, c);
    var rest := [Fail(a)] + [ButtonCancel(a)];
    var last := Three(a, Cancelled, b, Cancelled, c, WaitDependencies, {});
    TakeStep(e, Three(a, Failed, b, WaitDependencies, c, WaitDependencies, {}), ButtonCancel(a), []);
    TakeStep(e, Three(a, Started, b, WaitDependencies, c, WaitDependencies, {}), Fail(a), [ButtonCancel(a)]);
    TakeStep(e, Three(a, Enqueued, b, WaitDependencies, c, WaitDependencies, {}), Start(a), rest);
    TakeStep(e, Three(a, Pending, b, WaitDependencies, c, WaitDependencies, {}), Enqueue(a), [Start(a)] + rest);
    assert [Enqueue(a)] + ([Start(a)] + rest) == [Enqueue(a), Start(a), Fail(a), ButtonCancel(a)];
    if Legal(e, last, more) && AllClicks(more) {
      forall p | p in CancellableParents(e, last.state, c) ensures false { }
      OutOfReach(e, last, more, c);
    }
  }

  lemma ChainSteps(a: JobId, b: JobId, c: JobId)
    requires a != b && b != c && a != c
    ensures var e := {(a, b), (b, c)};
      && Initial(e, {a, b, c}) == Three(a, Pending, b, WaitDependencies, c, WaitDependencies, {})
      && Leads(e, Three(a, Pending, b, WaitDependencies, c, WaitDependencies, {}), Enqueue(a),
               Three(a, Enqueued, b, WaitDependencies, c, WaitDependencies, {}))
      && Leads(e, Three(a, Enqueued, b, WaitDependencies, c, WaitDependencies, {}), Start(a),
               Three(a, Started, b, WaitDependencies, c, WaitDependencies, {}))
      && Leads(e, Three(a, Started, b, WaitDependencies, c, WaitDependencies, {}), Fail(a),
               Three(a, Failed, b, WaitDependencies, c, WaitDependencies, {}))
      && Leads(e, Three(a, Failed, b, WaitDependencies, c, WaitDependencies, {}), ButtonCancel(a),
               Three(a, Cancelled, b, Cancelled, c, WaitDependencies, {}))
  {
    assert (a, b) in {(a, b), (b, c)} && (b, c) in {(a, b), (b, c)};
  }

  // ---------------------------------------------------------------- sequences of clicks

  predicate AllClicks(steps: seq<Step>) {
    forall i :: 0 <= i < |steps| ==> steps[i].ButtonCancel?
  }

  /** The button accepts the job. */
  predicate Cancellable(s: JobState) {
    s in {Pending, Enqueued, Failed}
  }

  function CancellableParents(e: Edges<JobId>, state: States, w: JobId): set<JobId> {
    set edge | edge in e && edge.1 == w && edge.0 in state && Cancellable(state[edge.0]) :: edge.0
  }

  /** Some sequence of clicks leaves `j` cancelled. */
  ghost predicate CanBeCancelled(e: Edges<JobId>, q: Queue, j: JobId)
    requires j in q.state
  {
    exists steps :: Legal(e, q, steps) && AllClicks(steps) && After(e, q, steps).state[j] == Cancelled
  }

  /** The dependencies of waiting jobs on waiting jobs. */
  function WaitingLinks(e: Edges<JobId>, state: States): Edges<JobId> {
    set edge | edge in e && edge.0 in state && edge.1 in state
            && state[edge.0] == WaitDependencies && state[edge.1] == WaitDependencies
  }

  /** The waiting jobs that `j` depends on through waiting jobs, and `j` itself. */
  ghost function WaitingAbove(e: Edges<JobId>, state: States, j: JobId): set<JobId> {
    set w | w in state && state[w] == WaitDependencies && ReachOrSame(WaitingLinks(e, state), w, j)
  }

  ghost function LinksAbove(e: Edges<JobId>, state: States, j: JobId): Edges<JobId> {
    set link | link in WaitingLinks(e, state) && link.1 in WaitingAbove(e, state, j)
  }

  /** What has to be clicked for the parents of the links to go. */
  function Held(e: Edges<JobId>, state: States, links: Edges<JobId>): set<JobId> {
    set link, x | link in links && x in CancellableParents(e, state, link.0) :: x
  }

  /** Every click that could cancel a child of the links would have to precede itself. */
  ghost predicate Stuck(e: Edges<JobId>, state: States, links: Edges<JobId>) {
    forall link :: link in links ==> CancellableParents(e, state, link.1) <= Held(e, state, links)
  }

  ghost predicate NothingStuck(e: Edges<JobId>, state: States, links: Edges<JobId>) {
    forall t :: t <= links && t != {} ==> !Stuck(e, state, t)
  }

  /** One of its parents can be clicked, and the others are cancelled, or can be clicked, or wait. */
  predicate ParentsCanGo(e: Edges<JobId>, state: States, w: JobId) {
    && CancellableParents(e, state, w) != {}
    && forall edge | edge in e && edge.1 == w :: edge.0 in state && CanGo(state[edge.0])
  }

  predicate CanGo(s: JobState) {
    s in {Cancelled, WaitDependencies} || Cancellable(s)
  }

  /** What can be seen before the clicks. */
  ghost predicate WithinReach(e: Edges<JobId>, state: States, j: JobId) {
    && (forall w :: w in WaitingAbove(e, state, j) ==> ParentsCanGo(e, state, w))
    && NothingStuck(e, state, LinksAbove(e, state, j))
  }

  // ---------------------------------------------------------------- what a click changes

  lemma ClickChanges(e: Edges<JobId>, q: Queue, x: JobId, p: JobId)
    requires Enabled(q, ButtonCancel(x)) && p in q.state
    requires Next(e, q, ButtonCancel(x)).state[p] != q.state[p]
    ensures Next(e, q, ButtonCancel(x)).state[p] == Cancelled
    ensures p == x || (q.state[p] == WaitDependencies && (x, p) in e)
    ensures p != x ==> forall edge | edge in e && edge.1 == p ::
                         edge.0 in q.state && (edge.0 == x || q.state[edge.0] == Cancelled)
  {
    if p != x {
      var clicked := q.state[x := Cancelled];
      assert AllParents(e, clicked, p, Cancelled);
      forall edge | edge in e && edge.1 == p
        ensures edge.0 in q.state && (edge.0 == x || q.state[edge.0] == Cancelled)
      {
        assert edge.0 in clicked && clicked[edge.0] == Cancelled;
      }
    }
  }

  lemma ClickParents(e: Edges<JobId>, q: Queue, x: JobId, w: JobId)
    requires Enabled(q, ButtonCancel(x))
    ensures CancellableParents(e, Next(e, q, ButtonCancel(x)).state, w) == CancellableParents(e, q.state, w) - {x}
  {
  }

  lemma {:induction false} CancelledStays(e: Edges<JobId>, q: Queue, steps: seq<Step>, j: JobId)
    requires Legal(e, q, steps) && AllClicks(steps) && j in q.state && q.state[j] == Cancelled
    ensures After(e, q, steps).state[j] == Cancelled
    decreases |steps|
  {
    if steps != [] { CancelledStays(e, Next(e, q, steps[0]), steps[1..], j); }
  }

  lemma FirstClick(e: Edges<JobId>, q: Queue, steps: seq<Step>) returns (x: JobId, r: Queue)
    requires Legal(e, q, steps) && AllClicks(steps) && steps != []
    ensures steps[0] == ButtonCancel(x) && Enabled(q, ButtonCancel(x)) && r == Next(e, q, ButtonCancel(x))
    ensures Legal(e, r, steps[1..]) && AllClicks(steps[1..])
    ensures After(e, q, steps) == After(e, r, steps[1..])
  {
    x := steps[0].job;
    r := Next(e, q, steps[0]);
  }

  // ---------------------------------------------------------------- only if

  /** A waiting job that ends cancelled had a parent to click, and all its parents end cancelled. */
  lemma {:induction false} CancelledNeeds(e: Edges<JobId>, q: Queue, steps: seq<Step>, w: JobId)
    requires Legal(e, q, steps) && AllClicks(steps)
    requires w in q.state && q.state[w] == WaitDependencies && After(e, q, steps).state[w] == Cancelled
    ensures ParentsCanGo(e, q.state, w)
    ensures forall edge | edge in e && edge.1 == w :: edge.0 in q.state && After(e, q, steps).state[edge.0] == Cancelled
    decreases |steps|
  {
    hide Next, Enabled, Legal, After;
    hide CancellableParents;
    EmptyRun(e, q, steps);
    var x, r := FirstClick(e, q, steps);
    if r.state[w] == Cancelled {
      CancelledNow(e, q, x, w);
      forall edge | edge in e && edge.1 == w
        ensures edge.0 in q.state && After(e, r, steps[1..]).state[edge.0] == Cancelled
      {
        CancelledStays(e, r, steps[1..], edge.0);
      }
    } else {
      if r.state[w] != q.state[w] { ClickChanges(e, q, x, w); }
      CancelledNeeds(e, r, steps[1..], w);
      ClickParents(e, q, x, w);
      forall edge | edge in e && edge.1 == w ensures edge.0 in q.state && CanGo(q.state[edge.0]) {
        if r.state[edge.0] != q.state[edge.0] { ClickChanges(e, q, x, edge.0); EnabledCancel(q, x); }
      }
    }
  }

  lemma EnabledCancel(q: Queue, x: JobId)
    requires Enabled(q, ButtonCancel(x))
    ensures x in q.state && Cancellable(q.state[x])
  {
  }

  lemma EmptyRun(e: Edges<JobId>, q: Queue, steps: seq<Step>)
    requires Legal(e, q, steps)
    ensures steps == [] ==> After(e, q, steps) == q
  {
  }

  lemma CancelledNow(e: Edges<JobId>, q: Queue, x: JobId, w: JobId)
    requires Enabled(q, ButtonCancel(x)) && w in q.state && q.state[w] == WaitDependencies
    requires Next(e, q, ButtonCancel(x)).state[w] == Cancelled
    ensures ParentsCanGo(e, q.state, w) && x in CancellableParents(e, q.state, w)
    ensures forall edge | edge in e && edge.1 == w ::
              edge.0 in q.state && Next(e, q, ButtonCancel(x)).state[edge.0] == Cancelled
  {
    ClickChanges(e, q, x, w);
    assert (x, w).0 in q.state;
    assert x in CancellableParents(e, q.state, w);
  }

  /** Links between waiting jobs whose children all end cancelled are not stuck: after the first click,
      those that remain links are not, by induction; the others held nothing but that click. */
  lemma {:induction false} CancelledLinksAreNotStuck(e: Edges<JobId>, q: Queue, steps: seq<Step>, links: Edges<JobId>)
    requires Legal(e, q, steps) && AllClicks(steps)
    requires links != {} && links <= WaitingLinks(e, q.state)
    requires forall link :: link in links ==> After(e, q, steps).state[link.1] == Cancelled
    ensures !Stuck(e, q.state, links)
    decreases |steps|
  {
    hide Next, Enabled, Legal, After, CancellableParents, Held;
    EmptyRun(e, q, steps);
    var some := AnyOf(links);
    var x, r := FirstClick(e, q, steps);
    ChildrenStillWait(e, q, x, links);
    var left := set link | link in links && r.state[link.0] == WaitDependencies;
    if left != {} {
      CancelledLinksAreNotStuck(e, r, steps[1..], left);
      var link :| link in left && !(CancellableParents(e, r.state, link.1) <= Held(e, r.state, left));
      var y := NotWithin(CancellableParents(e, r.state, link.1), Held(e, r.state, left));
      InParents(e, r.state, link.1, y);
      NotHeldBefore(e, q, x, links, left, y);
      ClickParents(e, q, x, link.1);
    } else {
      CancelledNeeds(e, r, steps[1..], some.1);
      var y := AnyOf(CancellableParents(e, r.state, some.1));
      NothingHeld(e, r.state, y);
      InParents(e, r.state, some.1, y);
      assert left == {};
      NotHeldBefore(e, q, x, links, left, y);
      ClickParents(e, q, x, some.1);
    }
  }

  lemma NotWithin<T>(a: set<T>, b: set<T>) returns (x: T)
    requires !(a <= b)
    ensures x in a && x !in b
  {
    x :| x in a && x !in b;
  }

  lemma InParents(e: Edges<JobId>, state: States, w: JobId, x: JobId)
    ensures x in CancellableParents(e, state, w) <==> (x, w) in e && x in state && Cancellable(state[x])
  {
    assert (x, w) in e ==> (x, w).1 == w;
  }

  lemma NothingHeld(e: Edges<JobId>, state: States, y: JobId)
    ensures y !in Held(e, state, {})
  {
  }

  lemma ChildrenStillWait(e: Edges<JobId>, q: Queue, x: JobId, links: Edges<JobId>)
    requires Enabled(q, ButtonCancel(x)) && links <= WaitingLinks(e, q.state)
    ensures forall link :: link in links ==> Next(e, q, ButtonCancel(x)).state[link.1] == WaitDependencies
    ensures forall link :: link in links ==> Next(e, q, ButtonCancel(x)).state[link.0] in {WaitDependencies, Cancelled}
  {
    forall link | link in links ensures Next(e, q, ButtonCancel(x)).state[link.1] == WaitDependencies {
      if Next(e, q, ButtonCancel(x)).state[link.1] != q.state[link.1] {
        ClickChanges(e, q, x, link.1);
      }
    }
    forall link | link in links ensures Next(e, q, ButtonCancel(x)).state[link.0] in {WaitDependencies, Cancelled} {
      if Next(e, q, ButtonCancel(x)).state[link.0] != q.state[link.0] { ClickChanges(e, q, x, link.0); }
    }
  }

  /** What is not held after a click, and can still be clicked, was not held before it. */
  lemma NotHeldBefore(e: Edges<JobId>, q: Queue, x: JobId, links: Edges<JobId>, left: Edges<JobId>, y: JobId)
    requires Enabled(q, ButtonCancel(x)) && links <= WaitingLinks(e, q.state)
    requires var r := Next(e, q, ButtonCancel(x));
             && left == (set link | link in links && r.state[link.0] == WaitDependencies)
             && y !in Held(e, r.state, left) && y in r.state && Cancellable(r.state[y])
    ensures y !in Held(e, q.state, links)
  {
    hide Next, Enabled, CancellableParents, Cancellable;
    var r := Next(e, q, ButtonCancel(x));
    forall link | link in links ensures y !in CancellableParents(e, q.state, link.0) {
      InParents(e, q.state, link.0, y);
      InParents(e, r.state, link.0, y);
      if y in CancellableParents(e, q.state, link.0) {
        StillWaits(e, q, x, link.0, y);
      }
    }
  }

  /** A waiting job with a parent that can still be clicked is not cancelled by the click. */
  lemma StillWaits(e: Edges<JobId>, q: Queue, x: JobId, v: JobId, y: JobId)
    requires Enabled(q, ButtonCancel(x)) && v in q.state && q.state[v] == WaitDependencies
    requires (y, v) in e && y in q.state && Cancellable(q.state[y])
    requires Cancellable(Next(e, q, ButtonCancel(x)).state[y])
    ensures Next(e, q, ButtonCancel(x)).state[v] == WaitDependencies
  {
    if Next(e, q, ButtonCancel(x)).state[v] != q.state[v] {
      ClickChanges(e, q, x, v);
      assert (y, v).0 == x;
      ClickedIsCancelled(e, q, x);
    }
  }

  lemma OnlyIf(e: Edges<JobId>, q: Queue, steps: seq<Step>, j: JobId)
    requires j in q.state && q.state[j] == WaitDependencies
    requires Legal(e, q, steps) && AllClicks(steps) && After(e, q, steps).state[j] == Cancelled
    ensures WithinReach(e, q.state, j)
  {
    hide Legal, After, ReachOrSame, ParentsCanGo, Stuck;
    var links, end := WaitingLinks(e, q.state), After(e, q, steps).state;
    forall w | w in WaitingAbove(e, q.state, j) ensures end[w] == Cancelled {
      AboveIsCancelled(e, q, steps, w, j);
    }
    forall w | w in WaitingAbove(e, q.state, j) ensures ParentsCanGo(e, q.state, w) {
      CancelledNeeds(e, q, steps, w);
    }
    forall t | t <= LinksAbove(e, q.state, j) && t != {} ensures !Stuck(e, q.state, t) {
      CancelledLinksAreNotStuck(e, q, steps, t);
    }
  }

  lemma AboveIsCancelled(e: Edges<JobId>, q: Queue, steps: seq<Step>, w: JobId, j: JobId)
    requires j in q.state && q.state[j] == WaitDependencies && w in WaitingAbove(e, q.state, j)
    requires Legal(e, q, steps) && AllClicks(steps) && After(e, q, steps).state[j] == Cancelled
    ensures After(e, q, steps).state[w] == Cancelled
  {
    hide Legal, After, Reach, ParentsCanGo;
    var links, end := WaitingLinks(e, q.state), After(e, q, steps).state;
    if end[w] != Cancelled && w != j {
      var kept := set v | v in q.state && end[v] != Cancelled;
      forall link | link in links && link.0 in kept ensures link.1 in kept {
        if end[link.1] == Cancelled { CancelledNeeds(e, q, steps, link.1); }
      }
      ReachStaysIn(links, kept, w, j);
    }
  }

  /** A waiting job without a parent to click is out of reach. */
  lemma OutOfReach(e: Edges<JobId>, q: Queue, steps: seq<Step>, j: JobId)
    requires j in q.state && q.state[j] == WaitDependencies && CancellableParents(e, q.state, j) == {}
    requires Legal(e, q, steps) && AllClicks(steps)
    ensures After(e, q, steps).state[j] == WaitDependencies
  {
    WaitsOrCancelled(e, q, steps, j);
    if After(e, q, steps).state[j] == Cancelled { CancelledNeeds(e, q, steps, j); }
  }

  lemma {:induction false} WaitsOrCancelled(e: Edges<JobId>, q: Queue, steps: seq<Step>, j: JobId)
    requires j in q.state && q.state[j] in {WaitDependencies, Cancelled}
    requires Legal(e, q, steps) && AllClicks(steps)
    ensures After(e, q, steps).state[j] in {WaitDependencies, Cancelled}
    decreases |steps|
  {
    if steps != [] {
      var x, r := FirstClick(e, q, steps);
      WaitsOrCancelled(e, r, steps[1..], j);
    }
  }

  // ---------------------------------------------------------------- if

  /** Some parent of the child is clicked after all the parents of the parent. */
  ghost predicate ChildLater(e: Edges<JobId>, state: States, link: (JobId, JobId), order: seq<JobId>) {
    exists i :: 0 <= i < |order| && order[i] in CancellableParents(e, state, link.1)
             && forall k :: i <= k < |order| ==> order[k] !in CancellableParents(e, state, link.0)
  }

  ghost predicate ChildrenLater(e: Edges<JobId>, state: States, links: Edges<JobId>, order: seq<JobId>) {
    forall link :: link in links ==> ChildLater(e, state, link, order)
  }

  lemma {:induction false} Listed(s: set<JobId>) returns (order: seq<JobId>)
    ensures NoDuplicates(order) && Elements(order) == s
  {
    if s == {} {
      order := [];
    } else {
      var x := AnyOf(s);
      var rest := Listed(s - {x});
      AppendDistinct(rest, x);
      order := rest + [x];
    }
  }

  /** Where nothing is stuck there is an order of the clicks: what is not held can be clicked last. */
  lemma {:induction false} ClickOrder(e: Edges<JobId>, state: States, links: Edges<JobId>, clicks: set<JobId>)
    returns (order: seq<JobId>)
    requires NothingStuck(e, state, links)
    requires forall link :: link in links ==>
      CancellableParents(e, state, link.0) <= clicks && CancellableParents(e, state, link.1) <= clicks
    ensures NoDuplicates(order) && Elements(order) == clicks && ChildrenLater(e, state, links, order)
    decreases |links|
  {
    hide CancellableParents, Held;
    if links == {} {
      order := Listed(clicks);
    } else {
      assert !Stuck(e, state, links);
      var link :| link in links && !(CancellableParents(e, state, link.1) <= Held(e, state, links));
      var x := NotWithin(CancellableParents(e, state, link.1), Held(e, state, links));
      var left := set m | m in links && x !in CancellableParents(e, state, m.1);
      forall m | m in links ensures x !in CancellableParents(e, state, m.0) { NotHeld(e, state, links, m, x); }
      assert link !in left;
      SubsetSize(left, links);
      var front := ClickOrder(e, state, left, clicks - {x});
      AppendDistinct(front, x);
      order := front + [x];
      forall m | m in links ensures ChildLater(e, state, m, order) {
        LastClick(e, state, m, front, x);
      }
    }
  }

  lemma NotHeld(e: Edges<JobId>, state: States, links: Edges<JobId>, link: (JobId, JobId), x: JobId)
    requires link in links && x !in Held(e, state, links)
    ensures x !in CancellableParents(e, state, link.0)
  {
  }

  lemma LastClick(e: Edges<JobId>, state: States, link: (JobId, JobId), front: seq<JobId>, x: JobId)
    requires x !in CancellableParents(e, state, link.0)
    requires x in CancellableParents(e, state, link.1) || ChildLater(e, state, link, front)
    ensures ChildLater(e, state, link, front + [x])
  {
    hide CancellableParents;
    var order := front + [x];
    var i := |front|;
    if x !in CancellableParents(e, state, link.1) {
      i :| 0 <= i < |front| && front[i] in CancellableParents(e, state, link.1)
           && forall k :: i <= k < |front| ==> front[k] !in CancellableParents(e, state, link.0);
    }
    assert order[i] in CancellableParents(e, state, link.1);
    assert forall k :: i <= k < |order| ==> order[k] !in CancellableParents(e, state, link.0);
  }

  /** Before the click `n` of the order, from the states `start`: what has all its parents clicked is cancelled. */
  ghost predicate Clicked(e: Edges<JobId>, start: States, q: Queue, j: JobId, order: seq<JobId>, n: nat)
    requires n <= |order|
  {
    && q.state.Keys == start.Keys
    && (forall k :: 0 <= k < |order| ==> order[k] in start)
    && (forall k :: 0 <= k < n ==> q.state[order[k]] == Cancelled)
    && (forall k :: n <= k < |order| ==> q.state[order[k]] == start[order[k]])
    && (forall p :: p in start && start[p] == Cancelled ==> q.state[p] == Cancelled)
    && (forall w :: w in WaitingAbove(e, start, j) ==>
          && q.state[w] in {WaitDependencies, Cancelled}
          && (CancellableParents(e, start, w) <= Elements(order[..n]) ==> q.state[w] == Cancelled))
  }

  ghost predicate GoodOrder(e: Edges<JobId>, start: States, j: JobId, order: seq<JobId>) {
    && NoDuplicates(order)
    && (forall x :: x in order ==> x in start && Cancellable(start[x]))
    && (forall w :: w in WaitingAbove(e, start, j) ==>
          ParentsCanGo(e, start, w) && CancellableParents(e, start, w) <= Elements(order))
    && ChildrenLater(e, start, LinksAbove(e, start, j), order)
  }

  /** All parents of `w` are cancelled once its last cancellable one is. */
  lemma ParentsAreCancelled(e: Edges<JobId>, start: States, q: Queue, j: JobId, order: seq<JobId>, n: nat, w: JobId)
    requires n < |order| && GoodOrder(e, start, j, order) && Clicked(e, start, q, j, order, n)
    requires w in WaitingAbove(e, start, j) && CancellableParents(e, start, w) <= Elements(order[..n + 1])
    ensures AllParents(e, q.state[order[n] := Cancelled], w, Cancelled)
  {
    forall edge | edge in e && edge.1 == w
      ensures edge.0 in q.state && q.state[order[n] := Cancelled][edge.0] == Cancelled
    {
      var p := edge.0;
      if Cancellable(start[p]) {
        assert p in CancellableParents(e, start, w);
        assert p in order[..n + 1];
      } else if start[p] == WaitDependencies {
        WaitingParentIsCancelled(e, start, q, j, order, n, p, w);
      }
    }
  }

  lemma WaitingParentIsCancelled(e: Edges<JobId>, start: States, q: Queue, j: JobId, order: seq<JobId>, n: nat,
                                 p: JobId, w: JobId)
    requires n < |order| && GoodOrder(e, start, j, order) && Clicked(e, start, q, j, order, n)
    requires w in WaitingAbove(e, start, j) && CancellableParents(e, start, w) <= Elements(order[..n + 1])
    requires (p, w) in e && p in start && start[p] == WaitDependencies
    ensures q.state[p] == Cancelled
  {
    hide CancellableParents, ParentsCanGo, ReachOrSame;
    var link := (p, w);
    LinkAbove(e, start, j, p, w);
    assert ChildLater(e, start, link, order);
    var i :| 0 <= i < |order| && order[i] in CancellableParents(e, start, w)
             && forall k :: i <= k < |order| ==> order[k] !in CancellableParents(e, start, p);
    assert order[i] in order[..n + 1];
    assert i <= n;
    forall x | x in CancellableParents(e, start, p) ensures x in order[..n] {
      assert x in Elements(order);
      var k :| 0 <= k < |order| && order[k] == x;
      assert order[..n][k] == x;
    }
  }

  lemma LinkAbove(e: Edges<JobId>, start: States, j: JobId, p: JobId, w: JobId)
    requires w in WaitingAbove(e, start, j) && (p, w) in e && p in start && start[p] == WaitDependencies
    ensures p in WaitingAbove(e, start, j) && (p, w) in LinksAbove(e, start, j)
  {
    var links := WaitingLinks(e, start);
    assert (p, w) in links;
    EdgeReaches(links, p, w);
    ReachThenSame(links, p, w, j);
  }

  lemma ClickNext(e: Edges<JobId>, start: States, q: Queue, j: JobId, order: seq<JobId>, n: nat)
    requires n < |order| && GoodOrder(e, start, j, order) && Clicked(e, start, q, j, order, n)
    ensures Enabled(q, ButtonCancel(order[n]))
    ensures Clicked(e, start, Next(e, q, ButtonCancel(order[n])), j, order, n + 1)
  {
    hide CancellableParents, ParentsCanGo, ReachOrSame, ChildrenLater, AllParents, Reach;
    var x := order[n];
    assert x in order;
    assert Enabled(q, ButtonCancel(x));
    var r := Next(e, q, ButtonCancel(x));
    forall p | p in q.state && r.state[p] != q.state[p]
      ensures r.state[p] == Cancelled && (p == x || q.state[p] == WaitDependencies) { ClickChanges(e, q, x, p); }
    assert r.state[x] == Cancelled by { ClickedIsCancelled(e, q, x); }
    forall k | n + 1 <= k < |order| ensures r.state[order[k]] == start[order[k]] {
      assert order[k] in order && order[k] != x;
    }
    forall w | w in WaitingAbove(e, start, j) && CancellableParents(e, start, w) <= Elements(order[..n + 1])
      ensures r.state[w] == Cancelled
    {
      ParentsAreCancelled(e, start, q, j, order, n, w);
      assert order[..n + 1] == order[..n] + [x];
      if !(CancellableParents(e, start, w) <= Elements(order[..n])) && q.state[w] != Cancelled {
        LastParentCancels(e, start, q, x, w);
      }
    }
  }

  lemma ClickedIsCancelled(e: Edges<JobId>, q: Queue, x: JobId)
    requires Enabled(q, ButtonCancel(x))
    ensures Next(e, q, ButtonCancel(x)).state[x] == Cancelled
  {
  }

  lemma LastParentCancels(e: Edges<JobId>, start: States, q: Queue, x: JobId, w: JobId)
    requires Enabled(q, ButtonCancel(x)) && w in q.state && q.state[w] == WaitDependencies
    requires x in CancellableParents(e, start, w) && AllParents(e, q.state[x := Cancelled], w, Cancelled)
    ensures Next(e, q, ButtonCancel(x)).state[w] == Cancelled
  {
  }

  function Clicks(order: seq<JobId>): (steps: seq<Step>)
    ensures |steps| == |order| && AllClicks(steps)
  {
    seq(|order|, i requires 0 <= i < |order| => ButtonCancel(order[i]))
  }

  lemma {:induction false} ClickAll(e: Edges<JobId>, start: States, q: Queue, j: JobId, order: seq<JobId>, n: nat)
    requires n <= |order| && GoodOrder(e, start, j, order) && Clicked(e, start, q, j, order, n)
    ensures Legal(e, q, Clicks(order[n..]))
    ensures Clicked(e, start, After(e, q, Clicks(order[n..])), j, order, |order|)
    decreases |order| - n
  {
    hide Clicked, GoodOrder, Enabled, Next;
    if n < |order| {
      var x := order[n];
      ClickNext(e, start, q, j, order, n);
      var rest := Clicks(order[n + 1..]);
      ClickAll(e, start, Next(e, q, ButtonCancel(x)), j, order, n + 1);
      TakeStep(e, q, ButtonCancel(x), rest);
      assert Clicks(order[n..]) == [ButtonCancel(x)] + rest;
    } else {
      assert Clicks(order[n..]) == [];
    }
  }

  lemma IfWithinReach(e: Edges<JobId>, q: Queue, j: JobId)
    requires j in q.state && q.state[j] == WaitDependencies && WithinReach(e, q.state, j)
    ensures CanBeCancelled(e, q, j)
  {
    hide ParentsCanGo, NothingStuck, Reach, Legal, After, ChildrenLater;
    var above := WaitingAbove(e, q.state, j);
    var clicks := set edge | edge in e && edge.1 in above && edge.0 in q.state
        && Cancellable(q.state[edge.0]) :: edge.0;
    forall w | w in above ensures CancellableParents(e, q.state, w) <= clicks { }
    forall link | link in LinksAbove(e, q.state, j) ensures link.0 in above && link.1 in above {
      LinkAbove(e, q.state, j, link.0, link.1);
    }
    var order := ClickOrder(e, q.state, LinksAbove(e, q.state, j), clicks);
    forall x | x in order ensures x in q.state && Cancellable(q.state[x]) { assert x in clicks; }
    assert order[..0] == [];
    forall w | w in above ensures !(CancellableParents(e, q.state, w) <= Elements(order[..0])) {
      HasCancellableParent(e, q.state, w);
    }
    assert Clicked(e, q.state, q, j, order, 0);
    ClickAll(e, q.state, q, j, order, 0);
    assert order[0..] == order && order[..|order|] == order;
    var steps := Clicks(order);
    assert j in above;
    assert After(e, q, steps).state[j] == Cancelled;
  }

  lemma HasCancellableParent(e: Edges<JobId>, state: States, w: JobId)
    requires ParentsCanGo(e, state, w)
    ensures CancellableParents(e, state, w) != {}
  {
  }

  // ---------------------------------------------------------------- the exact condition

  /** Which jobs some sequence of clicks can cancel: those already cancelled or that the button accepts,
      and the waiting ones within reach. */
  lemma CanBeCancelledIff(e: Edges<JobId>, q: Queue, j: JobId)
    requires j in q.state
    ensures CanBeCancelled(e, q, j) <==>
            || q.state[j] == Cancelled || Cancellable(q.state[j])
            || (q.state[j] == WaitDependencies && WithinReach(e, q.state, j))
  {
    hide WithinReach, Legal, After;
    if q.state[j] == WaitDependencies {
      if WithinReach(e, q.state, j) { IfWithinReach(e, q, j); }
      if CanBeCancelled(e, q, j) {
        var steps :| Legal(e, q, steps) && AllClicks(steps) && After(e, q, steps).state[j] == Cancelled;
        OnlyIf(e, q, steps, j);
      }
    } else {
      NotWaiting(e, q, j);
    }
  }

  lemma NotWaiting(e: Edges<JobId>, q: Queue, j: JobId)
    requires j in q.state && q.state[j] != WaitDependencies
    ensures CanBeCancelled(e, q, j) <==> q.state[j] == Cancelled || Cancellable(q.state[j])
  {
    if q.state[j] == Cancelled {
      assert Legal(e, q, []) && After(e, q, []).state[j] == Cancelled;
    } else if Cancellable(q.state[j]) {
      TakeStep(e, q, ButtonCancel(j), []);
      assert Legal(e, q, [ButtonCancel(j)] + []) && AllClicks([ButtonCancel(j)] + []);
    } else if CanBeCancelled(e, q, j) {
      var steps :| Legal(e, q, steps) && AllClicks(steps) && After(e, q, steps).state[j] == Cancelled;
      RunningStays(e, q, steps, j);
    }
  }

  lemma {:induction false} RunningStays(e: Edges<JobId>, q: Queue, steps: seq<Step>, j: JobId)
    requires j in q.state && q.state[j] in {Started, Done} && Legal(e, q, steps) && AllClicks(steps)
    ensures After(e, q, steps).state[j] == q.state[j]
    decreases |steps|
  {
    if steps != [] { RunningStays(e, Next(e, q, steps[0]), steps[1..], j); }
  }

  /** Computes the largest stuck part of the links: drops, while there is one, a link with a child that
      some click outside what is held can cancel. */
  function StuckPart(e: Edges<JobId>, state: States, links: Edges<JobId>): Edges<JobId>
    decreases links
  {
    var left := set link | link in links && CancellableParents(e, state, link.1) <= Held(e, state, links);
    if left == links then links else StuckPart(e, state, left)
  }

  /** The last condition of `WithinReach` can be computed. */
  lemma {:induction false} StuckPartDecides(e: Edges<JobId>, state: States, links: Edges<JobId>)
    ensures NothingStuck(e, state, links) <==> StuckPart(e, state, links) == {}
    decreases links
  {
    hide CancellableParents, Held;
    var left := set link | link in links && CancellableParents(e, state, link.1) <= Held(e, state, links);
    forall t | t <= links && Stuck(e, state, t) ensures t <= left {
      HeldGrows(e, state, t, links);
    }
    if left != links {
      StuckPartDecides(e, state, left);
    } else {
      assert Stuck(e, state, links);
      assert links <= links;
    }
  }

  lemma HeldGrows(e: Edges<JobId>, state: States, t: Edges<JobId>, links: Edges<JobId>)
    requires t <= links
    ensures Held(e, state, t) <= Held(e, state, links)
  {
  }

  /** A grandchild can go: 1 -> 2 -> 3 <- 4 with 1 and 4 failed, clicked in this order. */
  lemma GrandchildWithTwoFailures()
    ensures var e := {(1, 2), (2, 3), (4, 3)};
            var q := Queue(map[1 := Failed, 2 := WaitDependencies, 3 := WaitDependencies, 4 := Failed], {});
            && Legal(e, q, [ButtonCancel(1), ButtonCancel(4)])
            && After(e, q, [ButtonCancel(1), ButtonCancel(4)]).state[3] == Cancelled
            && After(e, q, [ButtonCancel(1)]).state[3] == WaitDependencies
  {
  }
}
