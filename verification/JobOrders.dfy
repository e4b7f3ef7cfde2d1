/** Failure-free runs and the direct execution order, and runs that must end. */
module JobOrders {
  import opened Digraphs
  import opened DelayGraph
  import opened Terms
  import opened JobProtocol
  import opened JobRuns

  // ---------------------------------------------------------------- failure-free runs

  predicate FailureFree(steps: seq<Step>) {
    forall i :: 0 <= i < |steps| ==> steps[i].Enqueue? || steps[i].Start? || steps[i].Finish? || steps[i].Wake?
  }

  /** The jobs performed by a run, in order. */
  function Performed(steps: seq<Step>): seq<JobId> {
    if steps == [] then []
    else (if steps[0].Start? then [steps[0].job] else []) + Performed(steps[1..])
  }

  ghost predicate PerformedSoFar(e: Edges<JobId>, q: Queue, order: seq<JobId>) {
    && Regular(e, q)
    && NoDuplicates(order) && ParentsFirst(e, order)
    && (forall j :: j in order <==> j in q.state && q.state[j] in {Started, Done})
    && (forall j :: j in q.state ==> q.state[j] != Failed)
  }

  lemma PerformStep(e: Edges<JobId>, q: Queue, step: Step, order: seq<JobId>)
    requires PerformedSoFar(e, q, order) && Enabled(q, step) && FailureFree([step])
    ensures PerformedSoFar(e, Next(e, q, step), order + if step.Start? then [step.job] else [])
  {
    assert [step][0] == step;
    RegularStep(e, q, step);
    if step.Start? {
      AppendDistinct(order, step.job);
      forall p | p in Parents(e, step.job) ensures p in Elements(order) {
        assert (p, step.job) in e;
      }
      ParentsFirstAppend(e, order, step.job);
    } else {
      assert order + [] == order;
    }
  }

  lemma {:induction false} PerformSteps(e: Edges<JobId>, q: Queue, steps: seq<Step>, order: seq<JobId>)
    requires PerformedSoFar(e, q, order) && Legal(e, q, steps) && FailureFree(steps)
    ensures PerformedSoFar(e, After(e, q, steps), order + Performed(steps))
    decreases |steps|
  {
    if steps == [] {
      assert order + Performed(steps) == order;
    } else {
      hide PerformedSoFar, Enabled, Next;
      var first := if steps[0].Start? then [steps[0].job] else [];
      PerformStep(e, q, steps[0], order);
      PerformSteps(e, Next(e, q, steps[0]), steps[1..], order + first);
      assert order + Performed(steps) == (order + first) + Performed(steps[1..]);
    }
  }

  /** In a failure-free run no job is performed twice, none before its parents; and when such a run
      comes to rest, the performed jobs are exactly those not on or below a cycle (what
      `topological_sort` lists), all of them done: a topological order of the whole graph if it has no cycle. */
  lemma FailureFreeRunIsTopological(e: Edges<JobId>, jobs: set<JobId>, steps: seq<Step>)
    requires Within(e, jobs) && Legal(e, Initial(e, jobs), steps) && FailureFree(steps)
    ensures NoDuplicates(Performed(steps)) && ParentsFirst(e, Performed(steps))
    ensures var q := After(e, Initial(e, jobs), steps);
            Quiescent(q) ==> forall j ::
              && (j in Performed(steps) <==> j in jobs && !BelowCycle(e, j))
              && (j in Performed(steps) <==> j in jobs && q.state[j] == Done)
  {
    var q0 := Initial(e, jobs);
    var q := After(e, q0, steps);
    InitialIsRegular(e, jobs);
    PerformSteps(e, q0, steps, []);
    assert [] + Performed(steps) == Performed(steps);
    if Quiescent(q) {
      Quiescence(e, jobs, steps);
      forall j | j in jobs ensures !BelowFailure(e, q, j) { }
    }
  }

  // ---------------------------------------------------------------- the direct order is a legal run

  /** The jobs performed one after the other, each woken before the next one. */
  function OneByOne(order: seq<JobId>): seq<Step> {
    if order == [] then []
    else [Enqueue(order[0]), Start(order[0]), Finish(order[0]), Wake(order[0])] + OneByOne(order[1..])
  }

  predicate ParentsIn(e: Edges<JobId>, done: set<JobId>, j: JobId) {
    forall edge | edge in e && edge.1 == j :: edge.0 in done
  }

  /** The table when the jobs in `done` are done and no one else is under way. */
  function Between(e: Edges<JobId>, jobs: set<JobId>, done: set<JobId>): Queue {
    Queue(map j | j in jobs ::
            if j in done then Done else if ParentsIn(e, done, j) then Pending else WaitDependencies,
          {})
  }

  lemma OneJobThrough(e: Edges<JobId>, jobs: set<JobId>, done: set<JobId>, j: JobId)
    requires Within(e, jobs) && j in jobs && j !in done && ParentsIn(e, done, j)
    requires done <= jobs && forall d | d in done :: ParentsIn(e, done, d)
    ensures var q := Between(e, jobs, done);
            && Enabled(q, Enqueue(j))
            && Leads(e, Next(e, q, Enqueue(j)), Start(j), q.(state := q.state[j := Started]))
            && Leads(e, q.(state := q.state[j := Started]), Finish(j), Queue(q.state[j := Done], {j}))
            && Leads(e, Queue(q.state[j := Done], {j}), Wake(j), Between(e, jobs, done + {j}))
  {
    var q := Between(e, jobs, done);
    assert q.state[j := Enqueued][j := Started] == q.state[j := Started];
    assert q.state[j := Started][j := Done] == q.state[j := Done];
    WakeOne(e, jobs, done, j);
  }

  lemma WakeOne(e: Edges<JobId>, jobs: set<JobId>, done: set<JobId>, j: JobId)
    requires Within(e, jobs) && j in jobs && j !in done && ParentsIn(e, done, j)
    requires done <= jobs && forall d | d in done :: ParentsIn(e, done, d)
    ensures DependentsUpdated(e, Between(e, jobs, done).state[j := Done], j, Done, Pending) ==
              Between(e, jobs, done + {j}).state
  {
    var state := Between(e, jobs, done).state[j := Done];
    forall c | c in jobs
      ensures DependentsUpdated(e, state, j, Done, Pending)[c] == Between(e, jobs, done + {j}).state[c]
    {
      ParentsDoneIffIn(e, jobs, done, j, c);
      if (j, c) !in e { ParentsInMore(e, done, j, c); }
      if (j, c) in e { assert !ParentsIn(e, done, c); }
    }
  }

  lemma ParentsInMore(e: Edges<JobId>, done: set<JobId>, j: JobId, c: JobId)
    requires (j, c) !in e
    ensures ParentsIn(e, done, c) <==> ParentsIn(e, done + {j}, c)
  {
    if ParentsIn(e, done + {j}, c) {
      forall edge | edge in e && edge.1 == c ensures edge.0 in done { assert edge == (edge.0, c); }
    }
  }

  lemma ParentsDoneIffIn(e: Edges<JobId>, jobs: set<JobId>, done: set<JobId>, j: JobId, c: JobId)
    requires Within(e, jobs) && j in jobs
    ensures AllParents(e, Between(e, jobs, done).state[j := Done], c, Done) <==> ParentsIn(e, done + {j}, c)
  {
  }

  lemma {:induction false} OneByOneFrom(e: Edges<JobId>, jobs: set<JobId>, before: seq<JobId>, order: seq<JobId>)
    requires Within(e, jobs) && NoDuplicates(before + order) && ParentsFirst(e, before + order)
    requires Elements(before + order) <= jobs
    ensures Legal(e, Between(e, jobs, Elements(before)), OneByOne(order))
    ensures After(e, Between(e, jobs, Elements(before)), OneByOne(order)) == Between(e, jobs, Elements(before + order))
    ensures Performed(OneByOne(order)) == order
    decreases |order|
  {
    if order == [] {
      assert before + order == before;
    } else {
      var j, all, done := order[0], before + order, Elements(before);
      assert (before + [j]) + order[1..] == all;
      FrontIsReady(e, before, order);
      AppendDistinct(before, j);
      OneByOneFrom(e, jobs, before + [j], order[1..]);
      OneJobThrough(e, jobs, done, j);
      var q, rest := Between(e, jobs, done), OneByOne(order[1..]);
      FourSteps(e, q, Next(e, q, Enqueue(j)), q.(state := q.state[j := Started]), Queue(q.state[j := Done], {j}),
                Between(e, jobs, done + {j}), j, rest);
    }
  }

  lemma FourSteps(e: Edges<JobId>, q0: Queue, q1: Queue, q2: Queue, q3: Queue, q4: Queue, j: JobId, rest: seq<Step>)
    requires Leads(e, q0, Enqueue(j), q1) && Leads(e, q1, Start(j), q2) && Leads(e, q2, Finish(j), q3)
             && Leads(e, q3, Wake(j), q4)
    requires Legal(e, q4, rest)
    ensures var steps := [Enqueue(j), Start(j), Finish(j), Wake(j)] + rest;
            && Legal(e, q0, steps) && After(e, q0, steps) == After(e, q4, rest)
            && Performed(steps) == [j] + Performed(rest)
  {
    hide Enabled, Next;
    TakeStep(e, q3, Wake(j), rest);
    TakeStep(e, q2, Finish(j), [Wake(j)] + rest);
    TakeStep(e, q1, Start(j), [Finish(j)] + ([Wake(j)] + rest));
    TakeStep(e, q0, Enqueue(j), [Start(j)] + ([Finish(j)] + ([Wake(j)] + rest)));
    assert [Enqueue(j), Start(j), Finish(j), Wake(j)] + rest ==
             [Enqueue(j)] + ([Start(j)] + ([Finish(j)] + ([Wake(j)] + rest)));
    PerformedOfOne(j, rest);
  }

  lemma PerformedOfOne(j: JobId, rest: seq<Step>)
    ensures Performed([Enqueue(j)] + ([Start(j)] + ([Finish(j)] + ([Wake(j)] + rest)))) == [j] + Performed(rest)
  {
    var s1 := [Wake(j)] + rest;
    var s2 := [Finish(j)] + s1;
    var s3 := [Start(j)] + s2;
    assert s1[1..] == rest && s2[1..] == s1 && s3[1..] == s2 && ([Enqueue(j)] + s3)[1..] == s3;
    assert Performed(s2) == Performed(s1) == Performed(rest);
  }

  lemma FrontIsReady(e: Edges<JobId>, before: seq<JobId>, order: seq<JobId>)
    requires order != [] && NoDuplicates(before + order) && ParentsFirst(e, before + order)
    ensures order[0] in before + order && order[0] !in before && ParentsIn(e, Elements(before), order[0])
    ensures forall d | d in before :: ParentsIn(e, Elements(before), d)
  {
    var all := before + order;
    assert all[|before|] == order[0];
    assert all[..|before|] == before;
    assert order[0] !in all[..|before|];
    forall d | d in before ensures ParentsIn(e, Elements(before), d) {
      var i :| 0 <= i < |before| && before[i] == d;
      assert all[i] == d;
      assert all[..i] == before[..i];
    }
  }

  /** Executing the jobs in any topological order, as `_execute_graph_direct` does, is a legal
      failure-free run of the queue that performs them in that order and ends with exactly them done. */
  lemma DirectOrderIsARun(e: Edges<JobId>, jobs: set<JobId>, order: seq<JobId>)
    requires Within(e, jobs) && NoDuplicates(order) && ParentsFirst(e, order) && Elements(order) <= jobs
    ensures Legal(e, Initial(e, jobs), OneByOne(order))
    ensures Performed(OneByOne(order)) == order
    ensures After(e, Initial(e, jobs), OneByOne(order)) == Between(e, jobs, Elements(order))
  {
    assert [] + order == order;
    assert Elements<JobId>([]) == {};
    OneByOneFrom(e, jobs, [], order);
    assert Initial(e, jobs) == Between(e, jobs, {});
  }

  // ---------------------------------------------------------------- runs end

  /** Steps after which a job has not gone back. */
  predicate Forward(step: Step) {
    step.Enqueue? || step.Start? || step.Finish? || step.Fail? || step.Wake?
  }

  ghost function InState(q: Queue, s: set<JobState>): set<JobId> {
    set j | j in q.state && q.state[j] in s
  }

  ghost function Work(q: Queue): nat {
    |InState(q, {WaitDependencies, Pending})| + |InState(q, {WaitDependencies, Pending, Enqueued})|
    + 2 * |InState(q, {WaitDependencies, Pending, Enqueued, Started})| + |q.owed|
  }

  lemma InStateAfterChange(q: Queue, j: JobId, x: JobState, s: set<JobState>, owed: set<JobId>)
    requires j in q.state
    ensures var r := InState(Queue(q.state[j := x], owed), s);
            |r| == |InState(q, s)| + (if x in s then 1 else 0) - (if q.state[j] in s then 1 else 0)
  {
    var r, was := InState(Queue(q.state[j := x], owed), s), InState(q, s);
    assert r == (if x in s then was + {j} else was - {j});
    assert q.state[j] in s ==> was == (was - {j}) + {j};
  }

  lemma InStateAfterWake(e: Edges<JobId>, q: Queue, j: JobId, s: set<JobState>)
    requires Enabled(q, Wake(j)) && (WaitDependencies in s <==> Pending in s)
    ensures InState(Next(e, q, Wake(j)), s) == InState(q, s)
  {
  }

  lemma ForwardWorks(e: Edges<JobId>, q: Queue, step: Step)
    requires Enabled(q, step) && Forward(step)
    ensures Work(Next(e, q, step)) < Work(q)
  {
    hide InState, DependentsUpdated;
    var r, j := Next(e, q, step), step.job;
    var early, mid := {WaitDependencies, Pending}, {WaitDependencies, Pending, Enqueued};
    var late := {WaitDependencies, Pending, Enqueued, Started};
    if step.Wake? {
      InStateAfterWake(e, q, j, early);
      InStateAfterWake(e, q, j, mid);
      InStateAfterWake(e, q, j, late);
      assert q.owed == r.owed + {j};
    } else {
      InStateAfterChange(q, j, r.state[j], early, r.owed);
      InStateAfterChange(q, j, r.state[j], mid, r.owed);
      InStateAfterChange(q, j, r.state[j], late, r.owed);
      assert r == Queue(q.state[j := r.state[j]], r.owed);
      assert |q.owed + {j}| <= |q.owed| + 1;
    }
  }

  /** A run of forward steps has at most four steps a job, whatever the interleaving and the failures. */
  lemma {:induction false} ForwardRunsEnd(e: Edges<JobId>, q: Queue, steps: seq<Step>)
    requires Legal(e, q, steps) && forall i :: 0 <= i < |steps| ==> Forward(steps[i])
    ensures |steps| <= Work(q)
    decreases |steps|
  {
    if steps != [] {
      ForwardWorks(e, q, steps[0]);
      ForwardRunsEnd(e, Next(e, q, steps[0]), steps[1..]);
    }
  }

  lemma ForwardRunsAreShort(e: Edges<JobId>, jobs: set<JobId>, steps: seq<Step>)
    requires Legal(e, Initial(e, jobs), steps) && forall i :: 0 <= i < |steps| ==> Forward(steps[i])
    ensures |steps| <= 4 * |jobs|
  {
    var q := Initial(e, jobs);
    ForwardRunsEnd(e, q, steps);
    SubsetSize(InState(q, {WaitDependencies, Pending}), jobs);
    SubsetSize(InState(q, {WaitDependencies, Pending, Enqueued}), jobs);
    SubsetSize(InState(q, {WaitDependencies, Pending, Enqueued, Started}), jobs);
  }

  /** A forward run that cannot be continued has come to rest. */
  lemma StuckMeansQuiescent(q: Queue)
    requires forall step {:trigger Enabled(q, step)} :: Forward(step) ==> !Enabled(q, step)
    ensures Quiescent(q)
  {
    forall step | Automatic(step) ensures !Enabled(q, step) {
      assert !Enabled(q, Start(step.job)) && !Enabled(q, Finish(step.job));
    }
  }
}
