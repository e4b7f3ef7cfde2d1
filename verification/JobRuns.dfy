/** What holds over whole runs of the job protocol: dependency safety, and the states at rest. */
module JobRuns {
  import opened Digraphs
  import opened Terms
  import opened JobProtocol

  // ---------------------------------------------------------------- dependency safety

  /** A job that has been released, and is not cancelled, has all its parents done. */
  ghost predicate Released(s: JobState) {
    s in {Pending, Enqueued, Started, Failed}
  }

  ghost predicate Safe(e: Edges<JobId>, q: Queue) {
    forall j :: j in q.state && Released(q.state[j]) ==> AllParents(e, q.state, j, Done)
  }

  /** What can be seen before a step: it takes no done job back to the queue that has a released child,
      or that is its own parent and has all its parents done. */
  ghost predicate Harmless(e: Edges<JobId>, q: Queue, step: Step)
    requires Enabled(q, step)
  {
    step.Requeue? && q.state[step.job] == Done ==>
      && (forall c :: c in q.state && (step.job, c) in e ==> !Released(q.state[c]))
      && ((step.job, step.job) in e ==> !AllParents(e, q.state, step.job, Done))
  }

  ghost predicate AllHarmless(e: Edges<JobId>, q: Queue, steps: seq<Step>)
    requires Legal(e, q, steps)
    decreases |steps|
  {
    steps == [] || (Harmless(e, q, steps[0]) && AllHarmless(e, Next(e, q, steps[0]), steps[1..]))
  }

  /** Every state that the run goes through is safe. */
  ghost predicate SafeThroughout(e: Edges<JobId>, q: Queue, steps: seq<Step>)
    requires Legal(e, q, steps)
    decreases |steps|
  {
    Safe(e, q) && (steps == [] || SafeThroughout(e, Next(e, q, steps[0]), steps[1..]))
  }

  lemma DoneParentsStay(e: Edges<JobId>, q: Queue, step: Step, j: JobId)
    requires Enabled(q, step) && (step.Requeue? ==> q.state[step.job] != Done)
    requires AllParents(e, q.state, j, Done)
    ensures AllParents(e, Next(e, q, step).state, j, Done)
  {
  }

  /** The query releases only jobs whose parents are done. */
  lemma ReleasedByUpdate(e: Edges<JobId>, state: map<JobId, JobState>, x: JobId, c: JobId)
    requires c in state && state[c] == WaitDependencies
    requires DependentsUpdated(e, state, x, Done, Pending)[c] != WaitDependencies
    ensures AllParents(e, state, c, Done)
    ensures AllParents(e, DependentsUpdated(e, state, x, Done, Pending), c, Done)
  {
  }

  /** One step from a safe state leads to a safe state if and only if it is harmless. */
  lemma StepIsSafeIff(e: Edges<JobId>, q: Queue, step: Step)
    requires Safe(e, q) && Enabled(q, step)
    ensures Safe(e, Next(e, q, step)) <==> Harmless(e, q, step)
  {
  }

  /** A requeue in the absence of self-loops, which `delay()` refuses. */
  lemma RequeueIsSafeIff(e: Edges<JobId>, q: Queue, j: JobId)
    requires Safe(e, q) && Enabled(q, Requeue(j)) && (j, j) !in e
    ensures Safe(e, Next(e, q, Requeue(j))) <==>
            (q.state[j] != Done || forall c :: c in q.state && (j, c) in e ==> !Released(q.state[c]))
  {
    StepIsSafeIff(e, q, Requeue(j));
  }

  /** A run from a safe state stays safe all along if and only if all its steps are harmless. */
  lemma {:induction false} RunIsSafeIff(e: Edges<JobId>, q: Queue, steps: seq<Step>)
    requires Safe(e, q) && Legal(e, q, steps)
    ensures SafeThroughout(e, q, steps) <==> AllHarmless(e, q, steps)
    ensures SafeThroughout(e, q, steps) ==> Safe(e, After(e, q, steps))
    decreases |steps|
  {
    if steps != [] {
      StepIsSafeIff(e, q, steps[0]);
      if Harmless(e, q, steps[0]) { RunIsSafeIff(e, Next(e, q, steps[0]), steps[1..]); }
    }
  }

  lemma InitialIsSafe(e: Edges<JobId>, jobs: set<JobId>)
    ensures Safe(e, Initial(e, jobs))
  {
  }

  /** In every run from `delay()` of harmless steps, a job starts only when all its parents are done,
      and a retried job goes back to PENDING, never to WAIT_DEPENDENCIES. */
  lemma DependencySafety(e: Edges<JobId>, jobs: set<JobId>, steps: seq<Step>, j: JobId)
    requires Legal(e, Initial(e, jobs), steps) && AllHarmless(e, Initial(e, jobs), steps)
    ensures var q := After(e, Initial(e, jobs), steps);
            && (Enabled(q, Start(j)) ==> AllParents(e, q.state, j, Done))
            && (Enabled(q, Retry(j)) ==> Next(e, q, Retry(j)).state[j] == Pending)
  {
    InitialIsSafe(e, jobs);
    RunIsSafeIff(e, Initial(e, jobs), steps);
  }

  /** A harmful requeue does break the order: a released child that is not performed yet can start
      before its parent is done again. */
  lemma HarmfulRequeueBreaksOrder(e: Edges<JobId>, q: Queue, j: JobId, c: JobId)
    requires Enabled(q, Requeue(j)) && q.state[j] == Done
    requires c in q.state && (j, c) in e && q.state[c] in {Pending, Enqueued}
    ensures var steps := if q.state[c] == Pending then [Requeue(j), Enqueue(c)] else [Requeue(j)];
            && Legal(e, q, steps) && Enabled(After(e, q, steps), Start(c))
            && !AllParents(e, After(e, q, steps).state, c, Done)
  {
    hide AllParents;
    var r := Next(e, q, Requeue(j));
    var last := if q.state[c] == Pending then Next(e, r, Enqueue(c)) else r;
    ParentNotDone(e, last.state, j, c);
    if q.state[c] == Pending {
      TakeStep(e, r, Enqueue(c), []);
      TakeStep(e, q, Requeue(j), [Enqueue(c)]);
      assert [Requeue(j)] + [Enqueue(c)] == [Requeue(j), Enqueue(c)];
    } else {
      TakeStep(e, q, Requeue(j), []);
      assert [Requeue(j)] + [] == [Requeue(j)];
    }
  }

  lemma ParentNotDone(e: Edges<JobId>, state: map<JobId, JobState>, p: JobId, c: JobId)
    requires (p, c) in e && p in state && state[p] != Done
    ensures !AllParents(e, state, c, Done)
  {
    assert (p, c).1 == c;
  }

  /** Requeuing a done parent does break the order: its pending child can still start. */
  lemma RequeueOfDoneBreaksOrder(a: JobId, b: JobId)
    requires a != b
    ensures var e, q := {(a, b)}, Initial({(a, b)}, {a, b});
            var steps := [Enqueue(a), Start(a), Finish(a), Wake(a), Requeue(a), Enqueue(b)];
            && Legal(e, q, steps) && Enabled(After(e, q, steps), Start(b))
            && !AllParents(e, After(e, q, steps).state, b, Done)
  {
    hide Enabled, Next, Initial, AllParents;
    var e := {(a, b)};
    TwoJobs(a, b);
    var last := Two(a, Pending, b, Enqueued, {});
    TakeStep(e, Two(a, Pending, b, Pending, {}), Enqueue(b), []);
    TakeStep(e, Two(a, Done, b, Pending, {}), Requeue(a), [Enqueue(b)]);
    TakeStep(e, Two(a, Done, b, WaitDependencies, {a}), Wake(a), [Requeue(a)] + [Enqueue(b)]);
    var rest := [Wake(a), Requeue(a), Enqueue(b)];
    assert [Wake(a)] + ([Requeue(a)] + [Enqueue(b)]) == rest;
    TakeStep(e, Two(a, Started, b, WaitDependencies, {}), Finish(a), rest);
    TakeStep(e, Two(a, Enqueued, b, WaitDependencies, {}), Start(a), [Finish(a)] + rest);
    TakeStep(e, Two(a, Pending, b, WaitDependencies, {}), Enqueue(a), [Start(a)] + ([Finish(a)] + rest));
    assert [Enqueue(a)] + ([Start(a)] + ([Finish(a)] + rest))
        == [Enqueue(a), Start(a), Finish(a), Wake(a), Requeue(a), Enqueue(b)];
  }

  function Two(a: JobId, sa: JobState, b: JobId, sb: JobState, owed: set<JobId>): Queue {
    Queue(map[a := sa, b := sb], owed)
  }

  /** The steps of a two-job graph that the counterexample takes. */
  lemma TwoJobs(a: JobId, b: JobId)
    requires a != b
    ensures var e := {(a, b)};
      && Initial(e, {a, b}) == Two(a, Pending, b, WaitDependencies, {})
      && Leads(e, Two(a, Pending, b, WaitDependencies, {}), Enqueue(a), Two(a, Enqueued, b, WaitDependencies, {}))
      && Leads(e, Two(a, Enqueued, b, WaitDependencies, {}), Start(a), Two(a, Started, b, WaitDependencies, {}))
      && Leads(e, Two(a, Started, b, WaitDependencies, {}), Finish(a), Two(a, Done, b, WaitDependencies, {a}))
      && Leads(e, Two(a, Done, b, WaitDependencies, {a}), Wake(a), Two(a, Done, b, Pending, {}))
      && Leads(e, Two(a, Done, b, Pending, {}), Requeue(a), Two(a, Pending, b, Pending, {}))
      && Leads(e, Two(a, Pending, b, Pending, {}), Enqueue(b), Two(a, Pending, b, Enqueued, {}))
      && Enabled(Two(a, Pending, b, Enqueued, {}), Start(b))
      && !AllParents(e, Two(a, Pending, b, Enqueued, {}).state, b, Done)
  {
    assert (a, b) in {(a, b)};
  }

  // ---------------------------------------------------------------- quiescence

  /** Steps that nobody has to ask for. */
  predicate Automatic(step: Step) {
    step.Enqueue? || step.Start? || step.Finish? || step.Fail? || step.Retry? || step.Wake? || step.RequeueDead?
  }

  predicate AllAutomatic(steps: seq<Step>) {
    forall i :: 0 <= i < |steps| ==> Automatic(steps[i])
  }

  ghost predicate Quiescent(q: Queue) {
    forall step {:trigger Enabled(q, step)} :: Automatic(step) ==> !Enabled(q, step)
  }

  /** Without manual steps: nothing is cancelled, every job that no longer waits has all its parents
      done, and none of them is on or below a cycle. */
  ghost predicate Regular(e: Edges<JobId>, q: Queue) {
    forall j :: j in q.state && q.state[j] != WaitDependencies ==>
                  q.state[j] != Cancelled && AllParents(e, q.state, j, Done) && !BelowCycle(e, j)
  }

  lemma {:induction false} BelowCycleHasParentBelow(e: Edges<JobId>, j: JobId) returns (p: JobId)
    requires BelowCycle(e, j)
    ensures (p, j) in e && BelowCycle(e, p)
  {
    var u :| Reach(e, u, u) && ReachOrSame(e, u, j);
    if u == j {
      p := LastEdge(e, j, j);
      assert Reach(e, j, j) && ReachOrSame(e, j, p);
    } else {
      p := LastEdge(e, u, j);
    }
  }

  lemma RegularStep(e: Edges<JobId>, q: Queue, step: Step)
    requires Regular(e, q) && Enabled(q, step) && Automatic(step)
    ensures Regular(e, Next(e, q, step))
  {
    hide AllParents, BelowCycle;
    var r, x := Next(e, q, step), step.job;
    forall j | j in r.state && r.state[j] != WaitDependencies
      ensures r.state[j] != Cancelled && AllParents(e, r.state, j, Done) && !BelowCycle(e, j)
    {
      if q.state[j] != WaitDependencies {
        DoneParentsStay(e, q, step, j);
      } else {
        ReleasedByUpdate(e, q.state, x, j);
        NotBelowCycle(e, q, j);
      }
    }
  }

  lemma NotBelowCycle(e: Edges<JobId>, q: Queue, j: JobId)
    requires Regular(e, q) && AllParents(e, q.state, j, Done)
    ensures !BelowCycle(e, j)
  {
    if BelowCycle(e, j) {
      var p := BelowCycleHasParentBelow(e, j);
    }
  }

  lemma {:induction false} RegularAlways(e: Edges<JobId>, q: Queue, steps: seq<Step>)
    requires Regular(e, q) && Legal(e, q, steps) && AllAutomatic(steps)
    ensures Regular(e, After(e, q, steps))
    decreases |steps|
  {
    if steps != [] {
      RegularStep(e, q, steps[0]);
      RegularAlways(e, Next(e, q, steps[0]), steps[1..]);
    }
  }

  lemma InitialIsRegular(e: Edges<JobId>, jobs: set<JobId>)
    ensures Regular(e, Initial(e, jobs))
  {
    forall j | j in jobs && Initial(e, jobs).state[j] != WaitDependencies ensures !BelowCycle(e, j) {
      if BelowCycle(e, j) {
        var p := BelowCycleHasParentBelow(e, j);
      }
    }
  }

  /** Some failed job is a strict ancestor of `j`. */
  ghost predicate BelowFailure(e: Edges<JobId>, q: Queue, j: JobId) {
    exists f :: f in q.state && q.state[f] == Failed && Reach(e, f, j)
  }

  lemma QuiescentStates(e: Edges<JobId>, q: Queue)
    requires Regular(e, q) && Quiescent(q) && q.owed <= q.state.Keys
    ensures q.owed == {}
    ensures forall j :: j in q.state ==> q.state[j] in {Done, Failed, WaitDependencies}
  {
    forall j | j in q.state ensures j !in q.owed && q.state[j] in {Done, Failed, WaitDependencies} {
      assert !Enabled(q, Enqueue(j)) && !Enabled(q, Start(j)) && !Enabled(q, Finish(j)) && !Enabled(q, Wake(j));
    }
  }

  /** What is below a failure waits. */
  lemma BelowFailureWaits(e: Edges<JobId>, q: Queue, f: JobId, j: JobId)
    requires Within(e, q.state.Keys) && Regular(e, q)
    requires f in q.state && q.state[f] == Failed && Reach(e, f, j)
    ensures j in q.state && q.state[j] == WaitDependencies
  {
    var s := set x | x in q.state && q.state[x] in {WaitDependencies, Failed};
    var z := LastEdge(e, f, j);
    if f != z { FailureStays(e, q, s); ReachStaysIn(e, s, f, z); }
    assert z in s && (z, j) in e;
    assert q.state[z] != Done;
  }

  lemma FailureStays(e: Edges<JobId>, q: Queue, s: set<JobId>)
    requires Within(e, q.state.Keys) && Regular(e, q)
    requires s == set x | x in q.state && q.state[x] in {WaitDependencies, Failed}
    ensures forall edge | edge in e :: edge.0 in s ==> edge.1 in s
  {
    forall edge | edge in e && edge.0 in s ensures edge.1 in s {
      var child := edge.1;
      assert q.state[child] == WaitDependencies || AllParents(e, q.state, child, Done);
    }
  }

  /** A job that waits at rest, though neither below a failure nor below a cycle, would have such a parent for ever. */
  lemma WaitingIsBelow(e: Edges<JobId>, q: Queue, j: JobId)
    requires Within(e, q.state.Keys) && NoLostWakeup(e, q) && q.owed == {}
    requires forall i :: i in q.state ==> q.state[i] in {Done, Failed, WaitDependencies}
    requires j in q.state && q.state[j] == WaitDependencies && !BelowFailure(e, q, j)
    ensures BelowCycle(e, j)
  {
    var s := set x | x in q.state && q.state[x] == WaitDependencies && !BelowFailure(e, q, x);
    forall x | x in s ensures HasParentIn(e, s, x) {
      assert !OwedByParent(e, q, x);
      assert !AllParents(e, q.state, x, Done);
      var edge :| edge in e && edge.1 == x && q.state[edge.0] != Done;
      var y := edge.0;
      EdgeReaches(e, y, x);
      if BelowFailure(e, q, y) {
        var f :| f in q.state && q.state[f] == Failed && Reach(e, f, y);
        ReachTransitive(e, f, y, x);
      }
      assert q.state[y] != Failed;
    }
    ParentsForeverMeansCycle(e, s, j);
  }

  lemma {:induction false} OwedAreJobs(e: Edges<JobId>, q: Queue, steps: seq<Step>)
    requires q.owed <= q.state.Keys && Legal(e, q, steps)
    ensures After(e, q, steps).owed <= q.state.Keys
    decreases |steps|
  {
    if steps != [] { OwedAreJobs(e, Next(e, q, steps[0]), steps[1..]); }
  }

  /** Quiescence. Whatever the interleaving, once only manual steps remain possible, every job is done,
      failed or waiting, and exactly those wait that are strictly below a failed job, or on or below a
      cycle of dependencies (which `delay()` does not refuse unless it is a self-loop). */
  lemma Quiescence(e: Edges<JobId>, jobs: set<JobId>, steps: seq<Step>)
    requires Within(e, jobs)
    requires Legal(e, Initial(e, jobs), steps) && AllAutomatic(steps)
    requires Quiescent(After(e, Initial(e, jobs), steps))
    ensures var q := After(e, Initial(e, jobs), steps);
            forall j :: j in jobs ==>
              && q.state[j] in {Done, Failed, WaitDependencies}
              && (q.state[j] == WaitDependencies <==> BelowFailure(e, q, j) || BelowCycle(e, j))
  {
    var q0 := Initial(e, jobs);
    var q := After(e, q0, steps);
    InitialIsRegular(e, jobs);
    RegularAlways(e, q0, steps);
    NoLostWakeupAlways(e, q0, steps);
    OwedAreJobs(e, q0, steps);
    QuiescentStates(e, q);
    forall j | j in jobs ensures q.state[j] == WaitDependencies <==> BelowFailure(e, q, j) || BelowCycle(e, j) {
      if q.state[j] == WaitDependencies {
        if !BelowFailure(e, q, j) { WaitingIsBelow(e, q, j); }
      } else if BelowFailure(e, q, j) {
        var f :| f in q.state && q.state[f] == Failed && Reach(e, f, j);
        BelowFailureWaits(e, q, f, j);
      }
    }
  }

  /** On an acyclic graph, what waits at rest is exactly what is strictly below a failed job. */
  lemma QuiescenceWithoutCycles(e: Edges<JobId>, jobs: set<JobId>, steps: seq<Step>)
    requires Within(e, jobs) && Acyclic(e)
    requires Legal(e, Initial(e, jobs), steps) && AllAutomatic(steps)
    requires Quiescent(After(e, Initial(e, jobs), steps))
    ensures var q := After(e, Initial(e, jobs), steps);
            forall j :: j in jobs ==>
              && q.state[j] in {Done, Failed, WaitDependencies}
              && (q.state[j] == WaitDependencies <==> BelowFailure(e, q, j))
  {
    Quiescence(e, jobs, steps);
    forall j ensures !BelowCycle(e, j) { }
  }
}
