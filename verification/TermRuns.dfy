/** From the term a caller writes to the runs of its jobs: what README.rst of queue_job promises of
    `chain`, `group` and `on_done`, for every run. */
module TermRuns {
  import opened Digraphs
  import opened DelayGraph
  import opened Terms
  import opened TermMeaning
  import opened Compilation
  import opened OnDoneMeaning
  import opened OnDoneObjects
  import opened JobProtocol
  import opened JobRuns
  import opened JobOrders
  import opened JobTable

  /** Builds, flattens and delays a term: it is never refused, and the table it leaves is the initial
      state of the term's links. */
  method DelayTerm(t: Term) returns (table: QueueTable)
    requires Buildable(t) && Distinct(t)
    ensures fresh(table) && table.dependencies == Links(t) && table.Rows() == Initial(Links(t), Jobs(t))
  {
    var flat := Flattened(t);
    FlatteningIsSound(t);
    forall j ensures (j, j) !in Links(t) {
      if (j, j) in Links(t) { EdgeReaches(Links(t), j, j); }
    }
    var stored := Delay(flat);
    table := stored;
  }

  /** The same for a term with `on_done` calls; what an empty group forgets is not stored. */
  method DelayPlan(p: Plan) returns (table: QueueTable)
    requires PlanBuildable(p) && PlanDistinct(p)
    ensures fresh(table) && table.dependencies == PlanLinks(p) && table.Rows() == Initial(PlanLinks(p), KeptJobs(p))
  {
    var flat := FlattenedPlan(p);
    InsidePlan(p);
    forall u, w | u in flat.adj && w in flat.adj[u] ensures w in flat.adj {
      assert (u, w) in EdgesOf(flat.adj);
    }
    forall j ensures (j, j) !in PlanLinks(p) {
      if (j, j) in PlanLinks(p) { EdgeReaches(PlanLinks(p), j, j); }
    }
    var stored := Delay(flat);
    table := stored;
  }

  // ---------------------------------------------------------------- runs of a graph that carries an order

  /** The links are acyclic and carry exactly the order. */
  ghost predicate Carries(e: Edges<JobId>, jobs: set<JobId>, before: Edges<JobId>) {
    Within(e, jobs) && Acyclic(e) && forall x, y :: Reach(e, x, y) <==> (x, y) in before
  }

  lemma OrderIsRespected(e: Edges<JobId>, jobs: set<JobId>, before: Edges<JobId>, steps: seq<Step>)
    requires Carries(e, jobs, before)
    requires Legal(e, Initial(e, jobs), steps) && FailureFree(steps)
    ensures NoDuplicates(Performed(steps))
    ensures forall x, j :: 0 <= j < |Performed(steps)| && (x, Performed(steps)[j]) in before ==>
              x in Performed(steps)[..j]
    ensures Quiescent(After(e, Initial(e, jobs), steps)) ==> Elements(Performed(steps)) == jobs
  {
    var order := Performed(steps);
    FailureFreeRunIsTopological(e, jobs, steps);
    forall x, j | 0 <= j < |order| && (x, order[j]) in before ensures x in order[..j] {
      assert Reach(e, x, order[j]);
      AncestorsBefore(e, order, x, j);
    }
    forall j ensures !BelowCycle(e, j) { }
    if Quiescent(After(e, Initial(e, jobs), steps)) {
      forall j ensures j in Elements(order) <==> j in jobs { }
    }
  }

  lemma FailuresStopFollowers(e: Edges<JobId>, jobs: set<JobId>, before: Edges<JobId>, steps: seq<Step>)
    requires Carries(e, jobs, before)
    requires Legal(e, Initial(e, jobs), steps) && AllAutomatic(steps)
    requires Quiescent(After(e, Initial(e, jobs), steps))
    ensures var q := After(e, Initial(e, jobs), steps);
            forall j :: j in jobs ==>
              && q.state[j] in {Done, Failed, WaitDependencies}
              && (q.state[j] == WaitDependencies <==>
                  exists f :: f in jobs && q.state[f] == Failed && (f, j) in before)
  {
    QuiescenceWithoutCycles(e, jobs, steps);
    var q := After(e, Initial(e, jobs), steps);
    forall j | j in jobs
      ensures BelowFailure(e, q, j) <==> exists f :: f in jobs && q.state[f] == Failed && (f, j) in before
    {
      if f :| f in jobs && q.state[f] == Failed && (f, j) in before {
        assert Reach(e, f, j);
      }
    }
  }

  // ---------------------------------------------------------------- terms and plans

  /** In every failure-free run of a faithful term, each job is performed at most once and after
      everything the term puts before it; at rest, exactly once. */
  lemma TermIsRespected(t: Term, steps: seq<Step>)
    requires Distinct(t) && Faithful(t)
    requires Legal(Links(t), Initial(Links(t), Jobs(t)), steps) && FailureFree(steps)
    ensures NoDuplicates(Performed(steps))
    ensures forall x, j :: 0 <= j < |Performed(steps)| && (x, Performed(steps)[j]) in Before(t) ==>
              x in Performed(steps)[..j]
    ensures Quiescent(After(Links(t), Initial(Links(t), Jobs(t)), steps)) ==> Elements(Performed(steps)) == Jobs(t)
  {
    InsideTerm(t);
    FlatteningPreservesMeaning(t);
    OrderIsRespected(Links(t), Jobs(t), Before(t), steps);
  }

  /** When a faithful term comes to rest, whatever failed, was retried or found dead on the way, the
      jobs that wait are exactly those that the term puts after a failed one; all others ended. */
  lemma FailuresStopOnlyWhatFollows(t: Term, steps: seq<Step>)
    requires Distinct(t) && Faithful(t)
    requires Legal(Links(t), Initial(Links(t), Jobs(t)), steps) && AllAutomatic(steps)
    requires Quiescent(After(Links(t), Initial(Links(t), Jobs(t)), steps))
    ensures var q := After(Links(t), Initial(Links(t), Jobs(t)), steps);
            forall j :: j in Jobs(t) ==>
              && q.state[j] in {Done, Failed, WaitDependencies}
              && (q.state[j] == WaitDependencies <==>
                  exists f :: f in Jobs(t) && q.state[f] == Failed && (f, j) in Before(t))
  {
    InsideTerm(t);
    FlatteningPreservesMeaning(t);
    FailuresStopFollowers(Links(t), Jobs(t), Before(t), steps);
  }

  /** The same for a faithful plan of `on_done` calls. */
  lemma PlanIsRespected(p: Plan, steps: seq<Step>)
    requires PlanDistinct(p) && PlanFaithful(p)
    requires Legal(PlanLinks(p), Initial(PlanLinks(p), PlanJobs(p)), steps) && FailureFree(steps)
    ensures KeptJobs(p) == PlanJobs(p) && NoDuplicates(Performed(steps))
    ensures forall x, j :: 0 <= j < |Performed(steps)| && (x, Performed(steps)[j]) in PlanBefore(p) ==>
              x in Performed(steps)[..j]
    ensures Quiescent(After(PlanLinks(p), Initial(PlanLinks(p), PlanJobs(p)), steps)) ==>
              Elements(Performed(steps)) == PlanJobs(p)
  {
    InsidePlan(p);
    OnDonePreservesMeaning(p);
    OrderIsRespected(PlanLinks(p), PlanJobs(p), PlanBefore(p), steps);
  }

  lemma PlanFailuresStopOnlyWhatFollows(p: Plan, steps: seq<Step>)
    requires PlanDistinct(p) && PlanFaithful(p)
    requires Legal(PlanLinks(p), Initial(PlanLinks(p), PlanJobs(p)), steps) && AllAutomatic(steps)
    requires Quiescent(After(PlanLinks(p), Initial(PlanLinks(p), PlanJobs(p)), steps))
    ensures var q := After(PlanLinks(p), Initial(PlanLinks(p), PlanJobs(p)), steps);
            forall j :: j in PlanJobs(p) ==>
              && q.state[j] in {Done, Failed, WaitDependencies}
              && (q.state[j] == WaitDependencies <==>
                  exists f :: f in PlanJobs(p) && q.state[f] == Failed && (f, j) in PlanBefore(p))
  {
    InsidePlan(p);
    OnDonePreservesMeaning(p);
    FailuresStopFollowers(PlanLinks(p), PlanJobs(p), PlanBefore(p), steps);
  }
}
