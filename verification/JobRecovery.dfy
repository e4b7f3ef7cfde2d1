/** Failed jobs can be requeued or set done, and the graph run to its end (queue_job/README.rst). */
module JobRecovery {
  import opened Digraphs
  import opened Terms
  import opened JobProtocol
  import opened JobRuns
  import opened JobOrders

  /** Every job is done, but those that a cycle holds back. */
  ghost predicate Complete(e: Edges<JobId>, q: Queue) {
    forall j :: j in q.state ==> q.state[j] == Done || BelowCycle(e, j)
  }

  /** Nothing is failed and nothing is lost: only forward steps are missing. */
  ghost predicate OnTrack(e: Edges<JobId>, q: Queue) {
    && Within(e, q.state.Keys) && q.owed <= q.state.Keys && Regular(e, q) && NoLostWakeup(e, q)
    && forall j :: j in q.state ==> q.state[j] != Failed
  }

  lemma OneStep(step: Step)
    requires step.Enqueue? || step.Start? || step.Finish? || step.Wake?
    ensures FailureFree([step])
  {
  }

  lemma StillOnTrack(e: Edges<JobId>, q: Queue, step: Step)
    requires OnTrack(e, q) && Enabled(q, step) && FailureFree([step])
    ensures OnTrack(e, Next(e, q, step)) && Work(Next(e, q, step)) < Work(q)
  {
    assert [step][0] == step;
    RegularStep(e, q, step);
    NoLostWakeupStep(e, q, step);
    ForwardWorks(e, q, step);
  }

  /** Where no step of a failure-free run is possible, everything is done. */
  lemma NothingLeft(e: Edges<JobId>, q: Queue)
    requires OnTrack(e, q)
    requires forall step {:trigger Enabled(q, step)} :: Enabled(q, step) ==> !FailureFree([step])
    ensures Complete(e, q)
  {
    forall j | j in q.state ensures j !in q.owed && q.state[j] in {Done, WaitDependencies} {
      OneStep(Enqueue(j));
      OneStep(Start(j));
      OneStep(Finish(j));
      OneStep(Wake(j));
      assert !Enabled(q, Enqueue(j)) && !Enabled(q, Start(j)) && !Enabled(q, Finish(j)) && !Enabled(q, Wake(j));
    }
    assert q.owed == {};
    forall j | j in q.state && q.state[j] == WaitDependencies ensures BelowCycle(e, j) {
      WaitingIsBelow(e, q, j);
    }
  }

  /** A failure-free run to the end. */
  lemma {:induction false} RunToTheEnd(e: Edges<JobId>, q: Queue) returns (steps: seq<Step>)
    requires OnTrack(e, q)
    ensures Legal(e, q, steps) && FailureFree(steps) && Complete(e, After(e, q, steps))
    decreases Work(q)
  {
    hide OnTrack, Complete, Next, Work;
    if step :| Enabled(q, step) && FailureFree([step]) {
      StillOnTrack(e, q, step);
      var rest := RunToTheEnd(e, Next(e, q, step));
      TakeStep(e, q, step, rest);
      steps := [step] + rest;
      assert [step][0] == step;
    } else {
      NothingLeft(e, q);
      steps := [];
    }
  }

  /** A retry, or a dead worker whose job is not given up, sets nothing back but the job itself: it is
      pending again, and the run can still be brought to its end. */
  lemma RetriesStayOnTrack(e: Edges<JobId>, q: Queue, step: Step) returns (rest: seq<Step>)
    requires OnTrack(e, q) && Enabled(q, step) && (step.Retry? || step == RequeueDead(step.job, false))
    ensures Next(e, q, step).state == q.state[step.job := Pending]
    ensures Legal(e, Next(e, q, step), rest) && FailureFree(rest) && Complete(e, After(e, Next(e, q, step), rest))
  {
    RegularStep(e, q, step);
    NoLostWakeupStep(e, q, step);
    hide Complete;
    rest := RunToTheEnd(e, Next(e, q, step));
  }

  /** A dead worker's job that is given up is failed, and nothing else changes. */
  lemma GivenUpIsFailed(e: Edges<JobId>, q: Queue, j: JobId)
    requires j in q.state && q.state[j] in {Enqueued, Started}
    ensures Enabled(q, RequeueDead(j, true)) && Next(e, q, RequeueDead(j, true)) == q.(state := q.state[j := Failed])
    ensures Enabled(q, RequeueDead(j, false)) && Next(e, q, RequeueDead(j, false)) == q.(state := q.state[j := Pending])
  {
  }

  // ---------------------------------------------------------------- repairing the failed jobs

  /** A click on a failed job: put it back to the queue, or take it as done. */
  predicate Repairs(step: Step, j: JobId) {
    step == Requeue(j) || step == ButtonDone(j)
  }

  /** The clicks are on the failed jobs, each once, in any order. */
  ghost predicate RepairsAll(q: Queue, clicks: seq<Step>) {
    && (forall i :: 0 <= i < |clicks| ==>
          && Repairs(clicks[i], clicks[i].job) && clicks[i].job in q.state && q.state[clicks[i].job] == Failed)
    && (forall i, k :: 0 <= i < k < |clicks| ==> clicks[i].job != clicks[k].job)
    && (forall j :: j in q.state && q.state[j] == Failed ==> exists i :: 0 <= i < |clicks| && clicks[i].job == j)
  }

  /** Between the clicks. */
  ghost predicate UnderRepair(e: Edges<JobId>, q: Queue) {
    Within(e, q.state.Keys) && q.owed <= q.state.Keys && Regular(e, q) && NoLostWakeup(e, q)
  }

  lemma RegularClick(e: Edges<JobId>, q: Queue, step: Step)
    requires Regular(e, q) && Enabled(q, step) && Repairs(step, step.job) && q.state[step.job] == Failed
    ensures Regular(e, Next(e, q, step))
  {
    hide BelowCycle;
    var r, f := Next(e, q, step), step.job;
    forall j | j in r.state && r.state[j] != WaitDependencies
      ensures r.state[j] != Cancelled && AllParents(e, r.state, j, Done) && !BelowCycle(e, j)
    {
      DoneParents(e, q, step, j);
      if q.state[j] == WaitDependencies { NotBelow(e, q, f, j); }
    }
  }

  lemma DoneParents(e: Edges<JobId>, q: Queue, step: Step, j: JobId)
    requires Regular(e, q) && Enabled(q, step) && Repairs(step, step.job) && q.state[step.job] == Failed
    requires j in q.state && Next(e, q, step).state[j] != WaitDependencies
    ensures AllParents(e, Next(e, q, step).state, j, Done)
    ensures q.state[j] == WaitDependencies ==> AllParents(e, q.state[step.job := Done], j, Done)
    ensures Next(e, q, step).state[j] != Cancelled
  {
  }

  /** A job all whose parents are done, or just taken as done, is not below a cycle. */
  lemma NotBelow(e: Edges<JobId>, q: Queue, f: JobId, j: JobId)
    requires Regular(e, q) && f in q.state && q.state[f] == Failed
    requires AllParents(e, q.state[f := Done], j, Done)
    ensures !BelowCycle(e, j)
  {
    if BelowCycle(e, j) {
      var p := BelowCycleHasParentBelow(e, j);
    }
  }

  /** A click repairs its job, and changes no other failed job. */
  lemma ClickRepairs(e: Edges<JobId>, q: Queue, step: Step)
    requires UnderRepair(e, q) && step.job in q.state && q.state[step.job] == Failed && Repairs(step, step.job)
    ensures Enabled(q, step) && UnderRepair(e, Next(e, q, step))
    ensures Next(e, q, step).state[step.job] != Failed
    ensures forall j :: j in q.state && j != step.job ==>
              (Next(e, q, step).state[j] == Failed <==> q.state[j] == Failed)
  {
    assert Enabled(q, step);
    RegularClick(e, q, step);
    NoLostWakeupStep(e, q, step);
  }

  lemma OthersToRepair(q: Queue, r: Queue, clicks: seq<Step>)
    requires clicks != [] && RepairsAll(q, clicks) && r.state.Keys == q.state.Keys
    requires clicks[0].job in q.state && r.state[clicks[0].job] != Failed
    requires forall j :: j in q.state && j != clicks[0].job ==> (r.state[j] == Failed <==> q.state[j] == Failed)
    ensures RepairsAll(r, clicks[1..])
  {
    forall j | j in r.state && r.state[j] == Failed
      ensures exists i :: 0 <= i < |clicks[1..]| && clicks[1..][i].job == j
    {
      var i :| 0 <= i < |clicks| && clicks[i].job == j;
      assert clicks[1..][i - 1] == clicks[i];
    }
  }

  lemma {:induction false} RepairsAreLegal(e: Edges<JobId>, q: Queue, clicks: seq<Step>)
    requires UnderRepair(e, q) && RepairsAll(q, clicks)
    ensures Legal(e, q, clicks) && OnTrack(e, After(e, q, clicks))
    decreases |clicks|
  {
    if clicks != [] {
      var step := clicks[0];
      assert step.job in q.state && q.state[step.job] == Failed && Repairs(step, step.job);
      hide UnderRepair, OnTrack, Enabled, Next, RepairsAll;
      ClickRepairs(e, q, step);
      OthersToRepair(q, Next(e, q, step), clicks);
      RepairsAreLegal(e, Next(e, q, step), clicks[1..]);
      assert clicks == [step] + clicks[1..];
      TakeStep(e, q, step, clicks[1..]);
    }
  }

  /** Recovery. Whatever failed on the way to a state at rest, each failed job can be requeued, or set
      done by a user, in any order; and then the run can be continued until every job is done, but for
      those on or below a cycle. */
  lemma FailuresCanBeRepaired(e: Edges<JobId>, jobs: set<JobId>, steps: seq<Step>, clicks: seq<Step>)
    returns (more: seq<Step>)
    requires Within(e, jobs)
    requires Legal(e, Initial(e, jobs), steps) && AllAutomatic(steps)
    requires Quiescent(After(e, Initial(e, jobs), steps))
    requires RepairsAll(After(e, Initial(e, jobs), steps), clicks)
    ensures var q := After(e, Initial(e, jobs), steps);
            && Legal(e, q, clicks) && Legal(e, After(e, q, clicks), more) && FailureFree(more)
            && forall j :: j in jobs ==> After(e, After(e, q, clicks), more).state[j] == Done || BelowCycle(e, j)
  {
    hide Quiescent, AllAutomatic, Legal, After, RepairsAll;
    var q := After(e, Initial(e, jobs), steps);
    InitialIsRegular(e, jobs);
    RegularAlways(e, Initial(e, jobs), steps);
    InitialLosesNothing(e, jobs);
    NoLostWakeupAlways(e, Initial(e, jobs), steps);
    OwedAreJobs(e, Initial(e, jobs), steps);
    RepairsAreLegal(e, q, clicks);
    more := RunToTheEnd(e, After(e, q, clicks));
  }

  lemma InitialLosesNothing(e: Edges<JobId>, jobs: set<JobId>)
    ensures NoLostWakeup(e, Initial(e, jobs)) && Initial(e, jobs).owed == {}
  {
  }

  /** On an acyclic graph all jobs end done. */
  lemma AcyclicGraphsRecover(e: Edges<JobId>, jobs: set<JobId>, steps: seq<Step>, clicks: seq<Step>)
    returns (more: seq<Step>)
    requires Within(e, jobs) && Acyclic(e)
    requires Legal(e, Initial(e, jobs), steps) && AllAutomatic(steps)
    requires Quiescent(After(e, Initial(e, jobs), steps))
    requires RepairsAll(After(e, Initial(e, jobs), steps), clicks)
    ensures var q := After(e, Initial(e, jobs), steps);
            && Legal(e, q, clicks) && Legal(e, After(e, q, clicks), more) && FailureFree(more)
            && forall j :: j in jobs ==> After(e, After(e, q, clicks), more).state[j] == Done
  {
    more := FailuresCanBeRepaired(e, jobs, steps, clicks);
    forall j ensures !BelowCycle(e, j) { }
  }
}
