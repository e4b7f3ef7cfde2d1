/** The mutable side of the queue: the `Job` objects that `delay()` links (queue_job/job.py), the
    stored table, and the methods that change it. Each method is one step of the protocol. */
module JobTable {
  import opened Digraphs
  import opened DelayGraph
  import opened Terms
  import opened JobProtocol

  /** A job in memory. */
  class Job {
    const uuid: JobId
    var state: JobState
    var dependsOn: set<Job>
    var reverseDependsOn: set<Job>

    constructor (uuid: JobId)
      ensures this.uuid == uuid && state == Pending && dependsOn == {} && reverseDependsOn == {}
    {
      this.uuid := uuid;
      state := Pending;
      dependsOn := {};
      reverseDependsOn := {};
    }

    /** Refused when a job is to depend on itself; otherwise a job with a parent that is not done waits. */
    method AddDepends(jobs: set<Job>) returns (ok: bool)
      modifies this, jobs
      ensures ok <==> this !in jobs
      ensures !ok ==> unchanged(this) && unchanged(jobs)
      ensures ok ==> dependsOn == old(dependsOn) + jobs
      ensures ok ==> forall p | p in jobs :: p.reverseDependsOn == old(p.reverseDependsOn) + {this}
      ensures ok ==> reverseDependsOn == old(reverseDependsOn)
      ensures ok ==> forall p | p in jobs :: p.state == old(p.state) && p.dependsOn == old(p.dependsOn)
      ensures ok ==> state == if exists p :: p in jobs && old(p.state) != Done then WaitDependencies else old(state)
    {
      ok := this !in jobs;
      if !ok { return; }
      dependsOn := dependsOn + jobs;
      var anyNotDone := false;
      var todo := jobs;
      while todo != {}
        invariant todo <= jobs && dependsOn == old(dependsOn) + jobs && state == old(state)
        invariant reverseDependsOn == old(reverseDependsOn)
        invariant forall p | p in jobs ::
                    p.reverseDependsOn == old(p.reverseDependsOn) + if p in todo then {} else {this}
        invariant forall p | p in jobs :: p.state == old(p.state) && p.dependsOn == old(p.dependsOn)
        invariant anyNotDone <==> exists p :: p in jobs - todo && old(p.state) != Done
      {
        var parent :| parent in todo;
        parent.reverseDependsOn := parent.reverseDependsOn + {this};
        anyNotDone := anyNotDone || parent.state != Done;
        todo := todo - {parent};
      }
      if anyNotDone {
        state := WaitDependencies;
      }
    }
  }

  /** The `queue_job` rows of one graph. `owed` is the obligation of the workers: whoever commits DONE,
      or a postponement, calls `enqueue_waiting` afterwards. */
  class QueueTable {
    const dependencies: Edges<JobId>
    var state: map<JobId, JobState>
    ghost var owed: set<JobId>

    ghost function Rows(): Queue
      reads this
    {
      Queue(state, owed)
    }

    constructor (dependencies: Edges<JobId>, state: map<JobId, JobState>)
      ensures Rows() == Queue(state, {}) && this.dependencies == dependencies
    {
      this.dependencies := dependencies;
      this.state := state;
      owed := {};
    }

    /** The update query shared by `enqueue_waiting` and `cancel_dependent_jobs`, row by row: the rows
        to update are chosen before any is changed. */
    method UpdateDependents(job: JobId, match_: JobState, to: JobState)
      modifies this`state
      ensures state == DependentsUpdated(dependencies, old(state), job, match_, to)
      ensures state.Keys == old(state).Keys
      ensures forall c | c in state ::
                state[c] == if (job, c) in dependencies && old(state)[c] == WaitDependencies
                               && AllParents(dependencies, old(state), c, match_) then to else old(state)[c]
    {
      hide AllParents;
      var before := state;
      var todo := before.Keys;
      while todo != {}
        invariant todo <= before.Keys && state.Keys == before.Keys
        invariant forall c | c in todo :: state[c] == before[c]
        invariant forall c | c in before && c !in todo ::
                    state[c] == RowUpdated(dependencies, before, job, c, match_, to)
      {
        var child := Pick(todo);
        var matches := AllParents(dependencies, before, child, match_);
        if (job, child) in dependencies && matches && before[child] == WaitDependencies {
          state := state[child := to];
        }
        todo := todo - {child};
      }
    }

    method EnqueueWaiting(job: JobId)
      requires Enabled(Rows(), Wake(job))
      modifies this
      ensures Rows() == Next(dependencies, old(Rows()), Wake(job))
    {
      UpdateDependents(job, Done, Pending);
      owed := owed - {job};
    }

    /** `set_job_enqueued` of the runner, on a pending job. */
    method SetEnqueued(job: JobId)
      requires Enabled(Rows(), Enqueue(job))
      modifies this
      ensures Rows() == Next(dependencies, old(Rows()), Enqueue(job))
    {
      state := state[job := Enqueued];
    }

    /** `_acquire_job`: only an enqueued row can be acquired, and only once. */
    method Acquire(job: JobId) returns (acquired: bool)
      modifies this
      ensures acquired <==> job in old(state) && old(state)[job] == Enqueued
      ensures state == if acquired then old(state)[job := Started] else old(state)
      ensures acquired <==> old(Enabled(Rows(), Start(job)))
      ensures Rows() == if acquired then Next(dependencies, old(Rows()), Start(job)) else old(Rows())
    {
      acquired := job in state && state[job] == Enqueued;
      if acquired {
        state := state[job := Started];
      }
    }

    method SetDone(job: JobId)
      requires Enabled(Rows(), Finish(job))
      modifies this
      ensures Rows() == Next(dependencies, old(Rows()), Finish(job))
    {
      state := state[job := Done];
      owed := owed + {job};
    }

    method SetFailed(job: JobId)
      requires Enabled(Rows(), Fail(job))
      modifies this
      ensures Rows() == Next(dependencies, old(Rows()), Fail(job))
    {
      state := state[job := Failed];
    }

    /** `set_pending` as the row's new state. */
    method SetPending(job: JobId)
      modifies this`state
      ensures state == old(state)[job := PendingOrWaiting(dependencies, old(state), job)]
    {
      var parentsDone := AllParents(dependencies, state, job, Done);
      state := state[job := if parentsDone then Pending else WaitDependencies];
    }

    /** `retry_postpone` of the worker, which then also calls `enqueue_waiting`. */
    method RetryPostpone(job: JobId)
      requires Enabled(Rows(), Retry(job))
      modifies this
      ensures Rows() == Next(dependencies, old(Rows()), Retry(job))
    {
      SetPending(job);
      owed := owed + {job};
    }

    /** `button_done`: jobs in other states are filtered out. */
    method ButtonDone(job: JobId)
      modifies this
      ensures job in old(state) && old(state)[job] in {WaitDependencies, Pending, Enqueued, Failed} ==>
                job in state && state[job] == Done
      ensures !(job in old(state) && old(state)[job] in {WaitDependencies, Pending, Enqueued, Failed}) ==>
                state == old(state)
      ensures Rows() == if old(Enabled(Rows(), Step.ButtonDone(job)))
                        then Next(dependencies, old(Rows()), Step.ButtonDone(job)) else old(Rows())
    {
      if job in state && state[job] in {WaitDependencies, Pending, Enqueued, Failed} {
        state := state[job := Done];
        UpdateDependents(job, Done, Pending);
      }
    }

    /** `button_cancelled`. */
    method ButtonCancelled(job: JobId)
      modifies this
      ensures job in old(state) && old(state)[job] in {Pending, Enqueued, Failed} ==>
                job in state && state[job] == Cancelled
      ensures !(job in old(state) && old(state)[job] in {Pending, Enqueued, Failed}) ==> state == old(state)
      ensures Rows() == if old(Enabled(Rows(), ButtonCancel(job)))
                        then Next(dependencies, old(Rows()), ButtonCancel(job)) else old(Rows())
    {
      if job in state && state[job] in {Pending, Enqueued, Failed} {
        state := state[job := Cancelled];
        UpdateDependents(job, Cancelled, Cancelled);
      }
    }

    /** `requeue`: a failed, done or cancelled job is pending again if its parents are all done, and else
        waits; jobs in other states are filtered out. */
    method Requeue(job: JobId)
      modifies this
      ensures job in old(state) && old(state)[job] in {Failed, Done, Cancelled} ==>
                state == old(state)[job := if AllParents(dependencies, old(state), job, Done) then Pending
                                           else WaitDependencies]
      ensures !(job in old(state) && old(state)[job] in {Failed, Done, Cancelled}) ==> state == old(state)
      ensures owed == old(owed)
      ensures Rows() == if old(Enabled(Rows(), Step.Requeue(job)))
                        then Next(dependencies, old(Rows()), Step.Requeue(job)) else old(Rows())
    {
      if job in state && state[job] in {Failed, Done, Cancelled} {
        SetPending(job);
      }
    }
  }

  // ---------------------------------------------------------------- delay

  /** A `Job` object for every vertex. */
  method BuildJobs(vertices: set<JobId>) returns (jobs: map<JobId, Job>)
    ensures jobs.Keys == vertices
    ensures forall id | id in jobs ::
              fresh(jobs[id]) && jobs[id].uuid == id && jobs[id].state == Pending && jobs[id].dependsOn == {}
  {
    jobs := map[];
    var todo := vertices;
    while todo != {}
      invariant todo <= vertices && jobs.Keys == vertices - todo
      invariant forall id | id in jobs ::
                  fresh(jobs[id]) && jobs[id].uuid == id && jobs[id].state == Pending && jobs[id].dependsOn == {}
    {
      var id := Pick(todo);
      var job := new Job(id);
      jobs := jobs[id := job];
      todo := todo - {id};
    }
  }

  /** The jobs have the dependencies of the edges `e` and no others, and those with a parent wait. */
  ghost predicate Linked(jobs: map<JobId, Job>, e: Edges<JobId>)
    reads jobs.Values
  {
    && (forall id :: id in jobs ==> jobs[id].uuid == id)
    && (forall id :: id in jobs ==> jobs[id].state == if Parents(e, id) == {} then Pending else WaitDependencies)
    && (forall id, p :: id in jobs && p in jobs ==> (jobs[p] in jobs[id].dependsOn <==> (p, id) in e))
    && (forall id :: id in jobs ==> jobs[id].dependsOn <= jobs.Values)
  }

  /** One dependency more. */
  method LinkOne(jobs: map<JobId, Job>, ghost e: Edges<JobId>, parent: JobId, child: JobId) returns (ok: bool)
    requires Linked(jobs, e) && parent in jobs && child in jobs
    modifies jobs.Values
    ensures ok <==> parent != child
    ensures ok ==> Linked(jobs, e + {(parent, child)})
  {
    assert jobs[child] in jobs.Values && jobs[parent] in jobs.Values;
    ok := jobs[child].AddDepends({jobs[parent]});
    if ok {
      forall id | id in jobs
        ensures Parents(e + {(parent, child)}, id) ==
                if id == child then Parents(e, id) + {parent} else Parents(e, id) { }
    }
  }

  /** `delay()` after the graph is connected: links the jobs and stores them, or refuses a job that
      depends on itself. No other cycle is refused. */
  method Delay(flat: Graph<JobId>) returns (table: QueueTable?)
    requires Closed(flat.adj)
    ensures table == null <==> exists j :: (j, j) in EdgesOf(flat.adj)
    ensures table != null ==>
              && fresh(table) && table.dependencies == EdgesOf(flat.adj)
              && table.Rows() == Initial(EdgesOf(flat.adj), flat.adj.Keys)
  {
    var edges := EdgesOf(flat.adj);
    var jobs := BuildJobs(flat.adj.Keys);
    ghost var linked: Edges<JobId> := {};
    table := null;
    while edges != {}
      invariant edges + linked == EdgesOf(flat.adj) && edges !! linked
      invariant Linked(jobs, linked) && jobs.Keys == flat.adj.Keys
      invariant forall id | id in jobs :: fresh(jobs[id])
      invariant forall j :: (j, j) !in linked
    {
      var edge := Pick(edges);
      assert edge.0 in jobs && edge.1 in jobs;
      var ok := LinkOne(jobs, linked, edge.0, edge.1);
      if !ok {
        assert (edge.0, edge.0) in EdgesOf(flat.adj);
        return;
      }
      linked := linked + {edge};
      edges := edges - {edge};
    }
    assert linked == EdgesOf(flat.adj);
    table := StoreAll(jobs, linked);
  }

  /** `store()` of every job: its state and the uuids it depends on. */
  method StoreAll(jobs: map<JobId, Job>, ghost e: Edges<JobId>) returns (table: QueueTable)
    requires Linked(jobs, e) && Within(e, jobs.Keys)
    ensures fresh(table) && table.dependencies == e && table.Rows() == Initial(e, jobs.Keys)
  {
    var dependencies := set id, p | id in jobs && p in jobs && jobs[p] in jobs[id].dependsOn :: (p, id);
    var state := map id | id in jobs :: jobs[id].state;
    forall id, p ensures (p, id) in dependencies <==> (p, id) in e {
      if (p, id) in e { assert (p, id).0 in jobs && (p, id).1 in jobs; }
    }
    assert dependencies == e;
    forall id | id in jobs ensures state[id] == Initial(e, jobs.Keys).state[id] {
      NoParents(e, id);
    }
    table := new QueueTable(dependencies, state);
  }

  lemma NoParents(e: Edges<JobId>, j: JobId)
    ensures Parents(e, j) == {} <==> !exists edge | edge in e :: edge.1 == j
  {
    if edge :| edge in e && edge.1 == j { assert edge.0 in Parents(e, j); }
  }
}
