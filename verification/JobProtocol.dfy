/** The states of the jobs of one graph and the steps that change them (queue_job/job.py, the worker, the
    runner and the buttons of queue_job). Steps of different workers interleave freely. */
module JobProtocol {
  import opened Digraphs
  import opened Terms

  datatype JobState = WaitDependencies | Pending | Enqueued | Started | Done | Cancelled | Failed

  /** The stored states, and the jobs whose worker still has to call `enqueue_waiting`. */
  datatype Queue = Queue(state: map<JobId, JobState>, owed: set<JobId>)

  datatype Step =
    | Enqueue(job: JobId)      // the runner hands the job over
    | Start(job: JobId)        // a worker acquires it and performs it
    | Finish(job: JobId)       // DONE is committed
    | Fail(job: JobId)         // FAILED is committed
    | Retry(job: JobId)        // postponed: back through `set_pending`
    | Wake(job: JobId)         // the worker's `enqueue_waiting`
    | RequeueDead(job: JobId, giveUp: bool)  // the runner finds the worker dead
    | ButtonDone(job: JobId)
    | ButtonCancel(job: JobId)
    | Requeue(job: JobId)

  predicate AllParents(e: Edges<JobId>, state: map<JobId, JobState>, j: JobId, s: JobState) {
    forall edge | edge in e && edge.1 == j :: edge.0 in state && state[edge.0] == s
  }

  function RowUpdated(e: Edges<JobId>, state: map<JobId, JobState>, j: JobId, c: JobId, from: JobState,
                      to: JobState): JobState
    requires c in state
  {
    if (j, c) in e && AllParents(e, state, c, from) && state[c] == WaitDependencies then to else state[c]
  }

  /** The query of `_get_common_dependent_jobs_query`: the children of `j` that wait, and all of whose
      parents are in state `from`, go to state `to`. */
  function DependentsUpdated(e: Edges<JobId>, state: map<JobId, JobState>, j: JobId,
                             from: JobState, to: JobState): (r: map<JobId, JobState>)
    ensures r.Keys == state.Keys
  {
    map c | c in state :: RowUpdated(e, state, j, c, from, to)
  }

  /** `set_pending`. */
  function PendingOrWaiting(e: Edges<JobId>, state: map<JobId, JobState>, j: JobId): JobState {
    if AllParents(e, state, j, Done) then Pending else WaitDependencies
  }

  predicate Enabled(q: Queue, step: Step) {
    && step.job in q.state
    && var s := q.state[step.job];
       match step
       case Enqueue(_) => s == Pending
       case Start(_) => s == Enqueued
       case Finish(_) => s == Started
       case Fail(_) => s == Started
       case Retry(_) => s == Started
       case Wake(j) => j in q.owed
       case RequeueDead(_, _) => s in {Enqueued, Started}
       case ButtonDone(_) => s in {WaitDependencies, Pending, Enqueued, Failed}
       case ButtonCancel(_) => s in {Pending, Enqueued, Failed}
       case Requeue(_) => s in {Failed, Done, Cancelled}
  }

  function Next(e: Edges<JobId>, q: Queue, step: Step): (r: Queue)
    requires Enabled(q, step)
    ensures r.state.Keys == q.state.Keys
  {
    var j := step.job;
    match step
    case Enqueue(_) => q.(state := q.state[j := Enqueued])
    case Start(_) => q.(state := q.state[j := Started])
    case Finish(_) => Queue(q.state[j := Done], q.owed + {j})
    case Fail(_) => q.(state := q.state[j := Failed])
    case Retry(_) => Queue(q.state[j := PendingOrWaiting(e, q.state, j)], q.owed + {j})
    case Wake(_) => Queue(DependentsUpdated(e, q.state, j, Done, Pending), q.owed - {j})
    case RequeueDead(_, giveUp) => q.(state := q.state[j := if giveUp then Failed else Pending])
    case ButtonDone(_) => q.(state := DependentsUpdated(e, q.state[j := Done], j, Done, Pending))
    case ButtonCancel(_) => q.(state := DependentsUpdated(e, q.state[j := Cancelled], j, Cancelled, Cancelled))
    case Requeue(_) => q.(state := q.state[j := PendingOrWaiting(e, q.state, j)])
  }

  /** The steps can be taken one after the other. */
  predicate Legal(e: Edges<JobId>, q: Queue, steps: seq<Step>)
    decreases |steps|
  {
    steps == [] || (Enabled(q, steps[0]) && Legal(e, Next(e, q, steps[0]), steps[1..]))
  }

  function After(e: Edges<JobId>, q: Queue, steps: seq<Step>): (r: Queue)
    requires Legal(e, q, steps)
    ensures r.state.Keys == q.state.Keys
    decreases |steps|
  {
    if steps == [] then q else After(e, Next(e, q, steps[0]), steps[1..])
  }

  /** What `delay()` stores: a job with a dependency waits. */
  function Initial(e: Edges<JobId>, jobs: set<JobId>): (q: Queue)
    ensures q.state.Keys == jobs
  {
    Queue(map j | j in jobs :: if exists edge | edge in e :: edge.1 == j then WaitDependencies else Pending, {})
  }

  lemma TakeStep(e: Edges<JobId>, q: Queue, step: Step, rest: seq<Step>)
    requires Enabled(q, step) && Legal(e, Next(e, q, step), rest)
    ensures Legal(e, q, [step] + rest)
    ensures After(e, q, [step] + rest) == After(e, Next(e, q, step), rest)
  {
    assert ([step] + rest)[1..] == rest;
  }

  // ---------------------------------------------------------------- no lost wake-up

  /** A waiting job whose parents are all done has a parent whose `enqueue_waiting` is still to come. */
  ghost predicate NoLostWakeup(e: Edges<JobId>, q: Queue) {
    forall j :: j in q.state && q.state[j] == WaitDependencies && AllParents(e, q.state, j, Done) ==>
                  OwedByParent(e, q, j)
  }

  ghost predicate OwedByParent(e: Edges<JobId>, q: Queue, j: JobId) {
    exists p :: (p, j) in e && p in q.owed
  }

  lemma NoLostWakeupStep(e: Edges<JobId>, q: Queue, step: Step)
    requires NoLostWakeup(e, q) && Enabled(q, step)
    ensures NoLostWakeup(e, Next(e, q, step))
  {
  }

  /** In every run of any steps, manual ones included, no wake-up is lost. */
  lemma {:induction false} NoLostWakeupAlways(e: Edges<JobId>, q: Queue, steps: seq<Step>)
    requires NoLostWakeup(e, q) && Legal(e, q, steps)
    ensures NoLostWakeup(e, After(e, q, steps))
    decreases |steps|
  {
    if steps != [] {
      NoLostWakeupStep(e, q, steps[0]);
      NoLostWakeupAlways(e, Next(e, q, steps[0]), steps[1..]);
    }
  }

  // ---------------------------------------------------------------- a button that reads an old snapshot

  /** The children that the update query of a button chooses when its transaction reads `seen`. */
  ghost predicate Chosen(e: Edges<JobId>, seen: map<JobId, JobState>, j: JobId, c: JobId) {
    c in seen && c != j && (j, c) in e && seen[c] == WaitDependencies && AllParents(e, seen[j := Done], c, Done)
  }

  /** A row that the transaction writes has changed since its snapshot: it is rolled back. */
  ghost predicate Serializable(e: Edges<JobId>, q: Queue, seen: map<JobId, JobState>, j: JobId) {
    forall c :: c in q.state && (c == j || Chosen(e, seen, j, c)) ==> c in seen && seen[c] == q.state[c]
  }

  /** DONE and the update query share one transaction, whose snapshot may be older than the table. */
  ghost function StaleButtonDone(e: Edges<JobId>, q: Queue, seen: map<JobId, JobState>, j: JobId): (r: Queue)
    ensures r.state.Keys == q.state.Keys
  {
    if !Serializable(e, q, seen, j) then q
    else q.(state := map c | c in q.state ::
                if c == j then Done else if Chosen(e, seen, j, c) then Pending else q.state[c])
  }

  /** On a snapshot as recent as the table, it is the step `ButtonDone`. */
  lemma FreshButtonIsAStep(e: Edges<JobId>, q: Queue, j: JobId)
    requires Enabled(q, ButtonDone(j))
    ensures StaleButtonDone(e, q, q.state, j) == Next(e, q, ButtonDone(j))
  {
    var r, n := StaleButtonDone(e, q, q.state, j), Next(e, q, ButtonDone(j));
    assert q.state[j := Done].Keys == q.state.Keys;
    assert Serializable(e, q, q.state, j);
    forall c | c in q.state ensures r.state[c] == n.state[c] { }
    assert r.state == n.state && r.owed == n.owed;
  }

  /** `c` waits and has all its parents done with `j`, but the snapshot did not show it, and no parent
      owes a wake-up. */
  ghost predicate Missed(e: Edges<JobId>, q: Queue, seen: map<JobId, JobState>, j: JobId, c: JobId) {
    && c in q.state && c != j && (j, c) in e && q.state[c] == WaitDependencies
    && AllParents(e, q.state[j := Done], c, Done)
    && !Chosen(e, seen, j, c) && !OwedByParent(e, q, c)
  }

  /** A wake-up is lost if and only if some child is missed. */
  lemma StaleButtonIsRightIff(e: Edges<JobId>, q: Queue, seen: map<JobId, JobState>, j: JobId)
    requires NoLostWakeup(e, q) && Enabled(q, ButtonDone(j)) && Serializable(e, q, seen, j)
    ensures NoLostWakeup(e, StaleButtonDone(e, q, seen, j)) <==> forall c :: c in q.state ==> !Missed(e, q, seen, j, c)
  {
  }

  /** Two parents `a` and `b` of `c`: `b` is performed and woken after the button on `a` took its
      snapshot, and `c` waits for ever. */
  lemma StaleButtonLosesWakeup(a: JobId, b: JobId, c: JobId)
    requires a != b && b != c && a != c
    ensures var e := {(a, c), (b, c)};
            var q := Initial(e, {a, b, c});
            var steps := [Enqueue(b), Start(b), Finish(b), Wake(b)];
            && Legal(e, q, steps) && Enabled(After(e, q, steps), ButtonDone(a))
            && !NoLostWakeup(e, StaleButtonDone(e, After(e, q, steps), q.state, a))
  {
    hide Enabled, Next, Initial, AllParents;
    var e := {(a, c), (b, c)};
    var waiting := Three(a, Pending, b, Pending, c, WaitDependencies, {});
    var last := Three(a, Pending, b, Done, c, WaitDependencies, {});
    ThreeJobs(a, b, c);
    var rest := [Finish(b)] + [Wake(b)];
    TakeStep(e, Three(a, Pending, b, Done, c, WaitDependencies, {b}), Wake(b), []);
    TakeStep(e, Three(a, Pending, b, Started, c, WaitDependencies, {}), Finish(b), [Wake(b)]);
    TakeStep(e, Three(a, Pending, b, Enqueued, c, WaitDependencies, {}), Start(b), rest);
    TakeStep(e, waiting, Enqueue(b), [Start(b)] + rest);
    assert [Enqueue(b)] + ([Start(b)] + rest) == [Enqueue(b), Start(b), Finish(b), Wake(b)];
    LostOnThree(a, b, c);
  }

  function Three(a: JobId, sa: JobState, b: JobId, sb: JobState, c: JobId, sc: JobState, owed: set<JobId>): Queue {
    Queue(map[a := sa, b := sb, c := sc], owed)
  }

  predicate Leads(e: Edges<JobId>, q: Queue, step: Step, r: Queue) {
    Enabled(q, step) && Next(e, q, step) == r
  }

  lemma ThreeJobs(a: JobId, b: JobId, c: JobId)
    requires a != b && b != c && a != c
    ensures var e := {(a, c), (b, c)};
      && Initial(e, {a, b, c}) == Three(a, Pending, b, Pending, c, WaitDependencies, {})
      && Leads(e, Three(a, Pending, b, Pending, c, WaitDependencies, {}), Enqueue(b),
               Three(a, Pending, b, Enqueued, c, WaitDependencies, {}))
      && Leads(e, Three(a, Pending, b, Enqueued, c, WaitDependencies, {}), Start(b),
               Three(a, Pending, b, Started, c, WaitDependencies, {}))
      && Leads(e, Three(a, Pending, b, Started, c, WaitDependencies, {}), Finish(b),
               Three(a, Pending, b, Done, c, WaitDependencies, {b}))
      && Leads(e, Three(a, Pending, b, Done, c, WaitDependencies, {b}), Wake(b),
               Three(a, Pending, b, Done, c, WaitDependencies, {}))
      && Enabled(Three(a, Pending, b, Done, c, WaitDependencies, {}), ButtonDone(a))
  {
    assert (a, c) in {(a, c), (b, c)} && (b, c) in {(a, c), (b, c)};
  }

  lemma LostOnThree(a: JobId, b: JobId, c: JobId)
    requires a != b && b != c && a != c
    ensures var e := {(a, c), (b, c)};
            !NoLostWakeup(e, StaleButtonDone(e, Three(a, Pending, b, Done, c, WaitDependencies, {}),
                                             map[a := Pending, b := Pending, c := WaitDependencies], a))
  {
    var e, q := {(a, c), (b, c)}, Three(a, Pending, b, Done, c, WaitDependencies, {});
    var seen := map[a := Pending, b := Pending, c := WaitDependencies];
    assert (b, c) in e;
    assert seen[a := Done][(b, c).0] == Pending;
    assert !Chosen(e, seen, a, c);
    var r := StaleButtonDone(e, q, seen, a);
    assert r.state[c] == WaitDependencies && AllParents(e, r.state, c, Done);
  }
}
