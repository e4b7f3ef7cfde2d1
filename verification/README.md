# Verified models of an Odoo distribution

Dafny models of the parts of the repository where an order, a balance or a conservation law is at
stake, with proofs that hold for all inputs, all runs or all reachable states. `dafny verify
dfyconfig.toml` checks everything.

## What is modelled

**Job graphs (`queue_job/delay.py`).** A caller writes terms with `chain`, `group` and `on_done`; the
program flattens the graph objects they leave behind into one graph of jobs. The term language and its
meaning are in `Terms.dfy`; the mutable graphs, constructors, `on_done`, `_merge_graph` and
`_connect_graphs` in `DelayGraph.dfy`, `Flatten.dfy` and `Compilation.dfy`; the theorem that flattening
preserves meaning, with its exact condition, in `TermMeaning.dfy`; the same for `on_done` between any
terms in `OnDoneMeaning.dfy` and `OnDoneObjects.dfy`. `Splitting.dfy` uses it for `split`.

**The dependency protocol (`queue_job/job.py` with the worker, the runner and the buttons).**
`JobProtocol.dfy` is a state machine whose steps are single commits; any interleaving of them is a run.
Absence of lost wake-ups is proved there; `JobRuns.dfy` has dependency safety and what is true at rest;
`JobRecovery.dfy` that failures can be repaired; `JobCancellation.dfy` how far cancellations go;
`JobOrders.dfy` relates asynchronous and direct execution; `JobTable.dfy` has the table updated in place,
each method being proved to be one step; `TermRuns.dfy` joins the two halves: what a term promises
holds in every run. `JobRetry.dfy` has the retry counter and the delays.

**Barcodes.** `Gs1.dfy` is the repair pass over the product table; `MultiBarcode.dfy` and
`BarcodeDeletion.dfy` the barcode records that keep one barcode shown on each product.

**Accounting entries for SAGE X3.** `SageLines.dfy` has rounding and balancing, `SageEntries.dfy` one
payment on credit or one invoice, `SageDaily.dfy` the ENCAI and DECAI of a day, `SageDay.dfy` their
assembly with the map from entries to payments. What they post is proved on the inputs:
`SageAccounts.dfy` account by account, `SageDestinations.dfy` payment by payment, `SageOrders.dfy` order
by order. Amounts are integers in thousandths of a cent and rounding is explicit.

**The customer credit limit.** `CreditLedger.dfy` is a ledger over nine kinds of actions spread over
five files, and the records updated in place that implement it.

**Aggregations.** `Loyalty.dfy`, `AvoirJournee.dfy`, and the import of the POS history in
`PosImport.dfy` and `PosPreview.dfy`.

`Digraphs.dfy`, `Sums.dfy`, `Ordering.dfy`, `Decimals.dfy` and `Options.dfy` hold what several models
need. Iteration over a Python set or dictionary is modelled by an arbitrary choice, so what is proved
does not depend on the order.

## Where the code and its promises differ

The models follow the code; each difference has an exact condition or a concrete input.

- A chain takes its heads from `_tail()` of its first element and its tails from `_head()` of its last
  (`queue_job/delay.py:330-334`), against the description of chains in `queue_job/README.rst:221-231`.
  Flattening preserves the meaning of a term if and only if the term is `Faithful`, a predicate on its
  shape; `chain(x, chain(chain(a, b), c))` is not. An empty group inside a chain cuts it in two.
- `group().on_done(x)` forgets x, because no member of the group is there to be linked
  (`queue_job/delay.py:392-403`). `on_done` between terms means what it says if and only if the plan is
  `PlanFaithful`.
- `cancel_dependent_jobs` reaches the children of a job and stops there (`queue_job/job.py:546-549`),
  where `queue_job/README.rst:248-250` speaks of all dependent jobs: in a chain of three the last one
  keeps waiting. When one click is enough, and which jobs any number of clicks can cancel, have exact
  conditions; a grandchild with a cancellable parent of its own can go.
- `requeue` accepts a done job (`queue_job/models/queue_job.py:349-354`); its children may then run before
  it. A run is safe all along if and only if no step requeues a done job that has a released child.
- The done button changes the state and looks for waiting children in one transaction
  (`queue_job/models/queue_job.py:317-321`); on a snapshot older than the last commit of another worker
  it can lose a wake-up. When it does has an exact condition.
- A cycle of jobs is stored and waits forever; only a job that depends on itself is refused.
- With the retry pattern of `queue_job/README.rst:411-429` the fifth retry already waits 20 seconds.
- Writing a new code on a barcode while switching it off leaves the old code on the product; deleting
  several barcodes at once can leave a deleted code on it. Both have an exact condition.
- `_equilibrer_lignes` doubles the gap of a refund entry (`custom_api_sage_x3/models/account_move.py:825-839`,
  `:1349`). A DECAI is not adjusted and can be off by half a cent a line; when it is has an exact condition.
- The FACLI of an order paid only in part on credit charges the client with the whole order
  (`custom_api_sage_x3/models/account_move.py:643-691`), and the ENCAI has that order too: its sale is
  credited twice, where `custom_api_sage_x3/models/account_move.py:142-148` wants to avoid repetition.
- Cancelling a settlement can take consumption over the limit. It charges the partner of the invoice
  (`custom_food_credit/models/account_payment.py:59-67`), though registering it lowered the consumption of
  the partner of the wizard (`custom_food_credit/wizard/account_payment.py:36-48`): when they differ, one
  keeps what it should not and the other is charged for nothing.
- A customer reference without a name becomes a name after the preview of the POS import.
- Splitting an order can gain loyalty points when a line is negative, because `int()` truncates toward
  zero; by how much, and for one family when, is exact.

## Assumptions

- Jobs: the update query is one atomic step, and so is each button but in the lemmas on old snapshots; a
  button over several jobs is a sequence of such steps; a worker calls `enqueue_waiting` after its DONE is
  committed, and after a retry too (`queue_job/controllers/main.py:137-187`), possibly much later and
  between steps of other workers; `set_pending` reads the stored states of the parents; the runner hands over
  pending jobs only; a dead worker is a step that may happen at any time to an enqueued or started job;
  no job is deleted; all jobs of a graph share its uuid.
- Odoo: the records found by searches, taxes computed by `compute_all` and the rollback of refused
  actions are given. Recordsets hold no record twice. Posted invoices are not edited, and an invoice is
  not duplicated with its `is_limit` flag. A register wizard makes one payment, which keeps its amount and
  its invoices. A barcode record has a product that is the only variant of its template.
- SAGE X3: the payments of a day are records of one table. Account and third-party codes are integers in
  the order of their texts; dates and labels of lines are not modelled.
- POS import: cells are given cleaned and converted; quantities and prices are integers in the unit that
  the preview fields keep.

## Model

| member | source | states |
|---|---|---|
| DelayGraph.Graph.AddVertex | queue_job/delay.py:69-74 | adds a vertex without links; nothing else changes, and nothing at all if it is there |
| DelayGraph.Graph.AddEdge | queue_job/delay.py:76-82 | adds the child, the parent and exactly one edge |
| DelayGraph.Graph.RootVertices | queue_job/delay.py:147-155 | exactly the vertices that no edge ends in |
| DelayGraph.CountDependencies | queue_job/delay.py:132-134 | the number of parents of every vertex |
| DelayGraph.ReleaseChildren | queue_job/delay.py:142-145 | one round of the sort: the counts drop by one and the vertices that reach zero are queued |
| DelayGraph.TopologicalSort | queue_job/delay.py:125-145 | on any closed finite graph, cyclic or not, terminates and yields, each once and after all its parents, exactly the vertices with no cycle among themselves and their ancestors |
| DelayGraph.SortIsTotalIffAcyclic | queue_job/delay.py:125-145 | the sort yields every vertex if and only if the graph is acyclic |
| DelayGraph.PathSearch.Search | queue_job/delay.py:110-121 | finds every maximal cycle-free extension of the current path, each once, and restores `path` and `seen` |
| DelayGraph.Paths | queue_job/delay.py:98-123 | exactly the maximal cycle-free paths from a vertex, each once |
| TermMeaning.FlatteningIsSound | queue_job/delay.py:172-212 | the flat graph of any term over distinct jobs orders only what the term orders, so it is acyclic |
| TermMeaning.CompleteIffFaithful | queue_job/delay.py:319-334 | the flat graph orders all that the term orders exactly when the term is `Faithful` |
| TermMeaning.FlatteningPreservesMeaning | queue_job/README.rst:221-228 | reachability in the flat graph is the order of the term, for all pairs of jobs, if and only if the term is `Faithful` |
| TermMeaning.ConditionsMean | queue_job/delay.py:330-334 | the two conditions of `Faithful` on a term: all its jobs reach its tails, all are reached from its heads, as the swapped calls compute them |
| TermMeaning.NestableIsFaithful | queue_job/delay.py:298-386 | non-empty groups and chains that begin and end with symmetric elements always mean what they say |
| TermMeaning.NestedChainLosesOrder | queue_job/delay.py:330-334 | chain(x, chain(chain(a, b), c)) does not order x before a |
| TermMeaning.EmptyGroupLosesOrder | queue_job/delay.py:376-386 | an empty group in a chain cuts it |
| Flatten.NewDelayable | queue_job/delay.py:451-464 | a delayable with its own graph, of itself only |
| Flatten.NewChain | queue_job/delay.py:319-328 | a chain whose graph links each element to the next |
| Flatten.NewGroup | queue_job/delay.py:376-380 | a group whose graph has its members and no link |
| Flatten.OnDone | queue_job/delay.py:340-348 | adds the edges from the end of a chain, from every member of a group or from a job, to the new vertices, and nothing else |
| Flatten.MergeVertex | queue_job/delay.py:182-186 | links the tails of a vertex to the heads of its neighbours |
| Flatten.MergeGraph | queue_job/delay.py:172-186 | adds exactly the links and jobs of one graph |
| Flatten.ConnectGraphs | queue_job/delay.py:188-212 | terminates on any finite store of graphs, self-references included; the result has exactly the jobs and links of the graphs that can be reached, whatever the order of the visit |
| Flatten.VisitedIsLeast | queue_job/delay.py:199-210 | the graphs met are the least set closed under the graphs of vertices |
| Flatten.EndsAreVertices | queue_job/delay.py:330-334 | heads and tails are jobs reachable from the vertex |
| Flatten.FlatIsClosed | queue_job/delay.py:188-212 | every neighbour in the flat graph is also a key |
| Compilation.Compile | queue_job/delay.py:16-51 | the constructor calls of a term leave the objects that `Laid` describes |
| Compilation.VisitedMatch | queue_job/delay.py:199-210 | visiting the objects of a term meets exactly its graphs |
| Compilation.ContributionsMatch | queue_job/delay.py:172-186 | the links found in the graphs of a term are `Links` of the term |
| Compilation.Flattened | queue_job/delay.py:188-212 | building and connecting a term gives a graph with exactly its jobs and `Links` |
| Compilation.ExecutionOrder | queue_job/delay.py:293-295 | the direct execution runs every job of a term once, in an order its links allow; for a faithful term, after all that the term puts before it |
| OnDoneMeaning.OnDonePreservesMeaning | queue_job/README.rst:205-224 | `on_done` calls between any chains, groups and jobs: the flat graph is acyclic and orders only what the calls order; it has all their jobs and exactly their order if and only if the plan is `PlanFaithful` |
| OnDoneMeaning.CompleteIffPlanFaithful | queue_job/delay.py:340-348 | no job is forgotten and all of the order is carried exactly under the syntactic test |
| OnDoneMeaning.EndsForOnDoneMeans | queue_job/delay.py:340-348 | the test on a term: all its jobs reach those from which its `on_done` links start |
| OnDoneMeaning.RootsMean | queue_job/delay.py:392-403 | the test on the children: all their jobs are reached from the heads of the objects passed to `on_done` |
| OnDoneMeaning.NestablePlanIsFaithful | queue_job/delay.py:16-51 | `on_done` between nestable terms, as in the examples g1.on_done(g2) and chain1.on_done(chain2), always means what it says |
| OnDoneMeaning.OnDoneKeepsWhatChainLoses | queue_job/delay.py:330-348 | chain(a, chain(b, c)).on_done(d) orders c before d; chain(chain(a, chain(b, c)), d) does not |
| OnDoneMeaning.NestedOnDoneIsChain | queue_job/README.rst:223-224 | a.on_done(b.on_done(c...)) has the links and jobs of chain(a, b, c...) |
| OnDoneObjects.BuildPlan | queue_job/README.rst:205-219 | the objects that the constructor and `on_done` calls leave |
| OnDoneObjects.PlanContributions | queue_job/delay.py:172-186 | the graphs met contribute the links and jobs of the plan |
| OnDoneObjects.PlanIsFlattened | queue_job/delay.py:188-212 | connecting the objects of a plan gives its `PlanLinks` and `KeptJobs` |
| OnDoneObjects.FlattenedPlan | queue_job/delay.py:188-212 | evaluating and flattening a plan: acyclic, contradicting nothing, and complete exactly when faithful |
| Splitting.Split | queue_job/delay.py:528-571 | the batches are the records, in order, of the given size but the last; a zero size and a chain of nothing are refused |
| Splitting.SplitMeansItsBatches | queue_job/delay.py:528-571 | batch y is reachable from batch x exactly when a chain was asked for and x comes before y |
| JobProtocol.NoLostWakeupStep | queue_job/job.py:541-544 | every step keeps: a waiting job whose parents are all done has a parent whose `enqueue_waiting` is owed |
| JobProtocol.NoLostWakeupAlways | queue_job/job.py:541-544 | no lost wake-up in any run, with DONE and `enqueue_waiting` of a worker as separate steps, each button being one step |
| JobProtocol.FreshButtonIsAStep | queue_job/models/queue_job.py:308-331 | the done button on a snapshot as recent as the table is the step `ButtonDone` |
| JobProtocol.StaleButtonIsRightIff | queue_job/models/queue_job.py:308-331 | a done button whose transaction reads an older snapshot loses no wake-up if and only if every waiting child whose parents are all done with it was seen so, or has a parent that owes a wake-up |
| JobProtocol.StaleButtonLosesWakeup | queue_job/models/queue_job.py:308-331 | a run in which a job waits for ever: its other parent is performed and woken after the snapshot of the button |
| JobRuns.StepIsSafeIff | queue_job/job.py:764-768 | from a state in which released jobs have only done parents, a step leads to such a state if and only if it is `Harmless`, which is read before the step |
| JobRuns.RequeueIsSafeIff | queue_job/models/queue_job.py:349-354 | without self-loops, a requeue is safe if and only if the job is not done or none of its children is released |
| JobRuns.RunIsSafeIff | queue_job/job.py:764-768 | every state of a run is safe if and only if every step of the run is harmless |
| JobRuns.DependencySafety | queue_job/job.py:473-482 | in those runs, from what `delay()` stores: a job starts only when all its parents are done, and a retry sends it back to pending, never to waiting |
| JobRuns.HarmfulRequeueBreaksOrder | queue_job/models/queue_job.py:349-354 | after the requeue of a done job, each child that is pending or enqueued can start before it |
| JobRuns.RequeueOfDoneBreaksOrder | queue_job/models/queue_job.py:349-354 | a run from `delay()` in which requeuing a done job lets its child run before it |
| JobRuns.RegularAlways | queue_job/job.py:511-544 | in every run of automatic steps, a job that left the waiting state has only done parents, is not below a cycle and is not cancelled |
| JobRuns.Quiescence | queue_job/README.rst:242-251 | when no automatic step is left: every job is done, failed or waiting, and a job waits if and only if it is strictly below a failed job or below a cycle |
| JobRuns.QuiescenceWithoutCycles | queue_job/README.rst:242-251 | on an acyclic graph a job waits if and only if it is a strict descendant of a failed one |
| JobOrders.FailureFreeRunIsTopological | queue_job/controllers/main.py:93-107 | a failure-free run performs each job at most once and after all its parents; at rest it has performed all of them |
| JobOrders.DirectOrderIsARun | queue_job/delay.py:293-295 | performing the jobs one by one in an order that puts parents first is a legal asynchronous run |
| JobOrders.ForwardRunsAreShort | queue_job/job.py:779-797 | a run without retries, requeues of dead workers and manual steps has at most four steps a job |
| JobOrders.StuckMeansQuiescent | queue_job/controllers/main.py:65-107 | a run of forward steps that cannot be continued has come to rest: no automatic step is left |
| JobRecovery.FailuresCanBeRepaired | queue_job/README.rst:242-251 | from every state at rest after automatic steps, each failed job can be requeued or set done, in any order, and the run can then be continued without failure until every job is done, but for those on or below a cycle |
| JobRecovery.AcyclicGraphsRecover | queue_job/models/queue_job.py:349-354 | on an acyclic graph that run ends with all jobs done |
| JobRecovery.RepairsAreLegal | queue_job/models/queue_job.py:333-354 | the clicks are accepted one after the other, and nothing is failed or lost after them |
| JobRecovery.RunToTheEnd | queue_job/controllers/main.py:65-107 | where nothing is failed and no wake-up is lost, a failure-free run leads to the end |
| JobRecovery.RetriesStayOnTrack | queue_job/job.py:764-768 | a retry, or a dead worker whose job is not given up, only makes the job pending again, and the run can still be brought to its end |
| JobRecovery.GivenUpIsFailed | queue_job/jobrunner/runner.py:319-372 | a job found dead is pending again, or failed when it is given up; nothing else changes |
| JobCancellation.OneClickCancelsAllIff | queue_job/README.rst:248-250 | one cancellation cancels all dependents if and only if each is the job itself, already cancelled, or a waiting child whose other parents are all cancelled |
| JobCancellation.ChainIsCutAtChildren | queue_job/job.py:546-549 | three chained jobs, from `delay()`: the first fails and is cancelled, the second is cancelled too, the third waits, and no further cancellations change that |
| JobCancellation.CanBeCancelledIff | queue_job/README.rst:248-250 | which jobs some sequence of cancellations can cancel: the cancelled and cancellable ones, and a waiting job if and only if each waiting job it hangs on has a parent to click and no other kind of parent than cancelled, cancellable or waiting ones, and no set of links between them is stuck |
| JobCancellation.CancelledLinksAreNotStuck | queue_job/job.py:511-549 | links between waiting jobs whose children all end cancelled are never stuck |
| JobCancellation.ClickOrder | queue_job/job.py:511-549 | where no links are stuck, there is an order of the clicks in which each child has a parent clicked after all parents of its waiting parents |
| JobCancellation.StuckPartDecides | queue_job/job.py:511-549 | the condition on links can be computed before the clicks |
| JobCancellation.OutOfReach | queue_job/job.py:546-549 | a waiting job without a parent that the button accepts is never cancelled |
| JobCancellation.GrandchildWithTwoFailures | queue_job/job.py:546-549 | a grandchild that two clicks, in the right order, do cancel |
| JobTable.Job.AddDepends | queue_job/job.py:473-482 | both directions of the link are recorded, a job on itself is refused, and the job waits when a parent is not done |
| JobTable.QueueTable.UpdateDependents | queue_job/job.py:511-539 | exactly the waiting children of the job all of whose parents are in the state asked for change |
| JobTable.QueueTable.EnqueueWaiting | queue_job/job.py:541-544 | is the step `Wake` |
| JobTable.QueueTable.SetEnqueued | queue_job/jobrunner/runner.py:309-317 | is the step `Enqueue` |
| JobTable.QueueTable.Acquire | queue_job/controllers/main.py:66-83 | is the step `Start` |
| JobTable.QueueTable.SetDone | queue_job/controllers/main.py:93-107 | is the step `Finish` |
| JobTable.QueueTable.SetFailed | queue_job/controllers/main.py:171-181 | is the step `Fail` |
| JobTable.QueueTable.SetPending | queue_job/job.py:764-768 | a job is pending when its stored parents are all done, else it waits |
| JobTable.QueueTable.RetryPostpone | queue_job/controllers/main.py:142-148 | is the step `Retry` |
| JobTable.QueueTable.ButtonDone | queue_job/models/queue_job.py:333-339 | is the step `ButtonDone`: a waiting, pending, enqueued or failed job ends done, others are left |
| JobTable.QueueTable.ButtonCancelled | queue_job/models/queue_job.py:341-347 | is the step `ButtonCancel`: a pending, enqueued or failed job ends cancelled, others are left |
| JobTable.QueueTable.Requeue | queue_job/models/queue_job.py:349-354 | a failed, done or cancelled job ends pending when its parents are all done and waiting otherwise; jobs in other states, and all other jobs, are left; is the step `Requeue` |
| JobTable.BuildJobs | queue_job/delay.py:254-255 | one pending job a vertex |
| JobTable.LinkOne | queue_job/delay.py:263-264 | one more dependency, or a refusal when a job would depend on itself |
| JobTable.Delay | queue_job/delay.py:248-291 | stores the initial state of the flat graph; refused exactly when a job depends on itself |
| JobTable.StoreAll | queue_job/delay.py:290-291 | the rows are the states and dependencies of the jobs |
| TermRuns.DelayTerm | queue_job/delay.py:248-291 | a term over distinct jobs is never refused and leaves the initial state of its links |
| TermRuns.TermIsRespected | queue_job/README.rst:221-228 | every failure-free run of a faithful term performs its jobs in the order of the term, and all of them |
| TermRuns.FailuresStopOnlyWhatFollows | queue_job/README.rst:242-251 | whatever failed, was retried or found dead, what waits at rest is exactly what the term puts after a failed job |
| TermRuns.DelayPlan | queue_job/delay.py:248-291 | the same for `on_done` calls between terms: stored are the links and the jobs that are kept |
| TermRuns.PlanIsRespected | queue_job/README.rst:205-224 | every failure-free run of a faithful plan performs its jobs in the order of its `on_done` calls and terms, and all of them |
| TermRuns.PlanFailuresStopOnlyWhatFollows | queue_job/README.rst:242-251 | what waits at rest is exactly what the plan puts after a failed job |
| JobRetry.RetryCounter.Perform | queue_job/job.py:484-509 | one attempt: the counter and the outcome, an ignored retry not counted |
| JobRetry.RetryBound | queue_job/job.py:484-509 | over attempts that all ask for a retry, the counter is the number of counted ones, and the failure is raised exactly at the `max_retries`-th, never when it is 0 |
| JobRetry.PrescribedByDefault | queue_job/job.py:779-797 | without a key up to the counter the delay is ten minutes |
| JobRetry.RetrySeconds | queue_job/job.py:814-829 | the delay is the one given, or else the prescribed one, whatever the order of the dictionary |
| JobRetry.PrescriptionIsUnique | queue_job/README.rst:411-421 | the value at the largest key not above the counter, or the default, is one delay |
| JobRetry.FifthRetryOfReadmeExample | queue_job/README.rst:424-429 | with the pattern of the documentation the fifth retry waits 20 seconds, not 10 |
| Gs1.PositionSums | custom_api_sage_x3/models/insert_product_init.py:861-867 | the sums over odd and even positions, refused at a character that is no digit |
| Gs1.FixBarcode | custom_api_sage_x3/models/insert_product_init.py:846-870 | is `Repaired`: 13 digits get a right last digit, 12 digits one more, other lengths stay |
| Gs1.CheckDigitIsUnique | custom_api_sage_x3/models/insert_product_init.py:869-870 | the repaired code is the only valid one with its first twelve digits (section 7.9 of the GS1 General Specifications) |
| Gs1.RepairedIs | custom_api_sage_x3/models/insert_product_init.py:846-870 | twelve digits, and a thirteenth character if any, become the valid code that begins with them; another character there is an error; other lengths are only stripped |
| Gs1.ValidCodeIs | custom_api_sage_x3/models/insert_product_init.py:846-870 | a code is valid when its digits, weighted 1 and 3 in turn, sum to a multiple of ten |
| Gs1.StripIs | custom_api_sage_x3/models/insert_product_init.py:846-870 | what is stripped is white space at the ends |
| Gs1.SelectedIff | custom_api_sage_x3/models/insert_product_init.py:795-802 | the rows fetched are the active ones with a barcode of 12 or 13 characters that begins with 27 |
| Gs1.RepairIsIdempotent | custom_api_sage_x3/models/insert_product_init.py:846-870 | a repaired code is not repaired again |
| Gs1.ValidIffUnchanged | custom_api_sage_x3/models/insert_product_init.py:846-870 | 13 digits are unchanged if and only if they are a valid code |
| Gs1.SettledDigits | custom_api_sage_x3/models/insert_product_init.py:809-820 | a digit-only row is settled exactly when it has a valid code or its completion is held by another product |
| Gs1.ProductTable.HasConflict | custom_api_sage_x3/models/insert_product_init.py:813-817 | another product, active or not, has the code |
| Gs1.ProductTable.FixRow | custom_api_sage_x3/models/insert_product_init.py:808-827 | one round: the row ends settled, settled rows stay so, uniqueness is kept |
| Gs1.ProductTable.FixAll | custom_api_sage_x3/models/insert_product_init.py:788-832 | barcodes stay unique, every selected row ends settled, others are untouched, a settled table does not change; a non-digit makes the whole pass fail |
| MultiBarcode.BarcodeTable.OtherActive | custom_multi_barcode_for_products/models/product_multiple_barcodes.py:72-76 | another active record of the product, if there is one |
| MultiBarcode.BarcodeTable.Sync | custom_multi_barcode_for_products/models/product_multiple_barcodes.py:91-106 | one record of the second loop of `write` |
| MultiBarcode.BarcodeTable.SwitchOthersOff | custom_multi_barcode_for_products/models/product_multiple_barcodes.py:69-87 | the other active records of the products are switched off, and the products stay right |
| MultiBarcode.BarcodeTable.Write | custom_multi_barcode_for_products/models/product_multiple_barcodes.py:66-125 | refused exactly when a constraint would break; otherwise the records are `Written`, and every product shows its active barcode if and only if the write is not `Stale` |
| MultiBarcode.WrittenIs | custom_multi_barcode_for_products/models/product_multiple_barcodes.py:68-100 | what an accepted write leaves: the values given on the records written, the other records of their products switched off by an activation, nothing else |
| MultiBarcode.WriteSyncs | custom_multi_barcode_for_products/models/product_multiple_barcodes.py:91-106 | the exact condition, for any set of records |
| MultiBarcode.StaleIsShown | custom_multi_barcode_for_products/models/product_multiple_barcodes.py:96 | a record that is renamed while it is switched off stays shown |
| MultiBarcode.BarcodeTable.HasActive | custom_multi_barcode_for_products/models/product_multiple_barcodes.py:136-142 | the product has an active record |
| MultiBarcode.BarcodeTable.NewestOther | custom_multi_barcode_for_products/models/product_multiple_barcodes.py:174-178 | the newest other record of the product |
| MultiBarcode.BarcodeTable.UnlinkOne | custom_multi_barcode_for_products/models/product_multiple_barcodes.py:170-185 | the newest other record takes over, or the product is emptied |
| MultiBarcode.UnlinkStepIs | custom_multi_barcode_for_products/models/product_multiple_barcodes.py:168-204 | before an active record is deleted, the one with the largest other identifier of its product becomes the only active one; otherwise nothing changes |
| MultiBarcode.BarcodeTable.Unlink | custom_multi_barcode_for_products/models/product_multiple_barcodes.py:168-204 | deletes the records; the table is right afterwards if and only if no record activated on the way, and having a code, is deleted too |
| MultiBarcode.DeletionSyncs | custom_multi_barcode_for_products/models/product_multiple_barcodes.py:168-204 | the exact condition for the deletion itself |
| MultiBarcode.BarcodeTable.TreatNew | custom_multi_barcode_for_products/models/product_multiple_barcodes.py:132-159 | one round of `create` |
| MultiBarcode.BarcodeTable.Create | custom_multi_barcode_for_products/models/product_multiple_barcodes.py:128-166 | refused exactly when a constraint breaks; otherwise only the first new record of a product without active one is activated, and every product shows its active barcode |
| BarcodeDeletion.OneDeletionIsRight | custom_multi_barcode_for_products/models/product_multiple_barcodes.py:168-204 | deleting one record never leaves a wrong barcode |
| BarcodeDeletion.MarkSurvives | custom_multi_barcode_for_products/models/product_multiple_barcodes.py:168-204 | the active mark ends outside the deleted records exactly when the active one is kept, or its successor is, or its successor is deleted later and the next one is kept |
| BarcodeDeletion.BatchDeletionIsRightIff | custom_multi_barcode_for_products/models/product_multiple_barcodes.py:168-204 | when every record has a code, deleting several leaves the table right if and only if, for every deleted active record that is not alone, its successor is kept, or is deleted later and its own successor is kept |
| BarcodeDeletion.BatchDeletionCanFail | custom_multi_barcode_for_products/models/product_multiple_barcodes.py:168-204 | a deletion of two records that leaves a deleted code on the product |
| CreditLedger.RunConserves | custom_account/models/account_move.py:29-102 | over any interleaving of actions, for every partner: consumed = initial part + flagged moves + POS payments - what it settled + what cancellations charged to it - consumption updates, the initial part constant; the operation lines sum to the changes of consumption and limit |
| CreditLedger.ApplyConserves | custom_account/models/account_move.py:29-102 | every action keeps both equations, and no draft move is flagged |
| CreditLedger.CancellationReturnsToPayerIff | custom_food_credit/models/account_payment.py:59-73 | cancelling a settlement leaves every partner charged for what it did not settle, and for nothing else, if and only if nothing is restored, or the payer is the partner invoiced, or the amount is zero |
| CreditLedger.RunReturnsToPayerIff | custom_food_credit/models/account_payment.py:59-73 | over a run, the same for one partner: if and only if what cancellations charged to it for others equals what others were charged for it |
| CreditLedger.RunReturnsToPayer | custom_food_credit/models/account_payment.py:59-73 | when those who settle are those invoiced, consumption follows the settlements still linked, in every run |
| CreditLedger.CancellationChargesAnother | custom_food_credit/models/account_payment.py:59-73 | a run in which one partner settles and another, who paid nothing, is charged by the cancellation |
| CreditLedger.RunStaysWithin | custom_food_credit/models/pos_payment.py:44-73 | consumption stays within the limit in every run without cancellation of settlements |
| CreditLedger.CancellationStaysWithinIff | custom_food_credit/models/account_payment.py:48-74 | a cancellation keeps consumption within the limit exactly when the restored amount still fits the limit of the partner invoiced |
| CreditLedger.CancellationCanExceedLimit | custom_food_credit/models/account_payment.py:48-74 | limit 100, settled 60 then consumed 60 again: the cancellation leaves 140 consumed |
| CreditLedger.RestoredOnce | custom_food_credit/wizard/update_limit_credit.py:232-253 | a settlement is restored once, by whichever way comes first |
| CreditLedger.Desk.WriteDraft | custom_account/models/account_move.py:10-26 | is the step `Draft`: a move not posted is created or edited |
| CreditLedger.Desk.CheckCreditLimit | custom_account/models/account_move.py:29-68 | a move on credit is accepted if and only if its partner is flagged, has a credit, and the amount is at most what is available; it is then charged and flagged |
| CreditLedger.PostingSucceedsIff | custom_account/models/account_move.py:29-73 | a posting succeeds if and only if no move is posted yet and, at every move on credit, its partner is flagged, has a credit, and its moves so far sum to at most what is available; every partner then consumes the sum of its moves, and exactly the moves on credit are flagged |
| CreditLedger.CheckAllIff | custom_account/models/account_move.py:29-68 | the same for the checks alone |
| CreditLedger.Desk.ActionPost | custom_account/models/account_move.py:70-73 | that condition and that effect on the records themselves; refused, it changes nothing |
| CreditLedger.BackToDraftGivesBack | custom_account/models/account_move.py:75-102 | back to draft is accepted if and only if all moves are posted; every partner gets the sum of its flagged moves back, and they lose the flag |
| CreditLedger.Desk.ButtonDraft | custom_account/models/account_move.py:75-102 | the same on the records; is the step `BackToDraft` |
| CreditLedger.Desk.CreatePosPayment | custom_food_credit/models/pos_payment.py:76-131 | accepted if and only if the partner is flagged, has a credit, and the amount is at most what is available; it is then charged |
| CreditLedger.Desk.CreateSettlement | custom_food_credit/wizard/account_payment.py:20-56 | accepted if and only if the payer has a credit and has consumed the amount; its consumption is lowered |
| CreditLedger.Desk.RetireLimit | custom_food_credit/models/account_payment.py:48-74 | charges one linked settlement to the partner of the invoice, once |
| CreditLedger.Desk.ActionCancel | custom_food_credit/models/account_payment.py:15-24 | is the step `CancelPayments` |
| CreditLedger.Desk.UpdateLimitCredit | custom_food_credit/wizard/update_limit_credit.py:175-253 | a limit is changed if and only if it is not below the consumption; a positive amount up to the consumption lowers it; a canceled and linked payment is restored; all else is refused |
| CreditLedger.FailedCheckFails | custom_account/models/account_move.py:29-68 | a refused move makes the whole posting fail |
| SageLines.RoundIsUnique | custom_api_sage_x3/models/account_move.py:825-839 | `round(x, 2)` is the one nearest cent, the even one of two |
| SageLines.RoundingBound | custom_api_sage_x3/models/account_move.py:481-515 | rounding every line moves a total by half a cent a line at most |
| SageLines.Draft.Equilibrate | custom_api_sage_x3/models/account_move.py:825-839 | the first line of the side takes the gap |
| SageLines.EquilibratedGap | custom_api_sage_x3/models/account_move.py:825-839 | balancing on the debit side closes the gap, on the credit side it doubles it |
| SageLines.BalancedIff | custom_api_sage_x3/models/account_move.py:825-839 | an entry is balanced after `_equilibrer_lignes` if and only if it was before or a debit line took the gap |
| SageEntries.PosLinesByTax | custom_api_sage_x3/models/account_move.py:160-183 | each rate gets the sum of its tax amounts |
| SageEntries.PosLinesTotal | custom_api_sage_x3/models/account_move.py:185-204 | the rounded sum of the amounts without tax |
| SageEntries.PrepareLimitEntry | custom_api_sage_x3/models/account_move.py:619-772 | the entry of one payment on credit, refused without receivable account |
| SageEntries.LimitEntryIsBalanced | custom_api_sage_x3/models/account_move.py:643-772 | whatever the amounts, the taxes without account and the rounding: a FACLI and an AVCLI are balanced; only the client line, or the sale line, takes the gap; the due amount of a FACLI is its client debit and the sum of its credit lines |
| SageEntries.FacliChargesTheOrder | custom_api_sage_x3/models/account_move.py:643-691 | with its tax accounts set and no negative tax, a FACLI charges the client with the whole order, its rounded amount without tax and the rounded tax of each rate, even when the payment is smaller |
| SageEntries.InvoiceTaxTotals | custom_api_sage_x3/models/account_move.py:1301-1314 | the taxes by account, in the order of insertion |
| SageEntries.PrepareInvoiceEntry | custom_api_sage_x3/models/account_move.py:1254-1374 | the entry of an invoice or refund, or the first error |
| SageEntries.InvoiceEntryBalance | custom_api_sage_x3/models/account_move.py:1349-1360 | an invoice is balanced with one due amount; a refund has twice the gap of the lines it was computed with, and is balanced if and only if they are |
| SageEntries.RefundGapIsDoubled | custom_api_sage_x3/models/account_move.py:825-839 | a refund off by one cent is sent off by two |
| SageAccounts.InvoicePosts | custom_api_sage_x3/models/account_move.py:1296-1360 | read from the tax lines: each tax account gets the rounded sum of the balances of its rates, 9 and 18 percent and all others, the sale account the rounded untaxed amount, the client and the due amount their sum; for a refund on the other side, the client line being twice the rounded total less that sum |
| SageAccounts.InvoiceIsRefusedIff | custom_api_sage_x3/models/account_move.py:1268-1317 | refused if and only if a setting is missing or there is no untaxed amount |
| SageAccounts.LimitEntryPosts | custom_api_sage_x3/models/account_move.py:643-772 | read from the order lines: the taxes of a FACLI or AVCLI by account, the sale, and the client with its account and third party; a FACLI charges their sum, an AVCLI gives back the payment and leaves the sale what the taxes do not take |
| SageAccounts.GroupedAre | custom_api_sage_x3/models/account_move.py:160-183 | the tax of each rate is the sum over the lines and their taxes |
| SageAccounts.TaxAccountIs | custom_api_sage_x3/models/account_move.py:424-430 | the account of a rate by distance: 17.5 to 18.5 percent is 18, between 8.5 and 9.5 is 9, all others AIRSI |
| SageDaily.CollectPayments | custom_api_sage_x3/models/account_move.py:311-403 | the loops over sessions and payments collect what `DestinationOf` says |
| SageDaily.CollectedIds | custom_api_sage_x3/models/account_move.py:311-403 | the identifiers kept for the ENCAI and the DECAI are exactly those of the payments that go there, each once |
| SageDaily.CollectedAmounts | custom_api_sage_x3/models/account_move.py:353-399 | the food lines and the groups hold exactly the absolute amounts of the payments kept for the DECAI |
| SageDaily.PrepareEncai | custom_api_sage_x3/models/account_move.py:408-476 | the lines of the ENCAI, with its adjustment |
| SageDaily.EncaiIsBalanced | custom_api_sage_x3/models/account_move.py:526-545 | an ENCAI is balanced: the cash line is the sum of the rounded credit lines, off the exact total by half a cent a line at most |
| SageAccounts.EncaiPosts | custom_api_sage_x3/models/account_move.py:408-476 | read from the order lines and settlements: the sale account gets the rounded amount without tax, each tax account the rounded positive taxes of its rates, every settlement kept a line with its account and third party, and the cash line is the sum of all |
| SageAccounts.EncaiIsSentIff | custom_api_sage_x3/models/account_move.py:408-476 | an ENCAI is sent if and only if the sale, the positive taxes and the settlements kept are positive in all |
| SageDaily.FoodSortedInOrder | custom_api_sage_x3/models/account_move.py:484-485 | the food lines by account and third party, none lost |
| SageDaily.PrepareDecai | custom_api_sage_x3/models/account_move.py:481-515 | the lines of the DECAI |
| SageDaily.DecaiConserves | custom_api_sage_x3/models/account_move.py:481-515 | before rounding the debit lines sum to the absolute amounts of exactly the listed payments; it is sent whenever there is one; after rounding it is off by half a cent a line at most |
| SageDestinations.DecaiPosts | custom_api_sage_x3/models/account_move.py:353-515 | read from the payments: a line for each food payment on its account and for its third party, in order, a line an account for cards, cheques and vouchers, and the cash line for everything listed |
| SageDestinations.ListedByMethod | custom_api_sage_x3/models/account_move.py:353-403 | food, card, cheque and voucher payments are listed with the DECAI, and the other paid ones with the ENCAI |
| SageDestinations.OnCreditByMethod | custom_api_sage_x3/models/account_move.py:595-612 | the payments with an entry of their own are exactly those whose method is on credit |
| SageDestinations.CreditPaymentPosts | custom_api_sage_x3/models/account_move.py:619-772 | the entry of a payment on credit is for its partner, its amount and its order |
| SageDestinations.DayIsRefusedIff | custom_api_sage_x3/models/account_move.py:260-309 | a day with anything to send is refused if and only if a session is open, a setting is missing, or a payment on credit has no client account |
| SageDay.DecaiIsBalancedInCents | custom_api_sage_x3/models/account_move.py:481-515 | a DECAI of payments in whole cents is balanced |
| SageDay.DecaiGap | custom_api_sage_x3/models/account_move.py:481-515 | how far a DECAI is off: the rounded food payments and the rounded sums by account, less the rounded sum of what was paid |
| SageDay.DecaiIsBalancedIff | custom_api_sage_x3/models/account_move.py:481-515 | a DECAI is balanced if and only if its payments, rounded one by one for food and by account for the others, sum to their rounded sum |
| SageDay.DecaiCanBeUnbalanced | custom_api_sage_x3/models/account_move.py:353-399 | two food payments of half a cent, collected as any others: the DECAI is off by a cent |
| SageDay.PrepareLimitEntries | custom_api_sage_x3/models/account_move.py:595-777 | an entry and an identifier for each payment on credit, in the same order, or the refusal |
| SageDay.Assemble | custom_api_sage_x3/models/account_move.py:523-580 | the entries in their order, and each index mapped to its payments |
| SageDay.PrepareDailyEntry | custom_api_sage_x3/models/account_move.py:221-589 | the day, its errors and the empty day |
| SageDay.DayIsBalanced | custom_api_sage_x3/models/account_move.py:547-580 | every entry of every day but the DECAI is balanced to the cent, every FACLI with its due amount |
| SageDay.PaymentsAreMappedOnce | custom_api_sage_x3/models/account_move.py:547-580 | every entry index is mapped, and no payment is listed twice, neither under two entries nor under one |
| SageDay.PaidAreListed | custom_api_sage_x3/models/account_move.py:353-399 | every food, card, cheque or voucher payment is listed with the DECAI |
| SageDay.CreditIsListed | custom_api_sage_x3/models/account_move.py:570-580 | every payment on credit has an entry of its own |
| SageDay.CashIsListed | custom_api_sage_x3/models/account_move.py:401-403 | every cash payment is listed with the ENCAI when there is one |
| SageOrders.EncaiCreditsItsOrders | custom_api_sage_x3/models/account_move.py:185-204 | an ENCAI credits the sale account with the rounded sum of the orders it takes |
| SageOrders.FacliCreditsTheOrder | custom_api_sage_x3/models/account_move.py:643-691 | a FACLI credits the sale account with the whole order, whatever was paid of it, or with the payment when no line is taxed |
| SageOrders.SalesSentAre | custom_api_sage_x3/models/account_move.py:142-158 | for orders with positive totals and payments on credit: a day credits the sale account once with the orders that have a payment not on credit, and again for each payment on credit with its whole order, or the payment when no line is taxed |
| SageOrders.EverySaleIsSentOnceIff | custom_api_sage_x3/models/account_move.py:142-158 | for taxed sales in whole cents: each sale of a day is credited once if and only if no order has both a payment on credit and another one to send, nor two payments on credit; otherwise more is credited |
| Loyalty.ComputeTotals | custom_loyalty/models/sale_order.py:55-93 | the total of each family over the lines that count |
| Loyalty.ComputePoints | custom_loyalty/models/sale_order.py:95-110 | the points are the sum over the families, visited in any order |
| Loyalty.OrderOfLinesIsIrrelevant | custom_loyalty/models/sale_order.py:55-110 | the points do not depend on the order of the lines |
| Loyalty.LineThatDoesNotCount | custom_loyalty/models/sale_order.py:63-84 | a line without quantity, eligible product, family or valid product changes nothing, wherever it stands |
| Loyalty.OneLineOrder | custom_loyalty/models/sale_order.py:95-102 | an order of one line that counts gets as many awards as the threshold fits in its total, toward zero |
| Loyalty.TruncatedSum | custom_loyalty/models/sale_order.py:101 | the quotient of a sum is the sum of the quotients and a carry of -1, 0 or 1 that the remainders determine |
| Loyalty.SplittingChangesBy | custom_loyalty/models/sale_order.py:95-102 | whatever the signs: points(A + B) = points(A) + points(B) + the carries of the families on both sides |
| Loyalty.SplitFamilyPoints | custom_loyalty/models/sale_order.py:101 | for one family, ordering apart gains nothing if and only if `NoGain`, a test on the quotients and the remainders |
| Loyalty.OneFamilyGainsIff | custom_loyalty/models/sale_order.py:95-102 | for orders of one family, points(A) + points(B) <= points(A + B) if and only if `NoGain` of their totals |
| Loyalty.SplittingNeverGains | custom_loyalty/models/sale_order.py:95-102 | points(A + B) <= points(A) + points(B) + one award of each family on both sides, always; points(A) + points(B) <= points(A + B) when no family on both sides gains |
| Loyalty.DiscountLineGainsBySplitting | custom_loyalty/models/sale_order.py:101 | an order of 10 and one of a discount of 1 get a point apart and none together |
| AvoirJournee.Report.AddToResult | custom_pos/wizard/avoir_journee_wizard.py:150-173 | files the line under one more category, and nothing else |
| AvoirJournee.Report.FileOrder | custom_pos/wizard/avoir_journee_wizard.py:106-131 | one order, its categories in any order |
| AvoirJournee.Report.GetDataByCategory | custom_pos/wizard/avoir_journee_wizard.py:102-148 | every category once, by name; totals are sums of subtotals, subtotals sums of lines, and all totals together the food amounts times the number of categories they are filed under |
| AvoirJournee.Report.GetGrandTotal | custom_pos/wizard/avoir_journee_wizard.py:175-176 | the sum over orders of food amount times number of categories, one when there is none |
| AvoirJournee.SubtotalIsSum | custom_pos/wizard/avoir_journee_wizard.py:167-172 | a subtotal is the sum of its lines |
| AvoirJournee.CategoryTotalOn | custom_pos/wizard/avoir_journee_wizard.py:172-173 | a category total is the sum of its subtotals |
| AvoirJournee.GrandTotalOn | custom_pos/wizard/avoir_journee_wizard.py:172-176 | the category totals sum to the filed amounts, each as many times as it is filed |
| AvoirJournee.OrderOfOrdersIsIrrelevant | custom_pos/wizard/avoir_journee_wizard.py:102-148 | categories, customers, lines, subtotals and totals do not depend on the order of the orders |
| AvoirJournee.OtherModesDoNotMatter | custom_pos/wizard/avoir_journee_wizard.py:107-112 | payments of other methods, put in or taken out, change neither the report nor the grand total |
| AvoirJournee.OtherPaymentIsIgnored | custom_pos/wizard/avoir_journee_wizard.py:107-112 | one payment of another method, anywhere in an order, is such a difference |
| AvoirJournee.FullyPaidIsFiled | custom_pos/wizard/avoir_journee_wizard.py:107-112 | an order paid with the method only is filed for the sum of its payments |
| AvoirJournee.GrandTotalsPartition | custom_pos/wizard/avoir_journee_wizard.py:175-176 | over any methods that include all used, the grand totals sum to everything paid, each order once for each category it is filed under |
| AvoirJournee.ReportedIff | custom_pos/wizard/avoir_journee_wizard.py:113-131 | a category is reported if and only if some order with a non-zero sum of payments of the method is filed under it |
| AvoirJournee.WantedRestrictsReport | custom_pos/wizard/avoir_journee_wizard.py:119-122 | asking for categories shows exactly those of the full report, with the same contents |
| AvoirJournee.ReportIsSorted | custom_pos/wizard/avoir_journee_wizard.py:133-148 | categories by name, customers by number and name, lines by date and number |
| PosImport.ParseRows | custom_import_excel/wizard/pos_import_wizard.py:467-527 | the orders by reference, and an error for each row refused |
| PosImport.ImportedRows | custom_import_excel/wizard/pos_import_wizard.py:467-498 | the rows imported are those with a date, a product and numbers, in order, each with its reference or one made of its day and the number of rows without reference so far |
| PosImport.ReportedRows | custom_import_excel/wizard/pos_import_wizard.py:473-493 | all other rows are reported, in order, each with the first thing wrong with it |
| PosImport.OrderOfItsRows | custom_import_excel/wizard/pos_import_wizard.py:500-525 | an order has the date of its first row, the first customer given, and a line with the cells of each of its rows, in order |
| PosImport.GeneratedRefForm | custom_import_excel/wizard/pos_import_wizard.py:497 | a generated reference is made of the day and of the counter with zeros in front |
| PosImport.EveryRowIsAccounted | custom_import_excel/wizard/pos_import_wizard.py:467-527 | accepted rows plus errors are the rows; the orders have different references and one line for each accepted row |
| PosImport.UnnamedRowsStandAlone | custom_import_excel/wizard/pos_import_wizard.py:495-498 | rows without a reference never share an order with each other |
| PosImport.GeneratedRefsDiffer | custom_import_excel/wizard/pos_import_wizard.py:497 | generated references with different counters are different |
| PosImport.GroupBySession | custom_import_excel/wizard/pos_import_wizard.py:529-535 | one session a day, by day |
| PosImport.EveryOrderHasOneSession | custom_import_excel/wizard/pos_import_wizard.py:529-535 | every order is in exactly one session, that of its day |
| PosImport.OrdersKeepTheirPlace | custom_import_excel/wizard/pos_import_wizard.py:529-535 | the orders of a day stay in the order of the file |
| PosPreview.ActionPreview | custom_import_excel/wizard/pos_import_wizard.py:200-236 | the preview lines, numbered by tens, the customer on the first of each order |
| PosPreview.PreviewShowsEveryLine | custom_import_excel/wizard/pos_import_wizard.py:200-236 | every line of every order of the file is in the preview, with its cells, its state and what was found, numbered by tens |
| PosPreview.CustomerSurvivesIff | custom_import_excel/wizard/pos_import_wizard.py:376-380 | the texts of the customer come back from the preview if and only if there is a name after a reference in which no separator begins, or no reference and a name without separator; a reference alone comes back as a name |
| PosPreview.BuildDataFromPreview | custom_import_excel/wizard/pos_import_wizard.py:364-403 | the dictionaries made of the lines, sorted by number |
| PosPreview.FlatIsRebuilt | custom_import_excel/wizard/pos_import_wizard.py:364-403 | flattened orders with different references and at least a line come back as they were placed |
| PosPreview.PreviewRoundTrip | custom_import_excel/wizard/pos_import_wizard.py:200-403 | from the preview of a file, read back in any order, the same sessions, orders and lines in the same order |
| PosPreview.OrdersSurvivePreview | custom_import_excel/wizard/pos_import_wizard.py:200-403 | each order comes back with its name, day, customer found and, line by line, product, quantity, prices, margin and note |

## Left out

- Identity keys of jobs, graph uuids (`_ensure_same_graph_uuid`), channels, priorities, descriptions, results, timestamps and worker pids: they do not enter the dependency protocol.
- The random draw of a retry delay from a range: the model stops at the range.
- JobTable.QueueTable: the joins of the update query on the JSON columns are modelled as two sets of identifiers.
- JobRuns.Quiescence: says what is true at rest, not that a run with endless retries comes to rest; `JobOrders.ForwardRunsAreShort` bounds runs without retries.
- HTTP, tokens, payloads and logs of the SAGE X3 connection, and the marking of what was sent: the calls that mark payments and sessions are commented out in the source.
- Third-party texts, labels, dates and due dates of accounting lines; the searches of `_prepare_daily_entry`, whose results are parameters. `SageOrders` relates the order lines found to the payments of one day; an order whose payments are sent on different days is not followed across days.
- Objects on which `on_done` was called and that are then put into a chain or a group: `OnDoneMeaning` covers `on_done` calls on and between terms.
- Gs1.Strip: strips spaces, tabs and line ends only, not every Unicode space; `int()` of other Unicode digits is refused.
- Barcodes bound to a template with several variants, and moving a barcode to another product.
- `UpdateLimitCreditWizard._process_invoice_payment`: it reads a field that does not exist, so the action always ends in an error and is rolled back.
- The food credit, the Excel import of limits and the deletion of payments.
- Money as binary floats: amounts are integers in a small unit and rounding is exact.
- PosPreview.Carried: does not carry the discount and the time of the day, because the preview lines have no field for them, and carries the customer's texts only as far as `CustomerSurvivesIff` says.
- Creation of the imported sessions, orders and payments, and the lookup of products and customers, which is a parameter.
- Reports as PDF or HTML, other Excel wizards, dashboards, menus and manifests.
