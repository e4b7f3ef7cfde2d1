/** The series/parallel terms written with `chain(...)` and `group(...)` (queue_job/delay.py):
    what they mean, which links the flattening makes of them, and exactly when the two agree. */
module Terms {
  import opened Digraphs

  type JobId = int

  datatype Term = Job(id: JobId) | Chain(elements: Terms) | Group(members: Terms)

  datatype Terms = Nil | Cons(head: Term, tail: Terms)

  /** A sequence of jobs as the elements of a term. */
  function JobTerms(ids: seq<JobId>): Terms {
    if ids == [] then Nil else Cons(Job(ids[0]), JobTerms(ids[1..]))
  }

  function Jobs(t: Term): set<JobId> {
    match t
    case Job(id) => {id}
    case Chain(ts) => JobsOf(ts)
    case Group(ts) => JobsOf(ts)
  }

  function JobsOf(ts: Terms): set<JobId> {
    match ts
    case Nil => {}
    case Cons(t, rest) => Jobs(t) + JobsOf(rest)
  }

  /** No job occurs twice. */
  predicate Distinct(t: Term) {
    match t
    case Job(_) => true
    case Chain(ts) => AllDistinct(ts)
    case Group(ts) => AllDistinct(ts)
  }

  predicate AllDistinct(ts: Terms) {
    match ts
    case Nil => true
    case Cons(t, rest) => Distinct(t) && AllDistinct(rest) && Jobs(t) !! JobsOf(rest)
  }

  // ---------------------------------------------------------------- meaning

  /** The pairs (x, y) such that the term says that x must be done before y starts. */
  ghost function Before(t: Term): Edges<JobId> {
    match t
    case Job(_) => {}
    case Chain(ts) => BeforeInChain(ts)
    case Group(ts) => BeforeInGroup(ts)
  }

  ghost function BeforeInChain(ts: Terms): Edges<JobId> {
    match ts
    case Nil => {}
    case Cons(t, rest) => Before(t) + BeforeInChain(rest) + Cross(Jobs(t), JobsOf(rest))
  }

  ghost function BeforeInGroup(ts: Terms): Edges<JobId> {
    match ts
    case Nil => {}
    case Cons(t, rest) => Before(t) + BeforeInGroup(rest)
  }

  // ---------------------------------------------------------------- links made by the flattening

  /** `_head()`. The head of a chain is the `_tail()` of its first element, as in the code. */
  ghost function Heads(t: Term): set<JobId> {
    match t
    case Job(id) => {id}
    case Chain(ts) => if ts.Nil? then {} else Tails(ts.head)
    case Group(ts) => HeadsOf(ts)
  }

  /** `_tail()`. The tail of a chain is the `_head()` of its last element, as in the code. */
  ghost function Tails(t: Term): set<JobId> {
    match t
    case Job(id) => {id}
    case Chain(ts) => LastHeads(ts)
    case Group(ts) => TailsOf(ts)
  }

  ghost function HeadsOf(ts: Terms): set<JobId> {
    match ts
    case Nil => {}
    case Cons(t, rest) => Heads(t) + HeadsOf(rest)
  }

  ghost function TailsOf(ts: Terms): set<JobId> {
    match ts
    case Nil => {}
    case Cons(t, rest) => Tails(t) + TailsOf(rest)
  }

  ghost function FirstHeads(ts: Terms): set<JobId> {
    if ts.Nil? then {} else Heads(ts.head)
  }

  ghost function LastHeads(ts: Terms): set<JobId> {
    match ts
    case Nil => {}
    case Cons(t, Nil) => Heads(t)
    case Cons(t, rest) => LastHeads(rest)
  }

  /** The edges of the flattened graph. */
  ghost function Links(t: Term): Edges<JobId> {
    match t
    case Job(_) => {}
    case Chain(ts) => LinksInChain(ts)
    case Group(ts) => LinksInGroup(ts)
  }

  ghost function LinksInChain(ts: Terms): Edges<JobId> {
    match ts
    case Nil => {}
    case Cons(t, rest) => Links(t) + LinksInChain(rest) + Cross(Tails(t), FirstHeads(rest))
  }

  ghost function LinksInGroup(ts: Terms): Edges<JobId> {
    match ts
    case Nil => {}
    case Cons(t, rest) => Links(t) + LinksInGroup(rest)
  }

  // ---------------------------------------------------------------- the exact condition

  /** Every job of the term leads to (or is) one of its tails / one of its heads. */
  predicate EndsAtTails(t: Term) {
    match t
    case Job(_) => true
    case Chain(ts) => JobsOf(ts) == {} || LastEndsAtHeads(ts)
    case Group(ts) => AllEndAtTails(ts)
  }

  predicate EndsAtHeads(t: Term) {
    match t
    case Job(_) => true
    case Chain(ts) => ts.Nil? || (JobsOf(ts.tail) == {} && EndsAtTails(ts.head))
    case Group(ts) => AllEndAtHeads(ts)
  }

  predicate AllEndAtTails(ts: Terms) {
    ts.Cons? ==> EndsAtTails(ts.head) && AllEndAtTails(ts.tail)
  }

  predicate AllEndAtHeads(ts: Terms) {
    ts.Cons? ==> EndsAtHeads(ts.head) && AllEndAtHeads(ts.tail)
  }

  predicate LastEndsAtHeads(ts: Terms) {
    match ts
    case Nil => false
    case Cons(t, Nil) => Jobs(t) != {} && EndsAtHeads(t)
    case Cons(_, rest) => LastEndsAtHeads(rest)
  }

  /** Every job of the term follows (or is) one of its heads / one of its tails. */
  predicate StartsAtHeads(t: Term) {
    match t
    case Job(_) => true
    case Chain(ts) => JobsOf(ts) == {} || (Jobs(ts.head) != {} && StartsAtTails(ts.head))
    case Group(ts) => AllStartAtHeads(ts)
  }

  predicate StartsAtTails(t: Term) {
    match t
    case Job(_) => true
    case Chain(ts) => OnlyLastStartsAtHeads(ts)
    case Group(ts) => AllStartAtTails(ts)
  }

  predicate AllStartAtHeads(ts: Terms) {
    ts.Cons? ==> StartsAtHeads(ts.head) && AllStartAtHeads(ts.tail)
  }

  predicate AllStartAtTails(ts: Terms) {
    ts.Cons? ==> StartsAtTails(ts.head) && AllStartAtTails(ts.tail)
  }

  predicate OnlyLastStartsAtHeads(ts: Terms) {
    match ts
    case Nil => true
    case Cons(t, Nil) => StartsAtHeads(t)
    case Cons(t, rest) => Jobs(t) == {} && OnlyLastStartsAtHeads(rest)
  }

  /** What a caller can check of a term before delaying it: between two consecutive elements of a
      chain that both have jobs before and after, the first ends at its tails, and the second has
      jobs and starts at its heads. */
  predicate Faithful(t: Term) {
    match t
    case Job(_) => true
    case Chain(ts) => FaithfulChain(ts)
    case Group(ts) => AllFaithful(ts)
  }

  predicate AllFaithful(ts: Terms) {
    ts.Cons? ==> Faithful(ts.head) && AllFaithful(ts.tail)
  }

  predicate FaithfulChain(ts: Terms) {
    ts.Cons? ==>
      && Faithful(ts.head) && FaithfulChain(ts.tail)
      && (Jobs(ts.head) == {} || JobsOf(ts.tail) == {} ||
          (EndsAtTails(ts.head) && Jobs(ts.tail.head) != {} && StartsAtHeads(ts.tail.head)))
  }
}
