/** `Delayable.split`: a job cut into batches, run in sequence or in parallel (queue_job/delay.py). */
module Splitting {
  import opened Digraphs
  import opened Options
  import opened Terms
  import opened TermMeaning

  datatype SplitError = ZeroStep | NothingToChain

  function Concatenated<R>(batches: seq<seq<R>>): seq<R> {
    if batches == [] then [] else Concatenated(batches[..|batches| - 1]) + batches[|batches| - 1]
  }

  /** The batches are numbered from 0. */
  function Numbers(n: nat): (ids: seq<JobId>)
    ensures |ids| == n && forall i :: 0 <= i < n ==> ids[i] == i
  {
    if n == 0 then [] else Numbers(n - 1) + [n - 1]
  }

  function SplitTerm(n: nat, asChain: bool): Term {
    if asChain then Chain(JobTerms(Numbers(n))) else Group(JobTerms(Numbers(n)))
  }

  /** The records are kept, in order, in batches of `size`, the last one possibly smaller. A negative
      size makes no batch, a zero one is refused, and so is a chain of nothing. */
  method Split<R>(records: seq<R>, size: int, asChain: bool) returns (r: Result<(seq<seq<R>>, Term), SplitError>)
    ensures size == 0 ==> r == Err(ZeroStep)
    ensures size != 0 ==> (r == Err(NothingToChain) <==> asChain && (size < 0 || records == []))
    ensures r.Ok? ==>
              var (batches, term) := r.value;
              && term == SplitTerm(|batches|, asChain)
              && Concatenated(batches) == (if size > 0 then records else [])
              && (forall i :: 0 <= i < |batches| ==> 0 < |batches[i]| <= size)
              && (forall i :: 0 <= i < |batches| - 1 ==> |batches[i]| == size)
  {
    if size == 0 {
      return Err(ZeroStep);
    }
    var batches: seq<seq<R>> := [];
    var index := 0;
    while size > 0 && index < |records|
      invariant 0 <= index && (size < 0 ==> batches == [])
      invariant size > 0 ==> Concatenated(batches) == records[..if index < |records| then index else |records|]
      invariant forall i :: 0 <= i < |batches| ==> 0 < |batches[i]| <= size
      invariant forall i :: 0 <= i < |batches| ==> |batches[i]| == size || (i == |batches| - 1 && index >= |records|)
      invariant batches == [] <==> index == 0
      decreases |records| - index
    {
      var end := if index + size < |records| then index + size else |records|;
      assert (batches + [records[index..end]])[..|batches|] == batches;
      batches := batches + [records[index..end]];
      index := index + size;
    }
    if asChain && batches == [] {
      return Err(NothingToChain);
    }
    r := Ok((batches, SplitTerm(|batches|, asChain)));
  }

  /** A sequence of jobs, none twice, as the elements of a term. */
  lemma {:induction false} JobTermsMean(ids: seq<JobId>)
    requires NoDuplicates(ids)
    ensures var ts := JobTerms(ids);
            && AllDistinct(ts) && AllFaithful(ts) && FaithfulChain(ts)
            && JobsOf(ts) == Elements(ids) && BeforeInGroup(ts) == {}
            && forall x, y :: (x, y) in BeforeInChain(ts) <==> Precedes(ids, x, y)
  {
    if ids != [] {
      var rest := ids[1..];
      JobTermsMean(rest);
      assert forall x :: x in ids <==> x == ids[0] || x in rest;
      forall x, y ensures (x, y) in BeforeInChain(JobTerms(ids)) <==> Precedes(ids, x, y) { PrecedesFirst(ids, x, y); }
    }
  }

  lemma PrecedesFirst<T>(s: seq<T>, x: T, y: T)
    requires s != []
    ensures Precedes(s, x, y) <==> Precedes(s[1..], x, y) || (x == s[0] && y in s[1..])
  {
    if Precedes(s, x, y) {
      var i, j :| 0 <= i < j < |s| && s[i] == x && s[j] == y;
      if i > 0 { assert s[1..][i - 1] == x && s[1..][j - 1] == y; }
    }
    if Precedes(s[1..], x, y) {
      var i, j :| 0 <= i < j < |s[1..]| && s[1..][i] == x && s[1..][j] == y;
      assert s[i + 1] == x && s[j + 1] == y;
    }
    if x == s[0] && y in s[1..] {
      var j :| 0 <= j < |s[1..]| && s[1..][j] == y;
      assert s[j + 1] == y;
    }
  }

  /** The graph of a split: a batch can be reached from another exactly when the split makes a chain and
      the batch comes later; a group of batches has no order at all. */
  lemma SplitMeansItsBatches(n: nat, asChain: bool)
    ensures Distinct(SplitTerm(n, asChain)) && Acyclic(Links(SplitTerm(n, asChain)))
    ensures forall x, y :: Reach(Links(SplitTerm(n, asChain)), x, y) <==> asChain && 0 <= x < y < n
  {
    hide Reach, Links, Numbers;
    var ids, t := Numbers(n), SplitTerm(n, asChain);
    JobTermsMean(ids);
    FlatteningPreservesMeaning(t);
    forall x, y ensures Precedes(ids, x, y) <==> 0 <= x < y < n {
      if 0 <= x < y < n { assert ids[x] == x && ids[y] == y; }
    }
  }
}
