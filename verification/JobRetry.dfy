/** The retry counter of a job and the delay before its next attempt (queue_job/job.py). */
module JobRetry {
  import opened Ordering

  const RETRY_INTERVAL := 600

  /** How an attempt ends: normally, with a RetryableJobError, or with any other exception. */
  datatype Attempt = Success | Retryable(ignoreRetry: bool) | Crash

  datatype Outcome = Performed | WillRetry | MaxRetriesReached | Raised

  class RetryCounter {
    var retry: nat
    const maxRetries: nat

    constructor (maxRetries: nat)
      ensures retry == 0 && this.maxRetries == maxRetries
    {
      retry := 0;
      this.maxRetries := maxRetries;
    }

    /** `perform`. */
    method Perform(attempt: Attempt) returns (outcome: Outcome)
      modifies this
      ensures retry == old(retry) + if attempt == Retryable(true) then 0 else 1
      ensures outcome == Performed <==> attempt == Success
      ensures outcome == Raised <==> attempt == Crash
      ensures outcome == MaxRetriesReached <==> attempt == Retryable(false) && maxRetries != 0 && retry >= maxRetries
      ensures (retry, outcome) == AfterAttempt(old(retry), maxRetries, attempt)
    {
      retry := retry + 1;
      match attempt
      case Success => outcome := Performed;
      case Crash => outcome := Raised;
      case Retryable(ignoreRetry) =>
        if ignoreRetry {
          retry := retry - 1;
          outcome := WillRetry;
        } else if maxRetries == 0 {
          outcome := WillRetry;
        } else if retry >= maxRetries {
          outcome := MaxRetriesReached;
        } else {
          outcome := WillRetry;
        }
    }
  }

  function AfterAttempt(retry: nat, maxRetries: nat, attempt: Attempt): (nat, Outcome) {
    match attempt
    case Success => (retry + 1, Performed)
    case Crash => (retry + 1, Raised)
    case Retryable(true) => (retry, WillRetry)
    case Retryable(false) =>
      (retry + 1, if maxRetries == 0 || retry + 1 < maxRetries then WillRetry else MaxRetriesReached)
  }

  /** How many attempts of the list are not marked `ignore_retry`. */
  function CountedAttempts(attempts: seq<Attempt>): (n: nat) {
    if attempts == [] then 0
    else CountedAttempts(attempts[..|attempts| - 1]) + if attempts[|attempts| - 1] == Retryable(true) then 0 else 1
  }

  /** Attempts made one after the other until one is not to be retried: how many were made, the
      counter, and the last outcome. */
  function Attempts(attempts: seq<Attempt>, maxRetries: nat): (r: (nat, nat, Outcome))
    ensures r.0 <= |attempts|
  {
    if attempts == [] then (0, 0, WillRetry)
    else
      var (made, retry, outcome) := Attempts(attempts[..|attempts| - 1], maxRetries);
      if outcome != WillRetry then (made, retry, outcome)
      else
        var (retry', outcome') := AfterAttempt(retry, maxRetries, attempts[|attempts| - 1]);
        (|attempts|, retry', outcome')
  }

  /** Over attempts that all end in a RetryableJobError, the counter is the number of attempts made
      that are not marked `ignore_retry`; the failure is raised exactly at the `maxRetries`-th of them,
      and never when `maxRetries` is zero. */
  lemma {:induction false} RetryBound(attempts: seq<Attempt>, maxRetries: nat)
    requires forall i :: 0 <= i < |attempts| ==> attempts[i].Retryable?
    ensures var (made, retry, outcome) := Attempts(attempts, maxRetries);
            && retry == CountedAttempts(attempts[..made])
            && outcome in {WillRetry, MaxRetriesReached}
            && (outcome == MaxRetriesReached <==> maxRetries > 0 && CountedAttempts(attempts) >= maxRetries)
            && (outcome == MaxRetriesReached ==>
                  retry == maxRetries && made > 0 && attempts[made - 1] == Retryable(false))
            && (outcome == WillRetry ==> made == |attempts|)
  {
    var made := Attempts(attempts, maxRetries).0;
    if attempts != [] {
      var init := attempts[..|attempts| - 1];
      RetryBound(init, maxRetries);
      assert init[..|init|] == init;
      if made < |attempts| { assert attempts[..made] == init[..made]; }
    }
    assert attempts[..|attempts|] == attempts;
  }

  // ---------------------------------------------------------------- the delay

  /** A delay, fixed or to be drawn from a range. */
  datatype Seconds = Fixed(seconds: int) | Range(low: int, high: int)

  /** What the pattern prescribes for a counter: the value at the largest key not above it, or the
      default interval when there is none. */
  ghost predicate Prescribed(pattern: map<int, Seconds>, retry: int, s: Seconds) {
    if exists k :: k in pattern && k <= retry
    then exists k :: k in pattern && k <= retry && pattern[k] == s
                     && forall k' :: k' in pattern && k' <= retry ==> k' <= k
    else s == Fixed(RETRY_INTERVAL)
  }

  /** `_get_retry_seconds` before the random draw. `seconds` is the delay given with the error; zero
      counts as none, and so does an empty pattern. */
  method RetrySeconds(retry: int, pattern: map<int, Seconds>, seconds: Seconds) returns (s: Seconds)
    ensures seconds != Fixed(0) ==> s == seconds
    ensures seconds == Fixed(0) ==> Prescribed(pattern, retry, s)
  {
    s := seconds;
    if seconds == Fixed(0) && pattern != map[] {
      var keys := SortedKeys(pattern);
      s := Fixed(RETRY_INTERVAL);
      var i := 0;
      while i < |keys| && retry >= keys[i]
        invariant i <= |keys| && forall m :: 0 <= m < i ==> keys[m] <= retry
        invariant s == if i == 0 then Fixed(RETRY_INTERVAL) else pattern[keys[i - 1]]
      {
        s := pattern[keys[i]];
        i := i + 1;
      }
      SortedPrefix(pattern, keys, i, retry, s);
    } else if seconds == Fixed(0) {
      s := Fixed(RETRY_INTERVAL);
    }
  }

  /** Without a key up to the counter, the delay is ten minutes. */
  lemma PrescribedByDefault(pattern: map<int, Seconds>, retry: int)
    requires forall k :: k in pattern ==> retry < k
    ensures Prescribed(pattern, retry, Fixed(600))
    ensures forall s :: Prescribed(pattern, retry, s) ==> s == Fixed(600)
  {
  }

  lemma SortedPrefix(pattern: map<int, Seconds>, keys: seq<int>, i: nat, retry: int, s: Seconds)
    requires Sorted(keys) && forall k :: k in keys <==> k in pattern
    requires i <= |keys| && (forall m :: 0 <= m < i ==> keys[m] <= retry) && (i < |keys| ==> retry < keys[i])
    requires s == if i == 0 then Fixed(RETRY_INTERVAL) else pattern[keys[i - 1]]
    ensures Prescribed(pattern, retry, s)
  {
    forall k | k in pattern && k <= retry ensures i > 0 && k <= keys[i - 1] {
      var m :| 0 <= m < |keys| && keys[m] == k;
    }
    if i > 0 { assert keys[i - 1] in pattern; }
  }

  /** The README's example says that the five first retries wait 10 seconds; the fifth waits 20. */
  lemma FifthRetryOfReadmeExample(s: Seconds)
    requires Prescribed(map[1 := Fixed(10), 5 := Fixed(20), 10 := Fixed(30), 15 := Fixed(300)], 5, s)
    ensures s == Fixed(20)
  {
    var pattern := map[1 := Fixed(10), 5 := Fixed(20), 10 := Fixed(30), 15 := Fixed(300)];
    assert 5 in pattern;
  }

  /** The prescription is unique, so the order of the dictionary cannot matter. */
  lemma PrescriptionIsUnique(pattern: map<int, Seconds>, retry: int, s: Seconds, s': Seconds)
    requires Prescribed(pattern, retry, s) && Prescribed(pattern, retry, s')
    ensures s == s'
  {
    if exists k :: k in pattern && k <= retry {
      var k :| k in pattern && k <= retry && pattern[k] == s && forall k' :: k' in pattern && k' <= retry ==> k' <= k;
      var m :| m in pattern && m <= retry && pattern[m] == s' && forall k' :: k' in pattern && k' <= retry ==> k' <= m;
    }
  }
}
