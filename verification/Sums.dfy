/** Sums of amounts.

    `Sum` adds a sequence, `Total` the values of a map, and `SumBy` the weights of the elements of a
    sequence, which does not depend on their order.

    `Partition` says that items grouped by a key are each counted once; `TotalMonotone` and
    `TotalZeros` compare the totals of maps. */
module Sums {
  import opened Digraphs

  function Sum(s: seq<int>): int {
    if s == [] then 0 else Sum(s[..|s| - 1]) + s[|s| - 1]
  }

  lemma SumAppend(s: seq<int>, x: int)
    ensures Sum(s + [x]) == Sum(s) + x
  {
    assert (s + [x])[..|s|] == s;
  }

  lemma {:induction false} SumConcat(s: seq<int>, t: seq<int>)
    ensures Sum(s + t) == Sum(s) + Sum(t)
  {
    if t == [] {
      assert s + t == s;
    } else {
      SumConcat(s, t[..|t| - 1]);
      assert (s + t)[..|s + t| - 1] == s + t[..|t| - 1];
    }
  }

  ghost function Total<K>(m: map<K, int>): int
    decreases |m|
  {
    if m == map[] then 0
    else
      var k := AnyOf(m.Keys);
      m[k] + Total(m - {k})
  }

  lemma {:induction false} TotalSplit<K>(m: map<K, int>, k: K)
    requires k in m
    ensures Total(m) == m[k] + Total(m - {k})
    decreases |m|
  {
    var j := AnyOf(m.Keys);
    if j != k {
      TotalSplit(m - {j}, k);
      TotalSplit(m - {k}, j);
      assert m - {j} - {k} == m - {k} - {j};
    }
  }

  lemma TotalUpdate<K>(m: map<K, int>, k: K, v: int)
    ensures Total(m[k := v]) == Total(m) - (if k in m then m[k] else 0) + v
  {
    TotalSplit(m[k := v], k);
    if k in m {
      TotalSplit(m, k);
      assert m[k := v] - {k} == m - {k};
    } else {
      assert m[k := v] - {k} == m;
    }
  }

  // ---------------------------------------------------------------- totals compared

  ghost function Plus<K>(m: map<K, int>, n: map<K, int>): map<K, int>
    requires m.Keys == n.Keys
  {
    map k | k in m :: m[k] + n[k]
  }

  lemma {:induction false} TotalPlus<K>(m: map<K, int>, n: map<K, int>)
    requires m.Keys == n.Keys
    ensures Total(Plus(m, n)) == Total(m) + Total(n)
    decreases |m|
  {
    if m == map[] {
      assert n == map[] && Plus(m, n) == map[];
    } else {
      var k := AnyOf(m.Keys);
      TotalSplit(m, k);
      TotalSplit(n, k);
      TotalSplit(Plus(m, n), k);
      TotalPlus(m - {k}, n - {k});
      assert Plus(m, n) - {k} == Plus(m - {k}, n - {k});
    }
  }

  lemma {:induction false} TotalMonotone<K>(m: map<K, int>, n: map<K, int>)
    requires m.Keys == n.Keys && forall k :: k in m ==> m[k] <= n[k]
    ensures Total(m) <= Total(n)
    decreases |m|
  {
    if m == map[] {
      assert n == map[];
    } else {
      var k := AnyOf(m.Keys);
      TotalSplit(m, k);
      TotalSplit(n, k);
      TotalMonotone(m - {k}, n - {k});
    }
  }

  /** Keys whose value is zero do not count. */
  lemma {:induction false} TotalZeros<K>(m: map<K, int>, zeros: set<K>)
    requires forall k :: k in m && k in zeros ==> m[k] == 0
    ensures Total(m - zeros) == Total(m)
    decreases |zeros|
  {
    if zeros == {} {
      assert m - zeros == m;
    } else {
      var k := AnyOf(zeros);
      if k in m {
        TotalSplit(m, k);
      } else {
        assert m - {k} == m;
      }
      TotalZeros(m - {k}, zeros - {k});
      assert m - {k} - (zeros - {k}) == m - zeros;
    }
  }

  ghost function Indicator<K>(all: set<K>, chosen: set<K>, x: int): map<K, int> {
    map k | k in all :: if k in chosen then x else 0
  }

  lemma {:induction false} TotalIndicator<K>(all: set<K>, chosen: set<K>, x: int)
    requires chosen <= all
    ensures Total(Indicator(all, chosen, x)) == x * |chosen|
    decreases |chosen|
  {
    if chosen == {} {
      TotalZeros(Indicator(all, chosen, x), all);
      assert Indicator(all, chosen, x) - all == map[];
    } else {
      var k := AnyOf(chosen);
      TotalIndicator(all, chosen - {k}, x);
      assert Indicator(all, chosen, x) == Indicator(all, chosen - {k}, x)[k := x];
      TotalUpdate(Indicator(all, chosen - {k}, x), k, x);
      assert x * |chosen| == x * |chosen - {k}| + x;
    }
  }

  // ---------------------------------------------------------------- sums of a weight

  ghost function SumBy<T>(s: seq<T>, weight: T -> int): int {
    if s == [] then 0 else SumBy(s[..|s| - 1], weight) + weight(s[|s| - 1])
  }

  lemma SumByAppend<T>(s: seq<T>, x: T, weight: T -> int)
    ensures SumBy(s + [x], weight) == SumBy(s, weight) + weight(x)
  {
    assert (s + [x])[..|s|] == s;
  }

  lemma {:induction false} SumByConcat<T>(s: seq<T>, t: seq<T>, weight: T -> int)
    ensures SumBy(s + t, weight) == SumBy(s, weight) + SumBy(t, weight)
  {
    if t == [] {
      assert s + t == s;
    } else {
      SumByConcat(s, t[..|t| - 1], weight);
      assert (s + t)[..|s + t| - 1] == s + t[..|t| - 1];
    }
  }

  /** Taking out one occurrence of an element. */
  lemma TakeOut<T>(t: seq<T>, x: T) returns (rest: seq<T>, i: nat)
    requires x in multiset(t)
    ensures i < |t| && t[i] == x && rest == t[..i] + t[i + 1..]
    ensures multiset(t) == multiset(rest) + multiset{x}
  {
    i :| 0 <= i < |t| && t[i] == x;
    rest := t[..i] + t[i + 1..];
    assert t == t[..i] + [x] + t[i + 1..];
  }

  /** The order of the elements does not matter. */
  lemma {:induction false} SumByPermutation<T>(s: seq<T>, t: seq<T>, weight: T -> int)
    requires multiset(s) == multiset(t)
    ensures SumBy(s, weight) == SumBy(t, weight)
  {
    if s == [] {
      assert |multiset(t)| == 0;
    } else {
      var init, x := s[..|s| - 1], s[|s| - 1];
      assert s == init + [x];
      var rest, i := TakeOut(t, x);
      assert multiset(init) == multiset(s) - multiset{x};
      SumByPermutation(init, rest, weight);
      SumByTakenOut(t, i, weight);
    }
  }

  lemma SumByTakenOut<T>(t: seq<T>, i: nat, weight: T -> int)
    requires i < |t|
    ensures SumBy(t, weight) == SumBy(t[..i] + t[i + 1..], weight) + weight(t[i])
  {
    hide SumBy;
    SumByConcat(t[..i], t[i + 1..], weight);
    SumByConcat(t[..i + 1], t[i + 1..], weight);
    SumByAppend(t[..i], t[i], weight);
    assert t[..i + 1] == t[..i] + [t[i]];
    assert t == t[..i + 1] + t[i + 1..];
  }

  // ---------------------------------------------------------------- counting by key

  ghost function CountOf<T, K>(items: seq<T>, key: T -> K, k: K): int {
    if items == [] then 0 else CountOf(items[..|items| - 1], key, k) + if key(items[|items| - 1]) == k then 1 else 0
  }

  ghost function Counted<T, K>(items: seq<T>, key: T -> K): K -> int {
    (k: K) => CountOf(items, key, k)
  }

  lemma {:induction false} CountOneMore<T, K>(keys: seq<K>, items: seq<T>, x: T, key: T -> K)
    requires NoDuplicates(keys)
    ensures SumBy(keys, Counted(items + [x], key)) == SumBy(keys, Counted(items, key)) + if key(x) in keys then 1 else 0
  {
    assert (items + [x])[..|items|] == items;
    if keys != [] {
      var init, k := keys[..|keys| - 1], keys[|keys| - 1];
      CountOneMore(init, items, x, key);
      assert keys == init + [k];
      assert key(x) in keys <==> key(x) in init || key(x) == k;
    }
  }

  lemma {:induction false} CountNothing<T, K>(keys: seq<K>, key: T -> K)
    ensures SumBy(keys, Counted([], key)) == 0
  {
    if keys != [] { CountNothing<T, K>(keys[..|keys| - 1], key); }
  }

  /** Items grouped by a key are each counted once. */
  lemma {:induction false} Partition<T, K>(keys: seq<K>, items: seq<T>, key: T -> K)
    requires NoDuplicates(keys) && forall i :: 0 <= i < |items| ==> key(items[i]) in keys
    ensures SumBy(keys, Counted(items, key)) == |items|
  {
    if items == [] {
      CountNothing<T, K>(keys, key);
    } else {
      var init, x := items[..|items| - 1], items[|items| - 1];
      Partition(keys, init, key);
      CountOneMore(keys, init, x, key);
      assert items == init + [x];
    }
  }
}
