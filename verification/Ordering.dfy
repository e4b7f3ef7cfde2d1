/** Orders.

    The keys of a dictionary in ascending order, whatever order they were inserted in (`SortedKeys`,
    specified by `Ascending`), and `sorted` with a key function (`SortedBy`): an insertion sort that
    leaves elements with equal keys in their order, as Python's does, and is a permutation of its
    argument in the order of the keys. */
module Ordering {
  import opened Digraphs

  ghost predicate Sorted(keys: seq<int>) {
    forall i, j :: 0 <= i < j < |keys| ==> keys[i] < keys[j]
  }

  ghost predicate IsLargest(k: int, s: set<int>) {
    k in s && forall x :: x in s ==> x <= k
  }

  lemma {:induction false} LargestExists(s: set<int>)
    requires s != {}
    ensures exists k :: IsLargest(k, s)
  {
    var k := AnyOf(s);
    if s == {k} {
      assert IsLargest(k, s);
    } else {
      LargestExists(s - {k});
      var m :| IsLargest(m, s - {k});
      forall x | x in s ensures x <= if m < k then k else m {
        if x != k { assert x in s - {k}; }
      }
      assert IsLargest(if m < k then k else m, s);
    }
  }

  ghost function Largest(s: set<int>): (k: int)
    requires s != {}
    ensures IsLargest(k, s)
  {
    LargestExists(s);
    var k :| IsLargest(k, s);
    k
  }

  ghost function Ascending(s: set<int>): (keys: seq<int>)
    ensures Sorted(keys) && forall k :: k in keys <==> k in s
    ensures |keys| == |s|
    decreases |s|
  {
    if s == {} then []
    else
      var k := Largest(s);
      Ascending(s - {k}) + [k]
  }

  lemma AscendingStep(s: set<int>)
    requires s != {}
    ensures Ascending(s) == Ascending(s - {Largest(s)}) + [Largest(s)]
  {
  }

  lemma {:induction false} AscendingIsUnique(keys: seq<int>, s: set<int>)
    requires Sorted(keys) && forall k :: k in keys <==> k in s
    ensures keys == Ascending(s)
    decreases |keys|
  {
    if keys == [] {
      assert forall k :: k in s ==> k in keys;
    } else {
      var init, last := keys[..|keys| - 1], keys[|keys| - 1];
      assert last in s;
      assert IsLargest(last, s);
      assert keys == init + [last];
      forall k ensures k in init <==> k in s - {last} {
        if k in init { assert k in keys; }
      }
      AscendingIsUnique(init, s - {last});
    }
  }

  /** `sorted(d.items())`: the keys are inserted in an arbitrary order. */
  method SortedKeys<V>(m: map<int, V>) returns (keys: seq<int>)
    ensures Sorted(keys) && keys == Ascending(m.Keys)
  {
    keys := [];
    var todo := m.Keys;
    while todo != {}
      invariant todo <= m.Keys && Sorted(keys)
      invariant forall k :: k in keys <==> k in m && k !in todo
    {
      var k := Pick(todo);
      keys := Insert(keys, k);
      todo := todo - {k};
    }
    AscendingIsUnique(keys, m.Keys);
  }

  method Insert(keys: seq<int>, k: int) returns (r: seq<int>)
    requires Sorted(keys) && k !in keys
    ensures Sorted(r) && forall x :: x in r <==> x == k || x in keys
  {
    var i := 0;
    while i < |keys| && keys[i] < k
      invariant i <= |keys| && forall m :: 0 <= m < i ==> keys[m] < k
    {
      i := i + 1;
    }
    r := keys[..i] + [k] + keys[i..];
    forall x ensures x in r <==> x == k || x in keys {
      assert keys == keys[..i] + keys[i..];
    }
  }

  // ---------------------------------------------------------------- sorting by a key

  ghost predicate TotalPreorder<T(!new)>(le: (T, T) -> bool) {
    && (forall x, y :: le(x, y) || le(y, x))
    && forall x, y, z :: le(x, y) && le(y, z) ==> le(x, z)
  }

  ghost predicate InOrder<T>(s: seq<T>, le: (T, T) -> bool) {
    forall i, j :: 0 <= i < j < |s| ==> le(s[i], s[j])
  }

  /** After the elements that are not greater. */
  function InsertedBy<T>(s: seq<T>, x: T, le: (T, T) -> bool): (r: seq<T>)
    ensures multiset(r) == multiset(s) + multiset{x}
  {
    if s == [] then [x]
    else
      var init, last := s[..|s| - 1], s[|s| - 1];
      assert s == init + [last];
      if le(last, x) then s + [x] else InsertedBy(init, x, le) + [last]
  }

  /** `sorted(s, key)`: elements with the same key keep their order. */
  function SortedBy<T>(s: seq<T>, le: (T, T) -> bool): (r: seq<T>)
    ensures multiset(r) == multiset(s)
  {
    if s == [] then []
    else
      assert s == s[..|s| - 1] + [s[|s| - 1]];
      InsertedBy(SortedBy(s[..|s| - 1], le), s[|s| - 1], le)
  }

  lemma InsertedBelow<T>(s: seq<T>, x: T, last: T, le: (T, T) -> bool)
    requires (forall y :: y in s ==> le(y, last)) && le(x, last)
    ensures forall y :: y in InsertedBy(s, x, le) ==> le(y, last)
  {
    forall y | y in InsertedBy(s, x, le) ensures le(y, last) {
      assert y in multiset(InsertedBy(s, x, le));
      assert y in multiset(s) || y == x;
    }
  }

  lemma EitherWay<T(!new)>(x: T, y: T, z: T, le: (T, T) -> bool)
    requires TotalPreorder(le)
    ensures (le(x, y) || le(y, x)) && (le(x, y) && le(y, z) ==> le(x, z))
  {
  }

  lemma {:induction false} InsertedByInOrder<T(!new)>(s: seq<T>, x: T, le: (T, T) -> bool)
    requires TotalPreorder(le) && InOrder(s, le)
    ensures InOrder(InsertedBy(s, x, le), le)
  {
    hide TotalPreorder;
    if s != [] {
      var init, last := s[..|s| - 1], s[|s| - 1];
      if le(last, x) {
        forall i | 0 <= i < |s| ensures le(s[i], x) { EitherWay(s[i], last, x, le); }
      } else {
        EitherWay(last, x, x, le);
        InsertedByInOrder(init, x, le);
        InsertedBelow(init, x, last, le);
      }
    }
  }

  lemma {:induction false} SortedByInOrder<T(!new)>(s: seq<T>, le: (T, T) -> bool)
    requires TotalPreorder(le)
    ensures InOrder(SortedBy(s, le), le)
  {
    if s != [] {
      SortedByInOrder(s[..|s| - 1], le);
      InsertedByInOrder(SortedBy(s[..|s| - 1], le), s[|s| - 1], le);
    }
  }
}
