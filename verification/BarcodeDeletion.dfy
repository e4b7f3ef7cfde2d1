/** Deleting barcodes: one at a time is always right; several at once exactly under a condition that
    can be read off the identifiers and the order of the deletion. */
module BarcodeDeletion {
  import opened Digraphs
  import opened MultiBarcode

  /** Where the active mark of a product goes, from `a`, while the records of `self` are treated. */
  ghost function Mark(records: Records, self: seq<RecordId>, a: RecordId): (m: RecordId)
    requires a in records
    ensures m in records
    decreases |self|
  {
    if self == [] then a
    else Mark(records, self[1..], if self[0] == a && Newest(records, a).Some? then Newest(records, a).value else a)
  }

  lemma {:induction false} MarkSame(records: Records, after: Records, self: seq<RecordId>, a: RecordId)
    requires SameProducts(records, after) && a in records
    ensures Mark(after, self, a) == Mark(records, self, a)
    decreases |self|
  {
    NewestSame(records, after, a);
    if self != [] {
      MarkSame(records, after, self[1..],
               if self[0] == a && Newest(records, a).Some? then Newest(records, a).value else a);
    }
  }

  /** The active record of the product after the loop of `unlink`. */
  lemma {:induction false} LoopMovesMark(records: Records, self: seq<RecordId>, a: RecordId, p: ProductId)
    requires OneActive(records) && UniqueCodes(records) && ActiveIn(records, a, p)
    requires forall r :: r in self ==> r in records
    ensures forall r :: ActiveIn(UnlinkLoop(records, self), r, p) <==> r == Mark(records, self, a)
    decreases |self|
  {
    if self != [] {
      assert self[0] in self;
      StepSameProducts(records, self[0]);
      var after := UnlinkStep(records, self[0]);
      var b := if self[0] == a && Newest(records, a).Some? then Newest(records, a).value else a;
      LoopMovesMark(after, self[1..], b, p);
      MarkSame(records, after, self[1..], b);
    }
  }

  /** Deleting one record is always right; after deleting the active one, the newest remaining record
      of the product is the active one. */
  lemma OneDeletionIsRight(records: Records, r: RecordId)
    requires OneActive(records) && UniqueCodes(records) && r in records
    ensures !DeletesActivated(records, [r])
    ensures records[r].active && Newest(records, r).Some? ==>
              && Newest(records, r).value != r
              && ActiveIn(UnlinkLoop(records, [r]), Newest(records, r).value, records[r].product)
    ensures !records[r].active ==> UnlinkLoop(records, [r]) == records
  {
    assert [r][1..] == [];
    assert UnlinkLoop(records, [r]) == UnlinkStep(records, r);
    if records[r].active && Newest(records, r).Some? {
      ActivationOfNewest(records, Newest(records, r).value);
    }
  }

  // ---------------------------------------------------------------- several at once

  lemma {:induction false} MarkStays(records: Records, self: seq<RecordId>, a: RecordId)
    requires a in records && a !in self
    ensures Mark(records, self, a) == a
    decreases |self|
  {
    if self != [] { MarkStays(records, self[1..], a); }
  }

  lemma {:induction false} MarkMovesAt(records: Records, self: seq<RecordId>, a: RecordId, i: nat)
    requires a in records && Newest(records, a).Some?
    requires i < |self| && self[i] == a && NoDuplicates(self)
    ensures Mark(records, self, a) == Mark(records, self[i + 1..], Newest(records, a).value)
    decreases |self|
  {
    if i == 0 {
    } else {
      assert self[0] != self[i];
      MarkMovesAt(records, self[1..], a, i - 1);
      assert self[1..][i..] == self[i + 1..];
    }
  }

  lemma PositionOf(self: seq<RecordId>, x: RecordId) returns (i: nat)
    requires x in self
    ensures i < |self| && self[i] == x
  {
    i :| 0 <= i < |self| && self[i] == x;
  }

  /** The newest other record of the newest other record of `x` is `x` itself or the second newest:
      after two moves, the mark is back where it has been, or on a record whose next move goes there. */
  lemma NewestOfNewest(records: Records, a: RecordId)
    requires a in records && Newest(records, a).Some?
    ensures var n1 := Newest(records, a).value;
            && n1 in records && n1 != a && Newest(records, n1).Some?
            && var n2 := Newest(records, n1).value;
               && n2 in records && n2 != n1 && Newest(records, n2).Some?
               && (n2 == a || Newest(records, n2).value == n1)
  {
    var n1 := Newest(records, a).value;
    assert IsNewest(records, a, n1);
    LoneMeansAlone(records, n1, a);
    var n2 := Newest(records, n1).value;
    assert IsNewest(records, n1, n2);
    LoneMeansAlone(records, n2, n1);
    if n2 != a {
      assert a <= n2 <= n1;
      assert IsNewest(records, n2, n1);
      NewestIs(records, n2, n1);
    }
  }

  /** Where the mark of a product with at least two records ends: outside the deleted records exactly
      when the active record is kept, or its successor `n1` is kept, or `n1` is deleted later than it
      and the successor of `n1` is kept. */
  lemma MarkSurvives(records: Records, self: seq<RecordId>, a: RecordId)
    requires a in records && Newest(records, a).Some? && NoDuplicates(self)
    ensures Newest(records, Newest(records, a).value).Some?
    ensures var n1 := Newest(records, a).value;
            var n2 := Newest(records, n1).value;
            Mark(records, self, a) !in self <==>
              a !in self || n1 !in self || (Precedes(self, a, n1) && n2 !in self)
  {
    NewestOfNewest(records, a);
    var n1 := Newest(records, a).value;
    var n2 := Newest(records, n1).value;
    if a !in self {
      MarkStays(records, self, a);
    } else {
      var i := PositionOf(self, a);
      MarkMovesAt(records, self, a, i);
      if n1 !in self[i + 1..] {
        MarkStays(records, self[i + 1..], n1);
      } else {
        SecondMove(records, self, a, i);
      }
    }
  }

  lemma SecondMove(records: Records, self: seq<RecordId>, a: RecordId, i: nat)
    requires a in records && Newest(records, a).Some? && NoDuplicates(self)
    requires i < |self| && self[i] == a && Newest(records, a).value in self[i + 1..]
    ensures Newest(records, Newest(records, a).value).Some?
    ensures var n1 := Newest(records, a).value;
            var n2 := Newest(records, n1).value;
            && (Mark(records, self, a) !in self <==> n2 !in self)
            && n1 in self && Precedes(self, a, n1)
  {
    NewestOfNewest(records, a);
    var n1 := Newest(records, a).value;
    var n2 := Newest(records, n1).value;
    var rest := self[i + 1..];
    MarkMovesAt(records, self, a, i);
    var k := PositionOf(rest, n1);
    var tail := rest[k + 1..];
    MarkMovesAt(records, rest, n1, k);
    assert self[i + 1 + k] == n1;
    if n2 !in tail {
      MarkStays(records, tail, n2);
    } else {
      // the third move brings the mark back to n1, which is already treated
      var m := PositionOf(tail, n2);
      assert self[i + 1 + k + 1 + m] == n2;
      assert n2 != a;
      MarkMovesAt(records, tail, n2, m);
      var end := tail[m + 1..];
      forall t | 0 <= t < |end| ensures end[t] != n1 {
        assert end[t] == self[i + 1 + k + 1 + m + 1 + t];
      }
      MarkStays(records, end, n1);
    }
  }

  /** When every record has a code, deleting several at once leaves the table right exactly when, for
      every deleted active record that is not alone, its successor `n1` is kept, or is deleted later
      and its own successor is kept. */
  lemma BatchDeletionIsRightIff(records: Records, self: seq<RecordId>)
    requires OneActive(records) && UniqueCodes(records) && NoDuplicates(self)
    requires forall r :: r in self ==> r in records
    requires forall r :: r in records ==> records[r].code != ""
    ensures !DeletesActivated(records, self) <==>
              forall a :: a in self && records[a].active && Newest(records, a).Some? ==> Survives(records, self, a)
  {
    LoopSameProducts(records, self);
    var after := UnlinkLoop(records, self);
    forall a | a in self && records[a].active && Newest(records, a).Some?
      ensures Survives(records, self, a) <==> !(Mark(records, self, a) in self)
      ensures after[Mark(records, self, a)].active && Newest(records, Mark(records, self, a)).Some?
    {
      MarkSurvives(records, self, a);
      LoopMovesMark(records, self, a, records[a].product);
      var m := Mark(records, self, a);
      assert ActiveIn(after, m, records[a].product);
      var n := Newest(records, a).value;
      assert IsNewest(records, a, n);
      if m != a { LoneMeansAlone(records, m, a); } else { LoneMeansAlone(records, m, n); }
    }
    forall r | r in self && after[r].active && Newest(records, r).Some?
      ensures exists a :: a in self && records[a].active && Newest(records, a).Some? && Mark(records, self, a) == r
    {
      var p := records[r].product;
      if a :| ActiveIn(records, a, p) {
        LoopMovesMark(records, self, a, p);
        assert ActiveIn(after, r, p);
        if a !in self { MarkStays(records, self, a); }
        if a != r { LoneMeansAlone(records, a, r); }
      } else {
        LoopKeepsNone(records, self, p);
        assert ActiveIn(after, r, p);
      }
    }
  }

  ghost predicate Survives(records: Records, self: seq<RecordId>, a: RecordId)
    requires a in records && Newest(records, a).Some?
  {
    var n1 := Newest(records, a).value;
    n1 !in self || (Precedes(self, a, n1) && n1 in records
                    && (Newest(records, n1).Some? ==> Newest(records, n1).value !in self))
  }

  lemma {:induction false} LoopKeepsNone(records: Records, self: seq<RecordId>, p: ProductId)
    requires OneActive(records) && UniqueCodes(records) && forall r :: r in self ==> r in records
    requires !HasActiveIn(records, p)
    ensures !HasActiveIn(UnlinkLoop(records, self), p)
    decreases |self|
  {
    if self != [] {
      assert self[0] in self;
      var x := self[0];
      var after := UnlinkStep(records, x);
      if records[x].active && Newest(records, x).Some? {
        var n := Newest(records, x).value;
        assert IsNewest(records, x, n);
        ActivationOfNewest(records, n);
        assert ActiveIn(records, x, records[x].product);
        forall r ensures !ActiveIn(after, r, p) { assert !ActiveIn(records, r, p); }
      }
      LoopKeepsNone(after, self[1..], p);
    }
  }

  /** Deleting the two records of a product at once, the active one first: the product goes on showing
      the code of a record that no longer exists. */
  lemma BatchDeletionCanFail(p: ProductId)
    ensures var records := map[1 := Record("A", p, true), 2 := Record("B", p, false)];
            OneActive(records) && UniqueCodes(records) && DeletesActivated(records, [1, 2])
  {
    var records := map[1 := Record("A", p, true), 2 := Record("B", p, false)];
    NewestIs(records, 1, 2);
    NewestIs(records, 2, 1);
    BatchDeletionIsRightIff(records, [1, 2]);
  }
}
