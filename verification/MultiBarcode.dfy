/** Several barcodes per product, one of them shown on the product
    (custom_multi_barcode_for_products/models/product_multiple_barcodes.py). Every record carries its
    product, and a product is the only variant of its template. An empty code or barcode stands for none. */
module MultiBarcode {
  import opened Digraphs
  import opened Options

  type RecordId = int
  type ProductId = int

  datatype Record = Record(code: string, product: ProductId, active: bool)

  /** The values given to `write`. */
  datatype Values = Values(code: Option<string>, active: Option<bool>)

  type Records = map<RecordId, Record>
  type Shown = map<ProductId, string>

  ghost predicate ActiveIn(records: Records, r: RecordId, p: ProductId) {
    r in records && records[r].product == p && records[r].active
  }

  ghost predicate HasActiveIn(records: Records, p: ProductId) {
    exists r :: ActiveIn(records, r, p)
  }

  /** `_check_unique_active_barcode`. */
  predicate OneActive(records: Records) {
    forall r, s | r in records && s in records && records[r].active && records[s].active ::
      records[r].product == records[s].product ==> r == s
  }

  /** The SQL constraint on codes. */
  predicate UniqueCodes(records: Records) {
    forall r, s | r in records && s in records && r != s && records[r].code != "" :: records[r].code != records[s].code
  }

  ghost predicate KnownProducts(records: Records, shown: Shown) {
    forall r :: r in records ==> records[r].product in shown
  }

  /** The code of the active record of a product, or none. */
  ghost function ActiveCode(records: Records, p: ProductId): string {
    if r :| ActiveIn(records, r, p) then records[r].code else ""
  }

  /** The product shows the code of its active record. */
  ghost predicate ShowsActive(records: Records, shown: Shown, p: ProductId) {
    p in shown && shown[p] == ActiveCode(records, p)
  }

  ghost predicate Valid(records: Records, shown: Shown) {
    OneActive(records) && UniqueCodes(records) && KnownProducts(records, shown)
  }

  /** At most one active record per product, no code twice, and the products `ps` show their active one. */
  ghost predicate Synced(records: Records, shown: Shown, ps: set<ProductId>) {
    Valid(records, shown) && ps <= shown.Keys && forall p :: p in ps ==> ShowsActive(records, shown, p)
  }

  ghost predicate ProductsIn(records: Records, self: seq<RecordId>, ps: set<ProductId>) {
    forall r :: r in self ==> r in records && records[r].product in ps
  }

  lemma ActiveCodeIs(records: Records, r: RecordId, p: ProductId)
    requires OneActive(records) && ActiveIn(records, r, p)
    ensures ActiveCode(records, p) == records[r].code
  {
  }

  // ---------------------------------------------------------------- what a write does to the records

  function Changed(rec: Record, vals: Values): Record {
    rec.(code := if vals.code.Some? then vals.code.value else rec.code,
         active := if vals.active.Some? then vals.active.value else rec.active)
  }

  /** Some other record of `self` has the same product. */
  predicate SharesProduct(records: Records, self: seq<RecordId>, r: RecordId)
    requires r in records
  {
    exists s :: s in self && s != r && s in records && records[s].product == records[r].product
  }

  /** Before an activation the other active records of the products are switched off. */
  function OthersOff(records: Records, self: seq<RecordId>): (r: Records)
    ensures r.Keys == records.Keys
  {
    map r | r in records :: if SharesProduct(records, self, r) then records[r].(active := false) else records[r]
  }

  function Applied(records: Records, self: seq<RecordId>, vals: Values): (r: Records)
    ensures r.Keys == records.Keys
  {
    map r | r in records :: if r in self then Changed(records[r], vals) else records[r]
  }

  function Written(records: Records, self: seq<RecordId>, vals: Values): (r: Records)
    ensures r.Keys == records.Keys
  {
    Applied(if vals.active == Some(true) then OthersOff(records, self) else records, self, vals)
  }

  /** What a write that is accepted leaves: the records written have the values given, and keep the rest;
      an activation switches off the other records of their products; nothing else changes. */
  lemma WrittenIs(records: Records, self: seq<RecordId>, vals: Values, r: RecordId)
    requires r in records
    ensures var before, after := records[r], Written(records, self, vals)[r];
            && after.product == before.product
            && after.code == (if r in self && vals.code.Some? then vals.code.value else before.code)
            && (r in self && vals.active.Some? ==> after.active == vals.active.value)
            && (vals.active == Some(true) && r !in self ==>
                  (after.active <==> before.active
                                     && forall s :: s in self && s in records ==> records[s].product != before.product))
            && (vals.active.None? || (vals.active == Some(false) && r !in self) ==> after.active == before.active)
  {
  }

  /** A record shown on its product is switched off and renamed in one write. */
  ghost predicate Stale(records: Records, self: seq<RecordId>, vals: Values) {
    && vals.active == Some(false) && vals.code.Some?
    && exists r :: r in self && r in records && records[r].active && records[r].code != ""
        && records[r].code != vals.code.value
  }

  // ---------------------------------------------------------------- one synchronisation

  class BarcodeTable {
    var records: Records
    var shown: Shown

    constructor (products: set<ProductId>)
      ensures records == map[] && shown == map p | p in products :: ""
      ensures Synced(records, shown, products)
    {
      records, shown := map[], map p | p in products :: "";
    }

    /** The search for another active record of the product. */
    method OtherActive(r: RecordId, p: ProductId) returns (found: Option<RecordId>)
      ensures found.Some? ==> found.value != r && ActiveIn(records, found.value, p)
      ensures found.None? ==> forall s :: ActiveIn(records, s, p) ==> s == r
    {
      found := None;
      var todo := records.Keys;
      while todo != {}
        invariant todo <= records.Keys
        invariant found.Some? ==> found.value != r && ActiveIn(records, found.value, p)
        invariant found.None? ==> forall s :: ActiveIn(records, s, p) && s !in todo ==> s == r
      {
        var s := Pick(todo);
        if s != r && records[s].product == p && records[s].active {
          found := Some(s);
        }
        todo := todo - {s};
      }
    }

    /** The second loop of `write`, for one record. */
    method Sync(r: RecordId)
      requires Valid(records, shown) && r in records
      modifies this`shown
      ensures shown.Keys == old(shown).Keys
      ensures forall p :: p in shown && p != records[r].product ==> shown[p] == old(shown)[p]
      ensures var p, rec := records[r].product, records[r];
              shown[p] == if rec.active || old(shown)[p] == rec.code then ActiveCode(records, p) else old(shown)[p]
    {
      var rec := records[r];
      var p := rec.product;
      if rec.active {
        ActiveCodeIs(records, r, p);
        shown := shown[p := rec.code];
      } else if shown[p] == rec.code {
        var other := OtherActive(r, p);
        if other.Some? {
          ActiveCodeIs(records, other.value, p);
          shown := shown[p := records[other.value].code];
        } else {
          shown := shown[p := ""];
        }
      }
    }

    /** The second loop of `write`. */
    method SyncAll(self: seq<RecordId>)
      requires Valid(records, shown) && forall r :: r in self ==> r in records
      modifies this`shown
      ensures SyncedFrom(records, self, old(shown), shown)
    {
      hide Valid, ActiveCode;
      for i := 0 to |self|
        invariant Valid(records, shown) && shown.Keys == old(shown).Keys
                  && SyncedFrom(records, self[..i], old(shown), shown)
      {
        ghost var was := shown;
        assert self[i] in self;
        Sync(self[i]);
        KnownProduct(records, was, self[i]);
        ValidShown(records, was, shown);
        SyncedFromStep(records, self[..i], self[i], old(shown), was, shown);
        assert self[..i + 1] == self[..i] + [self[i]];
      }
      assert self[..|self|] == self;
    }

    /** `other_active.write({'is_active_barcode': False})`. */
    method SwitchOff(self: seq<RecordId>, ghost ps: set<ProductId>)
      requires Synced(records, shown, ps) && ProductsIn(records, self, ps)
      modifies this
      ensures Synced(records, shown, ps) && shown.Keys == old(shown).Keys
      ensures records == Applied(old(records), self, Values(None, Some(false)))
      ensures forall p :: p in shown && p !in ps ==> shown[p] == old(shown)[p]
    {
      records := map r | r in records :: if r in self then records[r].(active := false) else records[r];
      forall r | r in records ensures records[r] == Applied(old(records), self, Values(None, Some(false)))[r] { }
      assert records == Applied(old(records), self, Values(None, Some(false)));
      AppliedStaysValid(old(records), shown, self, Values(None, Some(false)));
      SyncAll(self);
      WriteSyncs(old(records), self, Values(None, Some(false)), old(shown), shown, ps);
    }

    /** The first loop of `write`, for an activation. */
    method SwitchOthersOff(self: seq<RecordId>, ghost ps: set<ProductId>)
      requires Synced(records, shown, ps) && ProductsIn(records, self, ps)
      modifies this
      ensures Synced(records, shown, ps) && shown.Keys == old(shown).Keys
      ensures records == OthersOff(old(records), self)
      ensures forall p :: p in shown && p !in ps ==> shown[p] == old(shown)[p]
    {
      hide Synced;
      ghost var before := records;
      for i := 0 to |self|
        invariant Synced(records, shown, ps) && shown.Keys == old(shown).Keys
        invariant records == OthersOff(before, self[..i])
        invariant forall p :: p in shown && p !in ps ==> shown[p] == old(shown)[p]
      {
        var r := self[i];
        assert r in self;
        var p := records[r].product;
        var others := set s | s in records && s != r && records[s].product == p && records[s].active;
        var list := Enumerate(others);
        if list != [] {
          SwitchOff(list, ps);
        }
        OthersOffStep(before, self[..i], r, list);
        assert self[..i + 1] == self[..i] + [r];
      }
      assert self[..|self|] == self;
    }

    /** `write` on any set of records: refused, and rolled back, when it would leave two active records
        of a product or the same code twice; otherwise it changes the records as `Written` says, and
        every product still shows its active barcode exactly when the write is not stale. */
    method Write(self: seq<RecordId>, vals: Values, ghost ps: set<ProductId>) returns (ok: bool)
      requires Synced(records, shown, ps) && ProductsIn(records, self, ps)
      modifies this
      ensures ok <==> OneActive(Written(old(records), self, vals)) && UniqueCodes(Written(old(records), self, vals))
      ensures !ok ==> records == old(records) && shown == old(shown)
      ensures ok ==>
                records == Written(old(records), self, vals) && Valid(records, shown) && shown.Keys == old(shown).Keys
      ensures ok ==> (Synced(records, shown, ps) <==> !Stale(old(records), self, vals))
      ensures forall p :: p in shown && p !in ps ==> shown[p] == old(shown)[p]
    {
      hide OneActive, UniqueCodes, ShowsActive;
      var startRecords, startShown := records, shown;
      if vals.active == Some(true) {
        SwitchOthersOff(self, ps);
      }
      ghost var mid, midShown := records, shown;
      records := map r | r in records :: if r in self then Changed(records[r], vals) else records[r];
      assert records == Applied(mid, self, vals);
      ok := OneActive(records) && UniqueCodes(records);
      if !ok {
        records, shown := startRecords, startShown;
        return;
      }
      assert KnownProducts(records, shown) by { KnownAfterApplied(mid, shown, self, vals); }
      SyncAll(self);
      WriteSyncs(mid, self, vals, midShown, shown, ps);
      ValidShown(records, midShown, shown);
    }

    /** Whether the product has an active record. */
    method HasActive(p: ProductId) returns (found: bool)
      ensures found <==> HasActiveIn(records, p)
    {
      found := false;
      var todo := records.Keys;
      while todo != {}
        invariant todo <= records.Keys
        invariant found <==> exists r :: ActiveIn(records, r, p) && r !in todo
      {
        var r := Pick(todo);
        if records[r].product == p && records[r].active {
          found := true;
        }
        todo := todo - {r};
      }
    }

    /** The search for the last remaining barcode of the product. */
    method NewestOther(r: RecordId) returns (n: Option<RecordId>)
      requires r in records
      ensures n == Newest(records, r)
    {
      n := None;
      var p := records[r].product;
      var todo := records.Keys;
      while todo != {}
        invariant todo <= records.Keys
        invariant n.Some? ==> n.value in records && n.value != r && records[n.value].product == p
        invariant forall s :: s in records && s !in todo && s != r && records[s].product == p ==>
                    n.Some? && s <= n.value
      {
        var s := Pick(todo);
        if s != r && records[s].product == p && (n.None? || s > n.value) {
          n := Some(s);
        }
        todo := todo - {s};
      }
      if n.Some? {
        NewestIs(records, r, n.value);
      }
    }

    /** One round of the loop of `unlink`. */
    method UnlinkOne(r: RecordId, ghost ps: set<ProductId>)
      requires Synced(records, shown, ps) && r in records && records[r].product in ps
      modifies this
      ensures records == UnlinkStep(old(records), r) && shown.Keys == old(shown).Keys
      ensures Synced(records, shown, ps - if Newest(old(records), r).None? then {records[r].product} else {})
      ensures Newest(old(records), r).None? ==> shown[records[r].product] == ""
      ensures forall p :: p in shown && p !in ps ==> shown[p] == old(shown)[p]
    {
      hide OneActive, UniqueCodes, ShowsActive;
      var last := NewestOther(r);
      ghost var without := ps - if last.None? then {records[r].product} else {};
      if records[r].active {
        if last.Some? {
          ActivationOfNewest(records, last.value);
          assert ProductsIn(records, [last.value], ps);
          var written := Write([last.value], Values(None, Some(true)), ps);
        } else {
          ghost var wasShown := shown;
          shown := shown[records[r].product := ""];
          ShownElsewhere(records, wasShown, shown, ps, without);
        }
      } else {
        ShownElsewhere(records, shown, shown, ps, without);
        if last.None? { LoneInactive(records, shown, ps, r); }
      }
    }

    method UnlinkRound(self: seq<RecordId>, i: nat, ghost before: Records)
      requires NoDuplicates(self) && i < |self| && (forall r :: r in self ==> r in records)
      requires SameProducts(before, records)
      requires Synced(records, shown, shown.Keys - LoneProducts(before, self[..i]))
      requires forall p :: p in LoneProducts(before, self[..i]) && p in shown ==> shown[p] == ""
      modifies this
      ensures shown.Keys == old(shown).Keys && records.Keys == old(records).Keys
      ensures SameProducts(before, records) && UnlinkLoop(records, self[i + 1..]) == UnlinkLoop(old(records), self[i..])
      ensures Synced(records, shown, shown.Keys - LoneProducts(before, self[..i + 1]))
      ensures forall p :: p in LoneProducts(before, self[..i + 1]) && p in shown ==> shown[p] == ""
    {
      hide ShowsActive, OneActive, UniqueCodes, Newest;
      var r := self[i];
      assert r in self && r !in self[..i];
      assert self[i..][0] == r && self[i..][1..] == self[i + 1..];
      ghost var lone := LoneProducts(before, self[..i]);
      ghost var ps := shown.Keys - lone;
      KnownProduct(records, shown, r);
      NewestSame(before, records, r);
      LoneGrows(before, self, i);
      StepSameProducts(records, r);
      UnlinkOne(r, ps);
      assert shown.Keys - LoneProducts(before, self[..i + 1])
          == ps - if Newest(before, r).None? then {before[r].product} else {};
    }

    /** `unlink` on any set of records. The table is right afterwards exactly when no record activated
        on the way, and having a code, is deleted as well. */
    method Unlink(self: seq<RecordId>)
      requires Synced(records, shown, shown.Keys)
      requires NoDuplicates(self) && forall r :: r in self ==> r in records
      modifies this
      ensures records == UnlinkLoop(old(records), self) - Elements(self) && shown.Keys == old(shown).Keys
      ensures Synced(records, shown, shown.Keys) <==> !DeletesActivated(old(records), self)
    {
      hide Synced, Newest;
      ghost var before := records;
      assert shown.Keys - LoneProducts(before, self[..0]) == shown.Keys;
      assert self[0..] == self;
      for i := 0 to |self|
        invariant shown.Keys == old(shown).Keys
        invariant SameProducts(before, records) && UnlinkLoop(records, self[i..]) == UnlinkLoop(before, self)
        invariant forall r :: r in self ==> r in records
        invariant Synced(records, shown, shown.Keys - LoneProducts(before, self[..i]))
        invariant forall p :: p in LoneProducts(before, self[..i]) && p in shown ==> shown[p] == ""
      {
        UnlinkRound(self, i, before);
      }
      assert self[..|self|] == self && self[|self|..] == [];
      DeletionSyncs(before, records, self, shown);
      records := map r | r in records && r !in self :: records[r];
      assert records == UnlinkLoop(before, self) - Elements(self);
    }

    /** One round of the loop of `create`: activates the record if its product has no active one, and
        shows it if it is active. */
    method TreatNew(ghost with: Records, news: seq<Record>, i: nat, first: RecordId)
      requires i < |news| && news[i].product in shown
      requires Synced(records, shown, Settled(shown.Keys, news, i)) && CreatedFrom(with, records, news, i, first)
      modifies this
      ensures shown.Keys == old(shown).Keys
      ensures Synced(records, shown, Settled(shown.Keys, news, i + 1)) && CreatedFrom(with, records, news, i + 1, first)
    {
      hide OneActive, UniqueCodes, ShowsActive, CreatedFrom, Settled;
      var id := first + i;
      var p := news[i].product;
      ghost var ps := Settled(shown.Keys, news, i);
      CreatedRecord(with, records, news, i, first, i);
      var activeExists := HasActive(p);
      if !activeExists && !records[id].active {
        ghost var was := records;
        NoActiveIsSettled(with, records, news, i, first, shown.Keys);
        ActivationIsAccepted(records, shown, id, ps);
        var written := Write([id], Values(None, Some(true)), ps);
        ActivatedFrom(with, was, news, i, first);
        assert records == was[id := was[id].(active := true)];
      } else {
        KeptFrom(with, records, news, i, first);
      }
      ghost var wasShown := shown;
      CreatedRecord(with, records, news, i + 1, first, i);
      if records[id].active {
        Sync(id);
        SyncedMore(records, wasShown, shown, ps, id);
      }
      SettledStep(shown.Keys, news, i);
      SyncedLess(records, shown, if records[id].active then ps + {p} else ps, Settled(shown.Keys, news, i + 1));
    }

    /** `create`: refused when the new records break a constraint; otherwise a new record of a product
        without an active one becomes the active one, the first of them when there are several. */
    method Create(news: seq<Record>, first: RecordId) returns (ok: bool)
      requires Synced(records, shown, shown.Keys)
      requires forall r :: r in records ==> r < first
      requires forall i :: 0 <= i < |news| ==> news[i].product in shown
      modifies this
      ensures ok <==> OneActive(WithNew(old(records), news, first)) && UniqueCodes(WithNew(old(records), news, first))
      ensures !ok ==> records == old(records) && shown == old(shown)
      ensures ok ==> shown.Keys == old(shown).Keys && Synced(records, shown, shown.Keys)
      ensures ok ==> CreatedFrom(WithNew(old(records), news, first), records, news, |news|, first)
    {
      hide OneActive, UniqueCodes, ShowsActive, CreatedFrom, Valid;
      var startRecords, startShown := records, shown;
      ghost var with := WithNew(records, news, first);
      assert KnownProducts(records, shown) by { AllKnown(records, shown); }
      WithNewKnown(records, shown, news, first);
      records := WithNew(records, news, first);
      ok := OneActive(records) && UniqueCodes(records);
      if !ok {
        records := startRecords;
        return;
      }
      CreateStarts(startRecords, shown, news, first);
      for i := 0 to |news|
        invariant shown.Keys == startShown.Keys
        invariant Synced(records, shown, Settled(shown.Keys, news, i))
        invariant CreatedFrom(with, records, news, i, first)
      {
        TreatNew(with, news, i, first);
      }
      AllSettled(shown.Keys, news);
    }
  }

  // ---------------------------------------------------------------- deleting records

  ghost predicate IsNewest(records: Records, r: RecordId, n: RecordId)
    requires r in records
  {
    && n in records && n != r && records[n].product == records[r].product
    && forall s :: s in records && s != r && records[s].product == records[r].product ==> s <= n
  }

  /** The newest other record of the product of `r`: identifiers grow. */
  ghost function Newest(records: Records, r: RecordId): (n: Option<RecordId>)
    requires r in records
  {
    if n :| IsNewest(records, r, n) then Some(n) else None
  }

  lemma NewestIs(records: Records, r: RecordId, n: RecordId)
    requires r in records && IsNewest(records, r, n)
    ensures Newest(records, r) == Some(n)
  {
  }

  /** The activation made while `r` is about to be deleted. */
  ghost function UnlinkStep(records: Records, r: RecordId): (after: Records)
    requires r in records
    ensures after.Keys == records.Keys
  {
    if records[r].active && Newest(records, r).Some?
    then Written(records, [Newest(records, r).value], Values(None, Some(true))) else records
  }

  /** Before an active record is deleted, the record of its product with the largest other identifier
      becomes the active one; without other record, or when it is not active, nothing changes. */
  lemma UnlinkStepIs(records: Records, r: RecordId, s: RecordId)
    requires r in records && s in records
    ensures var others := set x | x in records && x != r && records[x].product == records[r].product;
            var after := UnlinkStep(records, r)[s];
            && after.code == records[s].code && after.product == records[s].product
            && (!records[r].active || others == {} || records[s].product != records[r].product ==>
                  after.active == records[s].active)
            && (records[r].active && others != {} && records[s].product == records[r].product ==>
                  (after.active <==> s in others && forall x :: x in others ==> x <= s))
  {
    var others := set x | x in records && x != r && records[x].product == records[r].product;
    if records[r].active && others != {} {
      var n := LargestOf(others);
      forall x | x in records && x != r && records[x].product == records[r].product ensures x <= n {
        assert x in others;
      }
      NewestIs(records, r, n);
      WrittenIs(records, [n], Values(None, Some(true)), s);
      assert n in [n];
    } else if n :| IsNewest(records, r, n) {
      assert n in others;
    }
  }

  lemma {:induction false} LargestOf(s: set<RecordId>) returns (n: RecordId)
    requires s != {}
    ensures n in s && forall x :: x in s ==> x <= n
    decreases |s|
  {
    n := AnyOf(s);
    if s != {n} {
      var m := LargestOf(s - {n});
      forall x | x in s ensures x <= if m < n then n else m {
        if x != n { assert x in s - {n}; }
      }
      n := if m < n then n else m;
    }
  }

  /** The records when the loop of `unlink` is over, before the deletion itself. */
  ghost function UnlinkLoop(records: Records, self: seq<RecordId>): (after: Records)
    requires forall r :: r in self ==> r in records
    ensures after.Keys == records.Keys
  {
    if self == [] then records
    else
      assert self[0] in self;
      UnlinkLoop(UnlinkStep(records, self[0]), self[1..])
  }

  /** Among the deleted records there is one that the loop has just made the active one, with a code. */
  ghost predicate DeletesActivated(records: Records, self: seq<RecordId>)
    requires forall r :: r in self ==> r in records
  {
    var after := UnlinkLoop(records, self);
    exists r :: r in self && after[r].active && Newest(records, r).Some? && after[r].code != ""
  }

  ghost predicate SameProducts(records: Records, after: Records) {
    after.Keys == records.Keys
    && forall r :: r in records ==> after[r].product == records[r].product && after[r].code == records[r].code
  }

  lemma NewestSame(records: Records, after: Records, r: RecordId)
    requires SameProducts(records, after) && r in records
    ensures Newest(after, r) == Newest(records, r)
  {
    forall n ensures IsNewest(after, r, n) <==> IsNewest(records, r, n) { }
    if n :| IsNewest(records, r, n) {
      NewestIs(records, r, n);
      NewestIs(after, r, n);
    }
  }

  lemma StepSameProducts(records: Records, r: RecordId)
    requires r in records
    ensures SameProducts(records, UnlinkStep(records, r))
  {
  }

  lemma {:induction false} LoopSameProducts(records: Records, self: seq<RecordId>)
    requires forall r :: r in self ==> r in records
    ensures SameProducts(records, UnlinkLoop(records, self))
    decreases |self|
  {
    if self != [] {
      assert self[0] in self;
      StepSameProducts(records, self[0]);
      LoopSameProducts(UnlinkStep(records, self[0]), self[1..]);
    }
  }

  /** Activating one record, its rivals being switched off first, never breaks a constraint. */
  lemma ActivationOfNewest(records: Records, n: RecordId)
    requires OneActive(records) && UniqueCodes(records) && n in records
    ensures var w := Written(records, [n], Values(None, Some(true)));
            && OneActive(w) && UniqueCodes(w)
            && forall r :: r in records ==> w[r] == records[r].(active :=
                 r == n || (records[r].active && records[r].product != records[n].product))
  {
    var w := Written(records, [n], Values(None, Some(true)));
    assert n in [n];
    forall r | r in records
      ensures w[r] == records[r].(
                active := r == n || (records[r].active && records[r].product != records[n].product)) { }
  }

  /** The products of deleted records that have no other record. */
  ghost function LoneProducts(records: Records, self: seq<RecordId>): set<ProductId>
    requires forall r :: r in self ==> r in records
  {
    set r | r in self && Newest(records, r).None? :: records[r].product
  }

  /** Deleting the records after the loop: products stay right unless an activated record goes too. */
  lemma DeletionSyncs(before: Records, after: Records, self: seq<RecordId>, shown: Shown)
    requires forall r :: r in self ==> r in before
    requires SameProducts(before, after) && Synced(after, shown, shown.Keys - LoneProducts(before, self))
    requires forall p :: p in LoneProducts(before, self) && p in shown ==> shown[p] == ""
    ensures Synced(after - Elements(self), shown, shown.Keys) <==>
              !exists r :: r in self && after[r].active && Newest(before, r).Some? && after[r].code != ""
  {
    var left := after - Elements(self);
    var lone := LoneProducts(before, self);
    if r :| r in self && after[r].active && Newest(before, r).Some? && after[r].code != "" {
      DeletedIsStillShown(before, after, self, shown, r);
    } else {
      forall p | p in shown ensures ShowsActive(left, shown, p) {
        DeletionShows(before, after, self, shown, p);
      }
    }
  }

  lemma ShownElsewhere(records: Records, shown: Shown, shown': Shown, ps: set<ProductId>, qs: set<ProductId>)
    requires Synced(records, shown, ps) && qs <= ps && shown'.Keys == shown.Keys
    requires forall p :: p in qs ==> shown'[p] == shown[p]
    ensures Synced(records, shown', qs)
  {
    forall p | p in qs ensures ShowsActive(records, shown', p) { assert ShowsActive(records, shown, p); }
  }

  lemma LoneInactive(records: Records, shown: Shown, ps: set<ProductId>, r: RecordId)
    requires Synced(records, shown, ps) && r in records && records[r].product in ps
    requires Newest(records, r).None? && !records[r].active
    ensures shown[records[r].product] == ""
  {
    var p := records[r].product;
    assert ShowsActive(records, shown, p);
    forall s ensures !ActiveIn(records, s, p) {
      if s in records && records[s].product == p && s != r { LoneMeansAlone(records, r, s); }
    }
  }

  lemma LoneGrows(before: Records, self: seq<RecordId>, i: nat)
    requires NoDuplicates(self) && i < |self| && forall r :: r in self ==> r in before
    ensures forall r :: r in self[..i] ==> r in before
    ensures self[i] in before
    ensures before[self[i]].product !in LoneProducts(before, self[..i])
    ensures LoneProducts(before, self[..i + 1]) ==
              LoneProducts(before, self[..i]) + if Newest(before, self[i]).None? then {before[self[i]].product} else {}
  {
    assert self[..i + 1] == self[..i] + [self[i]];
    var r := self[i];
    assert r in self && r !in self[..i] && r in before;
    if before[self[i]].product in LoneProducts(before, self[..i]) {
      var s :| s in self[..i] && Newest(before, s).None? && before[s].product == before[self[i]].product;
      LoneMeansAlone(before, s, self[i]);
    }
  }

  lemma LoneMeansAlone(before: Records, r: RecordId, s: RecordId)
    requires r in before && s in before && before[s].product == before[r].product && s != r
    ensures Newest(before, r).Some?
    decreases |set t | t in before && t > s|
  {
    if !IsNewest(before, r, s) {
      var t :| t in before && t != r && before[t].product == before[r].product && t > s;
      assert (set u | u in before && u > t) + {t} <= set u | u in before && u > s;
      SubsetSize((set u | u in before && u > t) + {t}, set u | u in before && u > s);
      LoneMeansAlone(before, r, t);
    } else {
      NewestIs(before, r, s);
    }
  }

  lemma DeletedIsStillShown(before: Records, after: Records, self: seq<RecordId>, shown: Shown, r: RecordId)
    requires forall r :: r in self ==> r in before
    requires SameProducts(before, after) && Synced(after, shown, shown.Keys - LoneProducts(before, self))
    requires r in self && after[r].active && Newest(before, r).Some? && after[r].code != ""
    ensures !Synced(after - Elements(self), shown, shown.Keys)
  {
    var left, p := after - Elements(self), after[r].product;
    if p in LoneProducts(before, self) {
      var s :| s in self && Newest(before, s).None? && before[s].product == p;
      if s != r { LoneMeansAlone(before, s, r); }
    }
    assert ShowsActive(after, shown, p);
    ActiveCodeIs(after, r, p);
    assert ActiveIn(after, r, p);
    forall s | ActiveIn(after, s, p) ensures s == r { }
    forall s ensures ActiveIn(left, s, p) ==> ActiveIn(after, s, p) { }
    assert ActiveCode(left, p) == "";
    assert !ShowsActive(left, shown, p);
  }

  lemma DeletionShows(before: Records, after: Records, self: seq<RecordId>, shown: Shown, p: ProductId)
    requires forall r :: r in self ==> r in before
    requires SameProducts(before, after) && Synced(after, shown, shown.Keys - LoneProducts(before, self))
    requires forall p :: p in LoneProducts(before, self) && p in shown ==> shown[p] == ""
    requires !exists r :: r in self && after[r].active && Newest(before, r).Some? && after[r].code != ""
    requires p in shown
    ensures ShowsActive(after - Elements(self), shown, p)
  {
    var left := after - Elements(self);
    if p in LoneProducts(before, self) {
      var s :| s in self && Newest(before, s).None? && before[s].product == p;
      forall r ensures !ActiveIn(left, r, p) {
        if r in before && r != s && before[r].product == p { LoneMeansAlone(before, s, r); }
      }
    } else {
      assert ShowsActive(after, shown, p);
      forall s ensures ActiveIn(left, s, p) ==> ActiveIn(after, s, p) { }
      if a :| ActiveIn(after, a, p) {
        ActiveCodeIs(after, a, p);
        forall s | ActiveIn(after, s, p) ensures s == a { }
        if a in self {
          assert Newest(before, a).Some? by { assert before[a].product == p; }
        } else {
          ActiveCodeIs(left, a, p);
        }
      }
    }
  }

  // ---------------------------------------------------------------- creating records

  /** The table with the new records, numbered from `first` on. */
  function WithNew(records: Records, news: seq<Record>, first: RecordId): (r: Records)
    ensures forall id :: id in r <==> id in records || first <= id < first + |news|
    ensures forall id :: id in r ==> r[id] == if first <= id < first + |news| then news[id - first] else records[id]
  {
    if news == [] then records
    else WithNew(records, news[..|news| - 1], first)[first + |news| - 1 := news[|news| - 1]]
  }

  /** Products none of whose new records from number `i` on is active: nothing is left to show. */
  ghost function Settled(products: set<ProductId>, news: seq<Record>, i: nat): set<ProductId> {
    set p | p in products && forall j :: i <= j < |news| && news[j].product == p ==> !news[j].active
  }

  /** After the new records below number `i` are treated: only new records have become active, each the
      first of a product without an active one, and every treated product has an active record. */
  ghost predicate CreatedFrom(with: Records, records: Records, news: seq<Record>, i: nat, first: RecordId)
  {
    && records.Keys == with.Keys && i <= |news|
    && (forall r :: first <= r < first + |news| ==> r in with && with[r] == news[r - first])
    && (forall r :: r in with ==> records[r] == with[r] || records[r] == with[r].(active := true))
    && (forall r, s :: r in with && records[r] != with[r] && s in with && with[s].product == with[r].product ==>
          !with[s].active && first <= r < first + i && (first <= s < first + |news| ==> r <= s))
    && (forall r :: r in with && first <= r < first + i ==> HasActiveIn(records, with[r].product))
  }

  lemma WithNewKnown(records: Records, shown: Shown, news: seq<Record>, first: RecordId)
    requires KnownProducts(records, shown) && forall i :: 0 <= i < |news| ==> news[i].product in shown
    ensures KnownProducts(WithNew(records, news, first), shown)
  {
  }

  lemma CreateStarts(records: Records, shown: Shown, news: seq<Record>, first: RecordId)
    requires Synced(records, shown, shown.Keys)
    requires forall r :: r in records ==> r < first
    requires var with := WithNew(records, news, first);
             OneActive(with) && UniqueCodes(with) && KnownProducts(with, shown)
    ensures var with := WithNew(records, news, first);
            Synced(with, shown, Settled(shown.Keys, news, 0)) && CreatedFrom(with, with, news, 0, first)
  {
    hide OneActive, UniqueCodes, ShowsActive, KnownProducts;
    var with := WithNew(records, news, first);
    forall p | p in Settled(shown.Keys, news, 0) ensures ShowsActive(with, shown, p) {
      NothingNewToShow(records, shown, news, first, p);
    }
    NothingCreatedYet(with, records, news, first);
  }

  lemma NothingCreatedYet(with: Records, records: Records, news: seq<Record>, first: RecordId)
    requires with == WithNew(records, news, first)
    ensures CreatedFrom(with, with, news, 0, first)
  {
  }

  lemma NothingNewToShow(records: Records, shown: Shown, news: seq<Record>, first: RecordId, p: ProductId)
    requires OneActive(records) && OneActive(WithNew(records, news, first)) && ShowsActive(records, shown, p)
    requires forall r :: r in records ==> r < first
    requires p in Settled(shown.Keys, news, 0)
    ensures ShowsActive(WithNew(records, news, first), shown, p)
  {
    hide OneActive;
    var with := WithNew(records, news, first);
    forall r ensures ActiveIn(with, r, p) <==> ActiveIn(records, r, p) { }
    if r :| ActiveIn(records, r, p) {
      ActiveCodeIs(records, r, p);
      ActiveCodeIs(with, r, p);
    }
  }

  lemma CreatedRecord(with: Records, records: Records, news: seq<Record>, i: nat, first: RecordId, k: nat)
    requires CreatedFrom(with, records, news, i, first) && k < |news|
    ensures first + k in records && records[first + k].product == news[k].product
    ensures news[k].active ==> records[first + k].active
    ensures records[first + k].active ==> HasActiveIn(records, news[k].product)
  {
    var id := first + k;
    assert id in with && with[id] == news[k];
    if records[id].active { assert ActiveIn(records, id, news[k].product); }
  }

  lemma NoActiveIsSettled(with: Records, records: Records, news: seq<Record>, i: nat, first: RecordId,
                          products: set<ProductId>)
    requires CreatedFrom(with, records, news, i, first) && i < |news| && news[i].product in products
    requires !HasActiveIn(records, news[i].product)
    ensures news[i].product in Settled(products, news, i)
  {
    forall j | i <= j < |news| && news[j].product == news[i].product ensures !news[j].active {
      var r := first + j;
      assert r in with && with[r] == news[j];
      assert !ActiveIn(records, r, news[i].product);
    }
  }

  lemma ActivationIsAccepted(records: Records, shown: Shown, id: RecordId, ps: set<ProductId>)
    requires Synced(records, shown, ps) && id in records
    requires !HasActiveIn(records, records[id].product)
    ensures var w := Written(records, [id], Values(None, Some(true)));
            OneActive(w) && UniqueCodes(w) && w == records[id := records[id].(active := true)]
  {
    var w := Written(records, [id], Values(None, Some(true)));
    forall r | r in records ensures w[r] == if r == id then records[r].(active := true) else records[r] {
      if SharesProduct(records, [id], r) { assert !ActiveIn(records, r, records[id].product); }
    }
    forall r, s | r in w && s in w && w[r].active && w[s].active && w[r].product == w[s].product ensures r == s {
      assert !ActiveIn(records, r, records[id].product) && !ActiveIn(records, s, records[id].product);
    }
  }

  lemma ActivatedFrom(with: Records, records: Records, news: seq<Record>, i: nat, first: RecordId)
    requires CreatedFrom(with, records, news, i, first) && i < |news|
    requires !HasActiveIn(records, news[i].product)
    ensures first + i in records
    ensures CreatedFrom(with, records[first + i := records[first + i].(active := true)], news, i + 1, first)
  {
    CreatedRecord(with, records, news, i, first, i);
    var id, p := first + i, news[i].product;
    var after := records[id := records[id].(active := true)];
    assert ActiveIn(after, id, p);
    assert with[id] == news[i] && !with[id].active;
    forall r | r in with && first <= r < first + i + 1 ensures HasActiveIn(after, with[r].product) {
      if r != id {
        var t :| ActiveIn(records, t, with[r].product);
        assert ActiveIn(after, t, with[r].product);
      }
    }
    forall s | s in with && with[s].product == p ensures !with[s].active && (first <= s < first + |news| ==> id <= s) {
      assert !ActiveIn(records, s, p);
    }
  }

  lemma KeptFrom(with: Records, records: Records, news: seq<Record>, i: nat, first: RecordId)
    requires CreatedFrom(with, records, news, i, first) && i < |news|
    requires HasActiveIn(records, news[i].product)
    ensures CreatedFrom(with, records, news, i + 1, first)
  {
    forall r | r in with && first <= r < first + i + 1 ensures HasActiveIn(records, with[r].product) {
      if r == first + i { assert with[r] == news[i]; }
    }
  }

  lemma SyncedMore(records: Records, shown: Shown, shown': Shown, ps: set<ProductId>, r: RecordId)
    requires Synced(records, shown, ps) && r in records && records[r].product in shown
    requires shown'.Keys == shown.Keys && forall p :: p in shown && p != records[r].product ==> shown'[p] == shown[p]
    requires shown'[records[r].product] == ActiveCode(records, records[r].product)
    ensures Synced(records, shown', ps + {records[r].product})
  {
    forall p | p in ps + {records[r].product} ensures ShowsActive(records, shown', p) {
      if p != records[r].product { assert ShowsActive(records, shown, p); }
    }
  }

  lemma SyncedLess(records: Records, shown: Shown, ps: set<ProductId>, qs: set<ProductId>)
    requires Synced(records, shown, ps) && qs <= ps
    ensures Synced(records, shown, qs)
  {
  }

  lemma SettledStep(products: set<ProductId>, news: seq<Record>, i: nat)
    requires i < |news|
    ensures Settled(products, news, i + 1) <= Settled(products, news, i) +
            if news[i].active then {news[i].product} else {}
  {
  }

  lemma AllSettled(products: set<ProductId>, news: seq<Record>)
    ensures Settled(products, news, |news|) == products
  {
  }

  // ---------------------------------------------------------------- lemmas on synchronisation

  lemma KnownProduct(records: Records, shown: Shown, r: RecordId)
    requires Valid(records, shown) && r in records
    ensures records[r].product in shown
  {
  }

  lemma AllKnown(records: Records, shown: Shown)
    requires Valid(records, shown)
    ensures KnownProducts(records, shown)
  {
  }

  lemma ValidShown(records: Records, shown: Shown, shown': Shown)
    requires Valid(records, shown) && shown'.Keys == shown.Keys
    ensures Valid(records, shown')
  {
  }

  /** What synchronising the records of `self` does to the shown barcodes: a product either keeps its
      barcode or shows its active one, and the latter whenever one of its records is active or has the
      barcode that was shown. */
  ghost predicate SyncedFrom(records: Records, self: seq<RecordId>, shown: Shown, shown': Shown) {
    && shown'.Keys == shown.Keys
    && (forall p :: p in shown ==> shown'[p] == shown[p] || shown'[p] == ActiveCode(records, p))
    && (forall r :: r in self && r in records && records[r].product in shown && Matches(records, r, shown) ==>
          shown'[records[r].product] == ActiveCode(records, records[r].product))
    && (forall p :: p in shown && shown'[p] != shown[p] ==> MatchedBy(records, self, shown, p))
  }

  ghost predicate Matches(records: Records, r: RecordId, shown: Shown)
    requires r in records && records[r].product in shown
  {
    records[r].active || records[r].code == shown[records[r].product]
  }

  ghost predicate MatchedBy(records: Records, self: seq<RecordId>, shown: Shown, p: ProductId)
    requires p in shown
  {
    exists r :: r in self && r in records && records[r].product == p && Matches(records, r, shown)
  }

  lemma SyncedFromStep(records: Records, self: seq<RecordId>, r: RecordId, shown0: Shown, shown1: Shown, shown2: Shown)
    requires SyncedFrom(records, self, shown0, shown1) && r in records && records[r].product in shown0
    requires shown2.Keys == shown1.Keys
    requires forall p :: p in shown1 && p != records[r].product ==> shown2[p] == shown1[p]
    requires var p, rec := records[r].product, records[r];
             shown2[p] == if rec.active || shown1[p] == rec.code then ActiveCode(records, p) else shown1[p]
    ensures SyncedFrom(records, self + [r], shown0, shown2)
  {
    var more := self + [r];
    forall p | p in shown0 && shown2[p] != shown0[p] ensures MatchedBy(records, more, shown0, p) {
      if shown1[p] != shown0[p] {
        var s :| s in self && s in records && records[s].product == p && Matches(records, s, shown0);
        assert s in more;
      } else {
        assert r in more && Matches(records, r, shown0);
      }
    }
  }

  lemma KnownAfterApplied(records: Records, shown: Shown, self: seq<RecordId>, vals: Values)
    requires KnownProducts(records, shown)
    ensures KnownProducts(Applied(records, self, vals), shown)
  {
  }

  lemma AppliedStaysValid(records: Records, shown: Shown, self: seq<RecordId>, vals: Values)
    requires Valid(records, shown) && vals == Values(None, Some(false))
    ensures Valid(Applied(records, self, vals), shown)
  {
  }

  /** One more record's rivals are switched off. */
  lemma OthersOffStep(before: Records, self: seq<RecordId>, r: RecordId, list: seq<RecordId>)
    requires r in before
    requires var now := OthersOff(before, self);
             forall s :: s in list <==> s in now && s != r && now[s].product == now[r].product && now[s].active
    ensures Applied(OthersOff(before, self), list, Values(None, Some(false))) == OthersOff(before, self + [r])
    ensures list == [] ==> OthersOff(before, self) == OthersOff(before, self + [r])
  {
    var now, next := OthersOff(before, self), OthersOff(before, self + [r]);
    forall s | s in before
      ensures SharesProduct(before, self + [r], s) <==>
              SharesProduct(before, self, s) || (s != r && before[s].product == before[r].product)
    {
      if s != r && before[s].product == before[r].product { assert r in self + [r]; }
      if SharesProduct(before, self, s) {
        var t :| t in self && t != s && t in before && before[t].product == before[s].product;
        assert t in self + [r];
      }
    }
    forall s | s in before ensures next[s] == if s in list then now[s].(active := false) else now[s] { }
    if list == [] {
      forall s | s in before ensures s !in list { }
    }
  }

  /** From a synchronised table, applying the values to `self` and synchronising gives a synchronised
      table exactly when no shown record was switched off under another code. */
  lemma WriteSyncs(records: Records, self: seq<RecordId>, vals: Values, shown: Shown, shown': Shown, ps: set<ProductId>)
    requires Synced(records, shown, ps)
    requires ProductsIn(records, self, ps)
    requires Valid(Applied(records, self, vals), shown) && SyncedFrom(Applied(records, self, vals), self, shown, shown')
    ensures Synced(Applied(records, self, vals), shown', ps) <==> !Stale(records, self, vals)
  {
    var after := Applied(records, self, vals);
    if Stale(records, self, vals) {
      var r :| r in self && r in records && records[r].active && records[r].code != ""
          && records[r].code != vals.code.value;
      StaleIsShown(records, self, vals, shown, shown', ps, r);
    } else {
      forall p | p in ps ensures ShowsActive(after, shown', p) {
        ProductSyncs(records, self, vals, shown, shown', ps, p);
      }
    }
  }

  lemma StaleIsShown(records: Records, self: seq<RecordId>, vals: Values, shown: Shown, shown': Shown,
                     ps: set<ProductId>, r: RecordId)
    requires Synced(records, shown, ps)
    requires ProductsIn(records, self, ps)
    requires Valid(Applied(records, self, vals), shown) && SyncedFrom(Applied(records, self, vals), self, shown, shown')
    requires vals.active == Some(false) && vals.code.Some?
    requires r in self && r in records && records[r].active && records[r].code != ""
             && records[r].code != vals.code.value
    ensures !ShowsActive(Applied(records, self, vals), shown', records[r].product) && records[r].product in shown'
  {
    var after, p := Applied(records, self, vals), records[r].product;
    assert ShowsActive(records, shown, p);
    ActiveCodeIs(records, r, p);
    assert forall s :: !ActiveIn(after, s, p);
    assert ActiveCode(after, p) == "";
    assert !MatchedBy(after, self, shown, p);
  }

  lemma ProductSyncs(records: Records, self: seq<RecordId>, vals: Values, shown: Shown, shown': Shown,
                     ps: set<ProductId>, p: ProductId)
    requires Synced(records, shown, ps) && p in ps && !Stale(records, self, vals)
    requires ProductsIn(records, self, ps)
    requires Valid(Applied(records, self, vals), shown) && SyncedFrom(Applied(records, self, vals), self, shown, shown')
    ensures ShowsActive(Applied(records, self, vals), shown', p)
  {
    var after := Applied(records, self, vals);
    assert ShowsActive(records, shown, p);
    if r :| ActiveIn(after, r, p) {
      ActiveCodeIs(after, r, p);
      if r in self {
        assert Matches(after, r, shown);
      } else {
        ActiveCodeIs(records, r, p);
      }
    } else if a :| ActiveIn(records, a, p) {
      ActiveCodeIs(records, a, p);
      assert !ActiveIn(after, a, p);
      assert a in self && vals.active == Some(false);
      assert records[a].code == "" || after[a].code == records[a].code;
      assert records[a].code == "" || Matches(after, a, shown);
    }
  }
}
