/** Loyalty points of a sale order by family (custom_loyalty/models/sale_order.py). Amounts and
    thresholds are integers in one small unit. */
module Loyalty {
  import opened Digraphs
  import opened Options
  import opened Sums

  type FamilyId = int
  type ProductId = int

  datatype Family = Family(threshold: int, earned: int)

  datatype OrderLine = OrderLine(quantity: int, product: ProductId, eligible: bool, family: Option<FamilyId>,
                                 total: int)

  predicate Counts(l: OrderLine, valid: set<ProductId>) {
    l.quantity > 0 && l.eligible && l.family.Some? && l.product in valid
  }

  /** What a line adds to the total of a family. */
  ghost function LineWeight(valid: set<ProductId>, f: FamilyId): OrderLine -> int {
    (l: OrderLine) => if Counts(l, valid) && l.family.value == f then l.total else 0
  }

  ghost function FamilyTotal(lines: seq<OrderLine>, valid: set<ProductId>, f: FamilyId): int {
    SumBy(lines, LineWeight(valid, f))
  }

  ghost function FamiliesOf(lines: seq<OrderLine>, valid: set<ProductId>): set<FamilyId> {
    set l | l in lines && Counts(l, valid) :: l.family.value
  }

  ghost function TotalsByFamily(lines: seq<OrderLine>, valid: set<ProductId>): map<FamilyId, int> {
    map f | f in FamiliesOf(lines, valid) :: FamilyTotal(lines, valid, f)
  }

  /** `int(a / b)`: toward zero. */
  function Truncated(a: int, b: int): int
    requires b > 0
  {
    if a >= 0 then a / b else 0 - (0 - a) / b
  }

  function FamilyPoints(f: Family, total: int): int {
    if f.threshold > 0 then Truncated(total, f.threshold) * f.earned else 0
  }

  ghost function PointsByFamily(families: map<FamilyId, Family>, totals: map<FamilyId, int>): map<FamilyId, int>
    requires totals.Keys <= families.Keys
  {
    map f | f in totals :: FamilyPoints(families[f], totals[f])
  }

  ghost function Points(families: map<FamilyId, Family>, lines: seq<OrderLine>, valid: set<ProductId>): int
    requires FamiliesOf(lines, valid) <= families.Keys
  {
    Total(PointsByFamily(families, TotalsByFamily(lines, valid)))
  }

  /** `_calculate_custom_loyalty_points_sale`; the families are visited in an arbitrary order. */
  method ComputePoints(families: map<FamilyId, Family>, lines: seq<OrderLine>, valid: set<ProductId>)
      returns (points: int)
    requires FamiliesOf(lines, valid) <= families.Keys
    ensures points == Points(families, lines, valid)
  {
    hide Total, TotalsByFamily, FamiliesOf, Truncated;
    var totals := ComputeTotals(lines, valid);
    TotalsAreOfFamilies(lines, valid);
    NoTotal();
    points := 0;
    var todo := totals.Keys;
    ghost var all := PointsByFamily(families, totals);
    assert all - todo == map[];
    while todo != {}
      invariant todo <= totals.Keys && points == Total(all - todo)
    {
      var f := Pick(todo);
      var family := families[f];
      TotalSplit(all - (todo - {f}), f);
      assert all - (todo - {f}) - {f} == all - todo;
      if family.threshold > 0 {
        points := points + Truncated(totals[f], family.threshold) * family.earned;
      }
      todo := todo - {f};
    }
    assert all - {} == all;
  }

  method ComputeTotals(lines: seq<OrderLine>, valid: set<ProductId>) returns (totals: map<FamilyId, int>)
    ensures totals == TotalsByFamily(lines, valid)
  {
    totals := map[];
    for i := 0 to |lines|
      invariant totals == TotalsByFamily(lines[..i], valid)
    {
      OneMoreLine(lines, i, valid);
      var line := lines[i];
      if line.quantity <= 0 {
        continue;
      }
      if !line.eligible || line.family.None? {
        continue;
      }
      if line.product !in valid {
        continue;
      }
      var f := line.family.value;
      if f !in totals {
        totals := totals[f := 0];
      }
      totals := totals[f := totals[f] + line.total];
    }
    assert lines[..|lines|] == lines;
  }

  lemma TotalsAreOfFamilies(lines: seq<OrderLine>, valid: set<ProductId>)
    ensures TotalsByFamily(lines, valid).Keys == FamiliesOf(lines, valid)
  {
  }

  lemma OneMoreLine(lines: seq<OrderLine>, i: nat, valid: set<ProductId>)
    requires i < |lines|
    ensures var before, l := TotalsByFamily(lines[..i], valid), lines[i];
            TotalsByFamily(lines[..i + 1], valid) ==
              if !Counts(l, valid) then before
              else before[l.family.value := (if l.family.value in before then before[l.family.value] else 0) + l.total]
  {
    hide FamilyTotal;
    var before, l := lines[..i], lines[i];
    assert lines[..i + 1] == before + [l];
    forall f ensures FamilyTotal(before + [l], valid, f) == FamilyTotal(before, valid, f) +
                       if Counts(l, valid) && l.family.value == f then l.total else 0 {
      FamilyTotalAppend(before, l, valid, f);
    }
    if Counts(l, valid) { AbsentFamily(before, valid, l.family.value); }
  }

  lemma FamilyTotalAppend(lines: seq<OrderLine>, l: OrderLine, valid: set<ProductId>, f: FamilyId)
    ensures FamilyTotal(lines + [l], valid, f) == FamilyTotal(lines, valid, f) +
              if Counts(l, valid) && l.family.value == f then l.total else 0
  {
    SumByAppend(lines, l, LineWeight(valid, f));
  }

  lemma {:induction false} AbsentFamily(lines: seq<OrderLine>, valid: set<ProductId>, f: FamilyId)
    ensures f !in FamiliesOf(lines, valid) ==> FamilyTotal(lines, valid, f) == 0
  {
    if lines != [] {
      var init, l := lines[..|lines| - 1], lines[|lines| - 1];
      assert lines == init + [l];
      assert forall x :: x in init ==> x in lines;
      AbsentFamily(init, valid, f);
      assert l in lines;
    }
  }

  // ---------------------------------------------------------------- properties

  /** A line without quantity, product that is eligible, family or valid product changes nothing, wherever
      it stands. */
  lemma LineThatDoesNotCount(families: map<FamilyId, Family>, s: seq<OrderLine>, l: OrderLine, t: seq<OrderLine>,
                             valid: set<ProductId>)
    requires l.quantity <= 0 || !l.eligible || l.family.None? || l.product !in valid
    requires FamiliesOf(s + t, valid) <= families.Keys
    ensures FamiliesOf(s + [l] + t, valid) <= families.Keys
    ensures Points(families, s + [l] + t, valid) == Points(families, s + t, valid)
  {
    assert forall x :: x in s + [l] + t <==> x in s + t || x == l;
    assert FamiliesOf(s + [l] + t, valid) == FamiliesOf(s + t, valid);
    forall f ensures FamilyTotal(s + [l] + t, valid, f) == FamilyTotal(s + t, valid, f) {
      SumByConcat(s + [l], t, LineWeight(valid, f));
      SumByConcat(s, t, LineWeight(valid, f));
      SumByAppend(s, l, LineWeight(valid, f));
    }
    assert TotalsByFamily(s + [l] + t, valid) == TotalsByFamily(s + t, valid);
  }

  /** An order of one line that counts: as many awards as the threshold fits in its total, toward zero,
      and none when the threshold is not positive. */
  lemma OneLineOrder(families: map<FamilyId, Family>, l: OrderLine, valid: set<ProductId>, q: int, rest: int)
    requires l.quantity > 0 && l.eligible && l.family.Some? && l.product in valid && l.family.value in families
    requires var t := families[l.family.value].threshold;
             t > 0 ==> && l.total == q * t + rest && 0 - t < rest < t
                       && (q > 0 ==> rest >= 0) && (q < 0 ==> rest <= 0)
    ensures FamiliesOf([l], valid) <= families.Keys
    ensures Points(families, [l], valid) ==
            if families[l.family.value].threshold > 0 then q * families[l.family.value].earned else 0
  {
    var f := l.family.value;
    assert l in [l];
    assert FamiliesOf([l], valid) == {f};
    SumByAppend([], l, LineWeight(valid, f));
    assert [] + [l] == [l];
    OneFamilyPoints(families, [l], valid, f);
    if families[f].threshold > 0 { TruncatedIs(l.total, families[f].threshold, q, rest); }
  }

  /** The points do not depend on the order of the lines. */
  lemma OrderOfLinesIsIrrelevant(families: map<FamilyId, Family>, s: seq<OrderLine>, t: seq<OrderLine>,
                                 valid: set<ProductId>)
    requires multiset(s) == multiset(t) && FamiliesOf(s, valid) <= families.Keys
    ensures FamiliesOf(t, valid) <= families.Keys && Points(families, s, valid) == Points(families, t, valid)
  {
    assert forall l :: l in s <==> l in multiset(s);
    assert forall l :: l in t <==> l in multiset(t);
    assert FamiliesOf(s, valid) == FamiliesOf(t, valid);
    forall f ensures FamilyTotal(s, valid, f) == FamilyTotal(t, valid, f) {
      SumByPermutation(s, t, LineWeight(valid, f));
    }
    assert TotalsByFamily(s, valid) == TotalsByFamily(t, valid);
  }

  /** The points of each family of a set, absent families giving none. */
  ghost function PointsOn(on: set<FamilyId>, families: map<FamilyId, Family>, lines: seq<OrderLine>,
                          valid: set<ProductId>): map<FamilyId, int>
    requires on <= families.Keys
  {
    map f | f in on :: FamilyPoints(families[f], FamilyTotal(lines, valid, f))
  }

  lemma PointsOnMore(on: set<FamilyId>, families: map<FamilyId, Family>, lines: seq<OrderLine>, valid: set<ProductId>)
    requires FamiliesOf(lines, valid) <= on <= families.Keys
    ensures Total(PointsOn(on, families, lines, valid)) == Points(families, lines, valid)
  {
    hide Total, FamilyTotal, FamiliesOf;
    var all, absent := PointsOn(on, families, lines, valid), on - FamiliesOf(lines, valid);
    forall f | f in absent ensures all[f] == 0 { AbsentFamily(lines, valid, f); }
    TotalZeros(all, absent);
    assert all - absent == PointsByFamily(families, TotalsByFamily(lines, valid));
  }

  // ---------------------------------------------------------------- splitting an order

  /** What division toward zero leaves, of the sign of `a`. */
  function Remainder(a: int, t: int): int
    requires t > 0
  {
    a - Truncated(a, t) * t
  }

  /** What the quotient of a sum is above the sum of the quotients. */
  function Carry(a: int, b: int, t: int): int
    requires t > 0
  {
    var q, s := Truncated(a, t) + Truncated(b, t), Remainder(a, t) + Remainder(b, t);
    if s >= t || (s > 0 && q < 0) then 1
    else if s <= 0 - t || (s < 0 && q > 0) then 0 - 1
    else 0
  }

  lemma AtLeastOnce(d: int, t: int)
    requires t > 0
    ensures (d >= 1 ==> d * t >= t) && (d <= 0 - 1 ==> d * t <= 0 - t)
  {
    if d >= 1 {
      assert d * t == t + (d - 1) * t;
    } else if d <= 0 - 1 {
      assert d * t == (d + 1) * t - t;
    }
  }

  lemma RemainderSigns(a: int, t: int)
    requires t > 0
    ensures var q, r := Truncated(a, t), Remainder(a, t);
            && 0 - t < r < t && (r > 0 ==> q >= 0) && (r < 0 ==> q <= 0)
            && (q > 0 ==> r >= 0) && (q < 0 ==> r <= 0)
  {
    var q := Truncated(a, t);
    if a >= 0 {
      assert a == a / t * t + a % t;
    } else {
      assert 0 - a == (0 - a) / t * t + (0 - a) % t;
    }
  }

  /** Truncated division is the one with a small remainder of the sign of the dividend. */
  lemma TruncatedIs(x: int, t: int, q: int, r: int)
    requires t > 0 && x == q * t + r && 0 - t < r < t
    requires (q > 0 ==> r >= 0) && (q < 0 ==> r <= 0)
    ensures Truncated(x, t) == q
  {
    RemainderSigns(x, t);
    var p, s := Truncated(x, t), Remainder(x, t);
    assert (p - q) * t == r - s;
    AtLeastOnce(p - q, t);
    AtLeastOnce(q, t);
    AtLeastOnce(p, t);
  }

  lemma TruncatedSum(a: int, b: int, t: int)
    requires t > 0
    ensures Truncated(a + b, t) == Truncated(a, t) + Truncated(b, t) + Carry(a, b, t)
  {
    hide Truncated, Remainder;
    RemainderSigns(a, t);
    RemainderSigns(b, t);
    var q, s, c := Truncated(a, t) + Truncated(b, t), Remainder(a, t) + Remainder(b, t), Carry(a, b, t);
    SumOfDivisions(a, b, t, c);
    TruncatedIs(a + b, t, q + c, s - c * t);
  }

  lemma SumOfDivisions(a: int, b: int, t: int, c: int)
    requires t > 0
    ensures a + b == (Truncated(a, t) + Truncated(b, t) + c) * t + (Remainder(a, t) + Remainder(b, t) - c * t)
  {
    hide Truncated;
    var p, q := Truncated(a, t), Truncated(b, t);
    assert (p + q + c) * t == p * t + q * t + c * t;
  }

  /** No points are gained on a family by ordering `a` and `b` apart: a test on the two quotients and on
      the sum of the remainders. */
  predicate NoGain(a: int, b: int, t: int)
    requires t > 0
  {
    var q, s := Truncated(a, t) + Truncated(b, t), Remainder(a, t) + Remainder(b, t);
    if q >= 1 then s >= 0 else s > 0 - t
  }

  lemma SplitFamilyPoints(f: Family, a: int, b: int)
    requires f.threshold > 0 && f.earned > 0
    ensures FamilyPoints(f, a) + FamilyPoints(f, b) <= FamilyPoints(f, a + b) <==> NoGain(a, b, f.threshold)
    ensures FamilyPoints(f, a + b) <= FamilyPoints(f, a) + FamilyPoints(f, b) + f.earned
  {
    FamilyPointsOfSum(f, a, b);
    hide Truncated;
    RemainderSigns(a, f.threshold);
    RemainderSigns(b, f.threshold);
    AtLeastOnce(Carry(a, b, f.threshold), f.earned);
  }

  function FamilyCarry(f: Family, a: int, b: int): int {
    if f.threshold > 0 then Carry(a, b, f.threshold) * f.earned else 0
  }

  lemma FamilyPointsOfSum(f: Family, a: int, b: int)
    ensures FamilyPoints(f, a + b) == FamilyPoints(f, a) + FamilyPoints(f, b) + FamilyCarry(f, a, b)
  {
    hide Truncated, Carry;
    if f.threshold > 0 {
      TruncatedSum(a, b, f.threshold);
      var t, x, y := f.threshold, Truncated(a, f.threshold), Truncated(b, f.threshold);
      assert (x + y + Carry(a, b, t)) * f.earned == x * f.earned + y * f.earned + Carry(a, b, t) * f.earned;
    }
  }

  lemma NoCarryWithNothing(f: Family, a: int)
    ensures FamilyCarry(f, a, 0) == 0 == FamilyCarry(f, 0, a)
  {
    if f.threshold > 0 {
      RemainderSigns(a, f.threshold);
      hide Truncated, Remainder;
      assert Truncated(0, f.threshold) == 0 && Remainder(0, f.threshold) == 0 by { ZeroTruncated(f.threshold); }
    }
  }

  lemma ZeroTruncated(t: int)
    requires t > 0
    ensures Truncated(0, t) == 0 && Remainder(0, t) == 0
  {
  }

  /** What the families of a set gain or lose when the two orders are put together. */
  ghost function Carries(on: set<FamilyId>, families: map<FamilyId, Family>, s: seq<OrderLine>, t: seq<OrderLine>,
                         valid: set<ProductId>): map<FamilyId, int>
    requires on <= families.Keys
  {
    map f | f in on :: FamilyCarry(families[f], FamilyTotal(s, valid, f), FamilyTotal(t, valid, f))
  }

  lemma FamiliesOfBoth(s: seq<OrderLine>, t: seq<OrderLine>, valid: set<ProductId>)
    ensures FamiliesOf(s + t, valid) == FamiliesOf(s, valid) + FamiliesOf(t, valid)
  {
    assert forall l :: l in s + t <==> l in s || l in t;
  }

  /** Exactly what splitting an order changes, whatever the signs of the lines: the carries of the
      families on both sides. */
  lemma SplittingChangesBy(families: map<FamilyId, Family>, s: seq<OrderLine>, t: seq<OrderLine>, valid: set<ProductId>)
    requires FamiliesOf(s + t, valid) <= families.Keys
    ensures FamiliesOf(s, valid) <= families.Keys && FamiliesOf(t, valid) <= families.Keys
    ensures Points(families, s + t, valid) == Points(families, s, valid) + Points(families, t, valid)
              + Total(Carries(FamiliesOf(s, valid) * FamiliesOf(t, valid), families, s, t, valid))
  {
    FamiliesOfBoth(s, t, valid);
    var on := FamiliesOf(s + t, valid);
    var shared := FamiliesOf(s, valid) * FamiliesOf(t, valid);
    PointsOnMore(on, families, s, valid);
    PointsOnMore(on, families, t, valid);
    PointsOnMore(on, families, s + t, valid);
    CarriesAddUp(on, shared, families, s, t, valid);
  }

  lemma CarriesAddUp(on: set<FamilyId>, shared: set<FamilyId>, families: map<FamilyId, Family>,
                     s: seq<OrderLine>, t: seq<OrderLine>, valid: set<ProductId>)
    requires on == FamiliesOf(s, valid) + FamiliesOf(t, valid) && shared == FamiliesOf(s, valid) * FamiliesOf(t, valid)
    requires on <= families.Keys
    ensures Total(PointsOn(on, families, s + t, valid)) == Total(PointsOn(on, families, s, valid))
              + Total(PointsOn(on, families, t, valid)) + Total(Carries(shared, families, s, t, valid))
  {
    hide Total, FamilyTotal, FamiliesOf, FamilyPoints, FamilyCarry;
    var a, b := PointsOn(on, families, s, valid), PointsOn(on, families, t, valid);
    var all := Carries(on, families, s, t, valid);
    forall f | f in on ensures PointsOn(on, families, s + t, valid)[f] == a[f] + b[f] + all[f] {
      FamilyTotalConcat(s, t, valid, f);
      FamilyPointsOfSum(families[f], FamilyTotal(s, valid, f), FamilyTotal(t, valid, f));
    }
    forall f | f in on - shared ensures all[f] == 0 {
      AbsentFamily(s, valid, f);
      AbsentFamily(t, valid, f);
      NoCarryWithNothing(families[f], FamilyTotal(s, valid, f));
      NoCarryWithNothing(families[f], FamilyTotal(t, valid, f));
    }
    TotalPlus(a, b);
    TotalPlus(Plus(a, b), all);
    assert PointsOn(on, families, s + t, valid) == Plus(Plus(a, b), all);
    TotalZeros(all, on - shared);
    assert all - (on - shared) == Carries(shared, families, s, t, valid);
  }

  lemma FamilyTotalConcat(s: seq<OrderLine>, t: seq<OrderLine>, valid: set<ProductId>, f: FamilyId)
    ensures FamilyTotal(s + t, valid, f) == FamilyTotal(s, valid, f) + FamilyTotal(t, valid, f)
  {
    SumByConcat(s, t, LineWeight(valid, f));
  }

  /** The points earned once by every family of a set. */
  ghost function EarnedOnce(on: set<FamilyId>, families: map<FamilyId, Family>): map<FamilyId, int>
    requires on <= families.Keys
  {
    map f | f in on :: families[f].earned
  }

  /** No family on both sides gains by being split. */
  ghost predicate NoFamilyGains(families: map<FamilyId, Family>, s: seq<OrderLine>, t: seq<OrderLine>,
                                valid: set<ProductId>) {
    forall f :: f in FamiliesOf(s, valid) * FamiliesOf(t, valid) && f in families && families[f].threshold > 0 ==>
                  NoGain(FamilyTotal(s, valid, f), FamilyTotal(t, valid, f), families[f].threshold)
  }

  /** Splitting an order in two loses at most one award of each family on both sides, and gains nothing
      when none of these families gains. */
  lemma SplittingNeverGains(families: map<FamilyId, Family>, s: seq<OrderLine>, t: seq<OrderLine>,
                            valid: set<ProductId>)
    requires FamiliesOf(s + t, valid) <= families.Keys
    requires forall f :: f in families ==> families[f].earned > 0
    ensures FamiliesOf(s, valid) <= families.Keys && FamiliesOf(t, valid) <= families.Keys
    ensures var apart := Points(families, s, valid) + Points(families, t, valid);
            var shared := FamiliesOf(s, valid) * FamiliesOf(t, valid);
            && Points(families, s + t, valid) <= apart + Total(EarnedOnce(shared, families))
            && (NoFamilyGains(families, s, t, valid) ==> apart <= Points(families, s + t, valid))
  {
    SplittingChangesBy(families, s, t, valid);
    CarriesAreBounded(FamiliesOf(s, valid) * FamiliesOf(t, valid), families, s, t, valid);
  }

  lemma CarriesAreBounded(shared: set<FamilyId>, families: map<FamilyId, Family>, s: seq<OrderLine>, t: seq<OrderLine>,
                          valid: set<ProductId>)
    requires shared == FamiliesOf(s, valid) * FamiliesOf(t, valid) && shared <= families.Keys
    requires forall f :: f in families ==> families[f].earned > 0
    ensures Total(Carries(shared, families, s, t, valid)) <= Total(EarnedOnce(shared, families))
    ensures NoFamilyGains(families, s, t, valid) ==> Total(Carries(shared, families, s, t, valid)) >= 0
  {
    hide Total, FamilyTotal, FamiliesOf, FamilyPoints, NoGain, FamilyCarry;
    var carries := Carries(shared, families, s, t, valid);
    forall f | f in shared
      ensures carries[f] <= families[f].earned && (NoFamilyGains(families, s, t, valid) ==> carries[f] >= 0)
    {
      CarryIsBounded(families[f], FamilyTotal(s, valid, f), FamilyTotal(t, valid, f));
    }
    TotalMonotone(carries, EarnedOnce(shared, families));
    if NoFamilyGains(families, s, t, valid) {
      var zeros: map<FamilyId, int> := map f | f in shared :: 0;
      TotalZeros(zeros, shared);
      assert zeros - shared == map[];
      NoTotal();
      TotalMonotone(zeros, carries);
    }
  }

  lemma NoTotal()
    ensures Total<FamilyId>(map[]) == 0
  {
  }

  lemma CarryIsBounded(f: Family, a: int, b: int)
    requires f.earned > 0
    ensures FamilyCarry(f, a, b) <= f.earned
    ensures (f.threshold > 0 ==> NoGain(a, b, f.threshold)) ==> FamilyCarry(f, a, b) >= 0
  {
    if f.threshold > 0 {
      FamilyPointsOfSum(f, a, b);
      SplitFamilyPoints(f, a, b);
    }
  }

  /** Orders of one family: nothing is gained by splitting if and only if `NoGain`. */
  lemma OneFamilyGainsIff(families: map<FamilyId, Family>, f: FamilyId, s: seq<OrderLine>, t: seq<OrderLine>,
                          valid: set<ProductId>)
    requires FamiliesOf(s, valid) == FamiliesOf(t, valid) == {f} && f in families
    requires families[f].threshold > 0 && families[f].earned > 0
    ensures FamiliesOf(s + t, valid) <= families.Keys
    ensures Points(families, s, valid) + Points(families, t, valid) <= Points(families, s + t, valid) <==>
            NoGain(FamilyTotal(s, valid, f), FamilyTotal(t, valid, f), families[f].threshold)
  {
    hide FamilyTotal, FamilyPoints, NoGain, FamilyCarry, FamiliesOf, Points, Total, Counts, LineWeight;
    FamiliesOfBoth(s, t, valid);
    assert FamiliesOf(s + t, valid) == {f};
    SplittingChangesBy(families, s, t, valid);
    var a, b := FamilyTotal(s, valid, f), FamilyTotal(t, valid, f);
    var carries := Carries({f}, families, s, t, valid);
    assert FamiliesOf(s, valid) * FamiliesOf(t, valid) == {f};
    TotalSplit(carries, f);
    assert carries - {f} == map[];
    NoTotal();
    FamilyPointsOfSum(families[f], a, b);
    SplitFamilyPoints(families[f], a, b);
  }

  /** A discount line gains: 10 and -1 at one point per 10 give a point when ordered apart, none together. */
  lemma DiscountLineGainsBySplitting(f: FamilyId, p: ProductId)
    ensures var s, t := [OrderLine(1, p, true, Some(f), 10)], [OrderLine(1, p, true, Some(f), 0 - 1)];
            var families := map[f := Family(10, 1)];
            && FamiliesOf(s + t, {p}) == FamiliesOf(s, {p}) == FamiliesOf(t, {p}) == {f}
            && Points(families, s, {p}) + Points(families, t, {p}) == 1 && Points(families, s + t, {p}) == 0
  {
    var s, t := [OrderLine(1, p, true, Some(f), 10)], [OrderLine(1, p, true, Some(f), 0 - 1)];
    var families := map[f := Family(10, 1)];
    assert s[0] in s + t && s[0] in s && t[0] in t && Counts(s[0], {p}) && Counts(t[0], {p});
    assert FamiliesOf(s + t, {p}) == FamiliesOf(s, {p}) == FamiliesOf(t, {p}) == {f};
    FamilyTotalConcat(s, t, {p}, f);
    assert s[..0] == [] && t[..0] == [];
    assert FamilyTotal(s, {p}, f) == 10 && FamilyTotal(t, {p}, f) == 0 - 1;
    OneFamilyPoints(families, s, {p}, f);
    OneFamilyPoints(families, t, {p}, f);
    OneFamilyPoints(families, s + t, {p}, f);
  }

  lemma OneFamilyPoints(families: map<FamilyId, Family>, lines: seq<OrderLine>, valid: set<ProductId>, f: FamilyId)
    requires FamiliesOf(lines, valid) == {f} && f in families
    ensures Points(families, lines, valid) == FamilyPoints(families[f], FamilyTotal(lines, valid, f))
  {
    hide FamilyTotal, FamilyPoints;
    var points := PointsByFamily(families, TotalsByFamily(lines, valid));
    TotalSplit(points, f);
    assert points - {f} == map[];
    NoTotal();
  }
}
