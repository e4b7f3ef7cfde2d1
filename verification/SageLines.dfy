/** Lines of the entries sent to SAGE X3: rounding to cents and balancing
    (custom_api_sage_x3/models/account_move.py). Amounts are integers in thousandths of a cent; account
    and third-party codes are integers in the order of their texts. */
module SageLines {
  import opened Options

  type Money = int
  type Account = int
  type Party = int

  const CENT := 1000

  /** So many cents. */
  function Cents(n: int): Money {
    1000 * n
  }

  datatype Side = Debit | Credit

  datatype Line = Line(account: Option<Account>, side: Side, amount: Money, party: Option<Party>)

  function Abs(x: int): nat {
    if x < 0 then 0 - x else x
  }

  predicate WholeCents(x: Money) {
    x % CENT == 0
  }

  /** `round(x, 2)`: the nearest cent, and of two equally near the even one. */
  function Round(x: Money): (r: Money)
    ensures WholeCents(r) && 2 * Abs(r - x) <= CENT
    ensures 2 * Abs(r - x) == CENT ==> (r / CENT) % 2 == 0
  {
    var q, rest := x / CENT, x % CENT;
    if 2 * rest < CENT || (2 * rest == CENT && q % 2 == 0) then q * CENT else (q + 1) * CENT
  }

  lemma RoundIsUnique(x: Money, r: Money)
    requires WholeCents(r) && 2 * Abs(r - x) <= CENT && (2 * Abs(r - x) == CENT ==> (r / CENT) % 2 == 0)
    ensures r == Round(x)
  {
    var s := Round(x);
    assert r == CENT * (r / CENT) && s == CENT * (s / CENT);
  }

  lemma RoundKeepsCents(x: Money)
    requires WholeCents(x)
    ensures Round(x) == x
  {
    RoundIsUnique(x, x);
  }

  /** The total of one side. */
  function Amount(lines: seq<Line>, side: Side): Money {
    if lines == [] then 0
    else
      var last := lines[|lines| - 1];
      Amount(lines[..|lines| - 1], side) + if last.side == side then last.amount else 0
  }

  function Gap(lines: seq<Line>): Money {
    Amount(lines, Debit) - Amount(lines, Credit)
  }

  predicate Balanced(lines: seq<Line>) {
    Amount(lines, Debit) == Amount(lines, Credit)
  }

  predicate InCents(lines: seq<Line>) {
    forall i :: 0 <= i < |lines| ==> WholeCents(lines[i].amount)
  }

  function RoundedLine(l: Line): Line {
    l.(amount := Round(l.amount))
  }

  /** The lines as they are put in an entry. */
  function Rounded(items: seq<Line>): (lines: seq<Line>)
    ensures |lines| == |items| && InCents(lines)
    ensures forall i :: 0 <= i < |items| ==> lines[i] == RoundedLine(items[i])
  {
    if items == [] then [] else Rounded(items[..|items| - 1]) + [RoundedLine(items[|items| - 1])]
  }

  lemma AmountAppend(lines: seq<Line>, l: Line, side: Side)
    ensures Amount(lines + [l], side) == Amount(lines, side) + if l.side == side then l.amount else 0
  {
    assert (lines + [l])[..|lines|] == lines;
  }

  lemma {:induction false} AmountConcat(s: seq<Line>, t: seq<Line>, side: Side)
    ensures Amount(s + t, side) == Amount(s, side) + Amount(t, side)
  {
    if t == [] {
      assert s + t == s;
    } else {
      AmountConcat(s, t[..|t| - 1], side);
      assert (s + t)[..|s + t| - 1] == s + t[..|t| - 1];
    }
  }

  lemma {:induction false} AmountOfOtherSide(lines: seq<Line>, side: Side)
    requires forall i :: 0 <= i < |lines| ==> lines[i].side != side
    ensures Amount(lines, side) == 0
  {
    if lines != [] { AmountOfOtherSide(lines[..|lines| - 1], side); }
  }

  lemma {:induction false} AmountUpdate(lines: seq<Line>, i: nat, amount: Money, side: Side)
    requires i < |lines|
    ensures Amount(lines[i := lines[i].(amount := amount)], side) ==
            Amount(lines, side) + if lines[i].side == side then amount - lines[i].amount else 0
    decreases |lines|
  {
    var l := lines[i].(amount := amount);
    if i == |lines| - 1 {
      assert lines[i := l][..i] == lines[..i];
    } else {
      AmountUpdate(lines[..|lines| - 1], i, amount, side);
      assert lines[i := l][..|lines| - 1] == lines[..|lines| - 1][i := l];
    }
  }

  lemma {:induction false} AmountInCents(lines: seq<Line>, side: Side)
    requires InCents(lines)
    ensures WholeCents(Amount(lines, side))
  {
    if lines != [] {
      assert InCents(lines[..|lines| - 1]);
      AmountInCents(lines[..|lines| - 1], side);
    }
  }

  /** Rounding every line moves a total by half a cent a line at most. */
  lemma {:induction false} RoundingBound(items: seq<Line>, side: Side)
    ensures 2 * Abs(Amount(Rounded(items), side) - Amount(items, side)) <= Cents(|items|)
  {
    hide Round, InCents, Amount;
    if items == [] {
      AmountOfOtherSide(items, side);
    } else {
      var init, last := items[..|items| - 1], items[|items| - 1];
      RoundingBound(init, side);
      assert items == init + [last];
      AmountAppend(init, last, side);
      AmountAppend(Rounded(init), RoundedLine(last), side);
    }
  }

  lemma RoundingKeepsCents(items: seq<Line>)
    requires InCents(items)
    ensures Rounded(items) == items
  {
    forall i | 0 <= i < |items| ensures Rounded(items)[i] == items[i] { RoundKeepsCents(items[i].amount); }
  }

  // ---------------------------------------------------------------- balancing

  /** The place of the first line of a side, or the number of lines. */
  function First(lines: seq<Line>, side: Side): (i: nat)
    ensures i <= |lines| && (i < |lines| ==> lines[i].side == side)
    ensures forall j :: 0 <= j < i ==> lines[j].side != side
  {
    if lines == [] then 0
    else
      var i := First(lines[..|lines| - 1], side);
      if i < |lines| - 1 || lines[i].side == side then i else |lines|
  }

  lemma FirstIs(lines: seq<Line>, side: Side, i: nat)
    requires i <= |lines| && (i < |lines| ==> lines[i].side == side)
    requires forall j :: 0 <= j < i ==> lines[j].side != side
    ensures First(lines, side) == i
  {
    var f := First(lines, side);
    assert f < |lines| ==> lines[f].side == side;
  }

  function GapToCorrect(lines: seq<Line>): Money {
    Round(Round(Amount(lines, Debit)) - Round(Amount(lines, Credit)))
  }

  /** What `_equilibrer_lignes` makes of the lines. */
  function Equilibrated(lines: seq<Line>, target: Side): (r: seq<Line>)
    ensures |r| == |lines| && forall i :: 0 <= i < |lines| ==> r[i] == lines[i].(amount := r[i].amount)
  {
    var i := First(lines, target);
    if GapToCorrect(lines) == 0 || i == |lines| then lines
    else lines[i := lines[i].(amount := Round(lines[i].amount - GapToCorrect(lines)))]
  }

  /** The list of lines of an entry being built. */
  class Draft {
    var lines: seq<Line>

    constructor ()
      ensures lines == []
    {
      lines := [];
    }

    method Add(account: Option<Account>, side: Side, amount: Money, party: Option<Party>)
      modifies this
      ensures lines == old(lines) + [Line(account, side, amount, party)]
    {
      lines := lines + [Line(account, side, amount, party)];
    }

    method Equilibrate(target: Side)
      modifies this
      ensures lines == Equilibrated(old(lines), target)
    {
      var debit, credit := 0, 0;
      for i := 0 to |lines|
        invariant debit == Amount(lines[..i], Debit) && credit == Amount(lines[..i], Credit)
      {
        assert lines[..i + 1][..i] == lines[..i];
        if lines[i].side == Debit {
          debit := debit + lines[i].amount;
        } else {
          credit := credit + lines[i].amount;
        }
      }
      assert lines[..|lines|] == lines;
      var gap := Round(Round(debit) - Round(credit));
      if gap != 0 {
        var i := 0;
        while i < |lines| && lines[i].side != target
          invariant i <= |lines| && forall j :: 0 <= j < i ==> lines[j].side != target
        {
          i := i + 1;
        }
        FirstIs(lines, target, i);
        if i < |lines| {
          lines := lines[i := lines[i].(amount := Round(lines[i].amount - gap))];
        }
      }
    }
  }

  /** Balancing on the debit side closes the gap; on the credit side it doubles it. */
  lemma EquilibratedGap(lines: seq<Line>, target: Side)
    requires InCents(lines)
    ensures InCents(Equilibrated(lines, target))
    ensures Gap(Equilibrated(lines, target)) ==
            if First(lines, target) == |lines| then Gap(lines) else if target == Debit then 0 else 2 * Gap(lines)
  {
    hide Round, First;
    AmountInCents(lines, Debit);
    AmountInCents(lines, Credit);
    RoundKeepsCents(Amount(lines, Debit));
    RoundKeepsCents(Amount(lines, Credit));
    RoundKeepsCents(Gap(lines));
    var i := First(lines, target);
    if Gap(lines) != 0 && i < |lines| {
      RoundKeepsCents(lines[i].amount - Gap(lines));
      AmountUpdate(lines, i, lines[i].amount - Gap(lines), Debit);
      AmountUpdate(lines, i, lines[i].amount - Gap(lines), Credit);
    }
  }

  /** The entry is balanced afterwards exactly when it was before, or a debit line took the gap. */
  lemma BalancedIff(lines: seq<Line>, target: Side)
    requires InCents(lines)
    ensures Balanced(Equilibrated(lines, target)) <==>
            Balanced(lines) || (target == Debit && exists i :: 0 <= i < |lines| && lines[i].side == Debit)
  {
    EquilibratedGap(lines, target);
    if First(lines, target) < |lines| { assert lines[First(lines, target)].side == target; }
  }
}
