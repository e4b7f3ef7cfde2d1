/** Decimal digits and the numbers they write.

    The values of digits serve the check digit of barcodes; numbers written in full, or with zeros in
    front, serve the references generated by the import of the POS history.

    Writing a number and reading it back gives the number. */
module Decimals {
  predicate IsDigit(c: char) { '0' <= c <= '9' }

  predicate AllDigits(s: string) { forall i :: 0 <= i < |s| ==> IsDigit(s[i]) }

  function DigitValue(c: char): (d: nat)
    requires IsDigit(c)
    ensures d < 10
  {
    (c - '0') as nat
  }

  function DigitChar(d: nat): (c: char)
    requires d < 10
    ensures IsDigit(c) && DigitValue(c) == d
  {
    '0' + d as char
  }

  function Digits(n: nat): (s: string)
    ensures s != [] && AllDigits(s)
  {
    if n < 10 then [DigitChar(n)] else Digits(n / 10) + [DigitChar(n % 10)]
  }

  /** With zeros in front, up to five characters. */
  function Padded(s: string): (r: string)
    ensures AllDigits(s) ==> AllDigits(r)
    decreases 5 - |s|
  {
    if |s| >= 5 then s else Padded("0" + s)
  }

  lemma {:induction false} PaddedIs(s: string) returns (zeros: string)
    ensures Padded(s) == zeros + s && forall i :: 0 <= i < |zeros| ==> zeros[i] == '0'
    ensures |zeros| == if |s| < 5 then 5 - |s| else 0
    decreases 5 - |s|
  {
    if |s| >= 5 {
      zeros := "";
    } else {
      var more := PaddedIs("0" + s);
      zeros := more + "0";
      assert zeros + s == more + ("0" + s);
    }
  }

  function NumberOf(s: string): nat
    requires AllDigits(s)
  {
    if s == [] then 0 else 10 * NumberOf(s[..|s| - 1]) + DigitValue(s[|s| - 1])
  }

  lemma NumberAppend(s: string, d: nat)
    requires AllDigits(s) && d < 10
    ensures AllDigits(s + [DigitChar(d)]) && NumberOf(s + [DigitChar(d)]) == 10 * NumberOf(s) + d
  {
    assert (s + [DigitChar(d)])[..|s|] == s;
  }

  lemma {:induction false} DigitsWriteTheNumber(n: nat)
    ensures NumberOf(Digits(n)) == n
  {
    hide NumberOf, DigitChar;
    if n >= 10 {
      DigitsWriteTheNumber(n / 10);
      NumberAppend(Digits(n / 10), n % 10);
    } else {
      NumberAppend([], n);
      NothingWritten();
      assert [] + [DigitChar(n)] == [DigitChar(n)];
    }
  }

  lemma NothingWritten()
    ensures NumberOf([]) == 0
  {
  }

  lemma {:induction false} ZeroInFront(s: string)
    requires AllDigits(s)
    ensures AllDigits("0" + s) && NumberOf("0" + s) == NumberOf(s)
  {
    if s == [] {
      assert "0" + s == "0" && "0"[..0] == [];
    } else {
      ZeroInFront(s[..|s| - 1]);
      assert ("0" + s)[..|s|] == "0" + s[..|s| - 1];
    }
  }

  lemma {:induction false} PaddedKeepsTheNumber(s: string)
    requires AllDigits(s)
    ensures NumberOf(Padded(s)) == NumberOf(s)
    decreases 5 - |s|
  {
    if |s| < 5 {
      ZeroInFront(s);
      PaddedKeepsTheNumber("0" + s);
    }
  }
}
