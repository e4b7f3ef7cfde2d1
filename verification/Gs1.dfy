/** The repair of GS1 barcodes (custom_api_sage_x3/models/insert_product_init.py), with the check
    digit of section 7.9 of the GS1 General Specifications. */
module Gs1 {
  import opened Decimals
  import opened Digraphs

  type ProductId = int

  predicate IsSpace(c: char) { c in {' ', '\t', '\n', '\r'} }

  /** `str.strip()`. */
  function Strip(s: string): string {
    StripRight(StripLeft(s))
  }

  function StripLeft(s: string): string {
    if s != [] && IsSpace(s[0]) then StripLeft(s[1..]) else s
  }

  function StripRight(s: string): string {
    if s != [] && IsSpace(s[|s| - 1]) then StripRight(s[..|s| - 1]) else s
  }

  // ---------------------------------------------------------------- the check digit

  /** Digits weighted 1, 3, 1, 3, ... from the left. */
  function WeightedSum(code: string): nat
    requires AllDigits(code)
  {
    if code == [] then 0
    else
      var last := |code| - 1;
      WeightedSum(code[..last]) + DigitValue(code[last]) * (if last % 2 == 0 then 1 else 3)
  }

  /** A complete 13-digit code: the weighted sum is a multiple of ten. */
  predicate ValidCode(code: string) {
    |code| == 13 && AllDigits(code) && WeightedSum(code) % 10 == 0
  }

  datatype Fixed = Code(code: string) | NotANumber

  /** The digit loop: the sums over odd and over even positions, or a character that is no digit. */
  method PositionSums(base: string) returns (ok: bool, odd: nat, even: nat)
    ensures ok <==> AllDigits(base)
    ensures ok ==> odd + 3 * even == WeightedSum(base)
  {
    ok, odd, even := true, 0, 0;
    for i := 0 to |base|
      invariant AllDigits(base[..i])
      invariant odd + 3 * even == WeightedSum(base[..i])
    {
      if !IsDigit(base[i]) {
        return false, 0, 0;
      }
      var d := DigitValue(base[i]);
      assert base[..i + 1][..i] == base[..i];
      if (i + 1) % 2 == 0 {
        even := even + d;
      } else {
        odd := odd + d;
      }
    }
    assert base[..|base|] == base;
  }

  /** `fix_gs1_barcode` as a function of its argument. */
  function Repaired(barcode: string): Fixed {
    var s := Strip(barcode);
    if |s| != 12 && |s| != 13 then Code(s)
    else if !AllDigits(s[..12]) then NotANumber
    else Code(s[..12] + [CheckDigit(s[..12])])
  }

  function CheckDigit(base: string): char
    requires AllDigits(base)
  {
    DigitChar((10 - WeightedSum(base) % 10) % 10)
  }

  /** `fix_gs1_barcode`. */
  method FixBarcode(barcode: string) returns (r: Fixed)
    ensures r == Repaired(barcode)
  {
    var s := Strip(barcode);
    var base: string;
    if |s| == 13 {
      base := s[..12];
    } else if |s| == 12 {
      base := s;
      assert s[..12] == s;
    } else {
      return Code(s);
    }
    var ok, odd, even := PositionSums(base);
    if !ok {
      return NotANumber;
    }
    var checkDigit := (10 - (even * 3 + odd) % 10) % 10;
    r := Code(base + [DigitChar(checkDigit)]);
  }

  /** The repaired code is the one and only valid 13-digit code with the given first twelve digits. */
  lemma CheckDigitIsUnique(base: string, c: char)
    requires |base| == 12 && AllDigits(base) && IsDigit(c)
    ensures ValidCode(base + [c]) <==> c == CheckDigit(base)
  {
    var d, w := DigitValue(c), WeightedSum(base) % 10;
    assert WeightedSum(base) == (WeightedSum(base) / 10) * 10 + w;
    assert (w + d) % 10 == 0 <==> d == (10 - w) % 10;
    assert (WeightedSum(base) + d) % 10 == (w + d) % 10;
    if d == (10 - w) % 10 { assert c == '0' + d as char; }
  }

  /** Repairing is idempotent, and it leaves a 13-digit code alone exactly when the code is valid. */
  lemma RepairIsIdempotent(barcode: string)
    ensures Repaired(barcode).Code? ==> Repaired(Repaired(barcode).code) == Repaired(barcode)
  {
    if Repaired(barcode).Code? {
      var r, s := Repaired(barcode).code, Strip(barcode);
      if |s| == 12 || |s| == 13 {
        var base := s[..12];
        CheckDigitIsUnique(base, CheckDigit(base));
        assert r[..12] == base;
      } else {
        StripTwice(barcode);
      }
    }
  }

  lemma StripTwice(s: string)
    ensures Strip(Strip(s)) == Strip(s)
  {
    StripLeftStops(s);
    StripRightStops(StripLeft(s));
  }

  lemma {:induction false} StripLeftStops(s: string)
    ensures StripLeft(s) == [] || !IsSpace(StripLeft(s)[0])
  {
    if s != [] && IsSpace(s[0]) { StripLeftStops(s[1..]); }
  }

  lemma {:induction false} StripRightStops(s: string)
    ensures var r := StripRight(s);
            StripRight(r) == r && r <= s && (r != [] ==> r[0] == s[0])
  {
    if s != [] && IsSpace(s[|s| - 1]) { StripRightStops(s[..|s| - 1]); }
  }

  /** A text of 12 or 13 characters, the first twelve being digits, gets the check digit that makes it
      valid; other characters there are an error; other lengths are only stripped. */
  lemma RepairedIs(barcode: string)
    ensures var s, r := Strip(barcode), Repaired(barcode);
            if |s| == 12 || |s| == 13
            then if AllDigits(s[..12]) then r.Code? && ValidCode(r.code) && r.code[..12] == s[..12] else r == NotANumber
            else r == Code(s)
  {
    var s := Strip(barcode);
    if (|s| == 12 || |s| == 13) && AllDigits(s[..12]) {
      CheckDigitIsUnique(s[..12], CheckDigit(s[..12]));
    }
  }

  /** What is stripped is white space, and nothing else is left at the ends. */
  lemma StripIs(s: string)
    ensures exists i, j :: 0 <= i <= j <= |s| && Strip(s) == s[i..j]
                           && (forall k :: 0 <= k < i || j <= k < |s| ==> IsSpace(s[k]))
    ensures Strip(s) != [] ==> !IsSpace(Strip(s)[0]) && !IsSpace(Strip(s)[|Strip(s)| - 1])
  {
    var i := LeftEnd(s);
    var t := StripLeft(s);
    var j := RightEnd(t);
    StripLeftStops(s);
    StripRightStops(t);
    assert s[i..i + j] == Strip(s);
    forall k | i + j <= k < |s| ensures IsSpace(s[k]) { assert t[k - i] == s[k]; }
  }

  lemma {:induction false} LeftEnd(s: string) returns (i: nat)
    ensures i <= |s| && StripLeft(s) == s[i..] && forall k :: 0 <= k < i ==> IsSpace(s[k])
  {
    i := 0;
    if s != [] && IsSpace(s[0]) {
      i := LeftEnd(s[1..]);
      forall k | 0 <= k < i + 1 ensures IsSpace(s[k]) {
        if k > 0 { assert s[k] == s[1..][k - 1]; }
      }
      i := i + 1;
    }
  }

  lemma {:induction false} RightEnd(s: string) returns (j: nat)
    ensures j <= |s| && StripRight(s) == s[..j] && forall k :: j <= k < |s| ==> IsSpace(s[k])
    ensures j > 0 ==> !IsSpace(s[j - 1])
  {
    j := |s|;
    if s != [] && IsSpace(s[|s| - 1]) {
      j := RightEnd(s[..|s| - 1]);
    }
  }

  lemma OneMoreDigit(code: string, c: char)
    requires AllDigits(code) && IsDigit(c)
    ensures AllDigits(code + [c])
    ensures WeightedSum(code + [c]) == WeightedSum(code) + DigitValue(c) * (if |code| % 2 == 0 then 1 else 3)
  {
    assert (code + [c])[..|code|] == code;
  }

  lemma NoDigits()
    ensures AllDigits("") && WeightedSum("") == 0
  {
  }

  lemma NextPrefix(code: string, i: nat)
    requires AllDigits(code) && i < |code|
    ensures AllDigits(code[..i]) && AllDigits(code[..i + 1])
    ensures WeightedSum(code[..i + 1]) == WeightedSum(code[..i]) + DigitValue(code[i]) * (if i % 2 == 0 then 1 else 3)
  {
    assert code[..i + 1] == code[..i] + [code[i]];
    OneMoreDigit(code[..i], code[i]);
  }

  /** A valid code, digit by digit: 1, 3, 1, 3, ... times the digits sum to a multiple of ten. */
  lemma ValidCodeIs(code: string)
    requires |code| == 13 && AllDigits(code)
    ensures ValidCode(code) <==>
            (DigitValue(code[0]) + DigitValue(code[2]) + DigitValue(code[4]) + DigitValue(code[6])
             + DigitValue(code[8]) + DigitValue(code[10]) + DigitValue(code[12])
             + 3 * (DigitValue(code[1]) + DigitValue(code[3]) + DigitValue(code[5]) + DigitValue(code[7])
                    + DigitValue(code[9]) + DigitValue(code[11]))) % 10 == 0
  {
    hide WeightedSum, DigitValue;
    NoDigits();
    assert code[..0] == "" && code[..13] == code;
    NextPrefix(code, 0);
    NextPrefix(code, 1);
    NextPrefix(code, 2);
    NextPrefix(code, 3);
    NextPrefix(code, 4);
    NextPrefix(code, 5);
    NextPrefix(code, 6);
    NextPrefix(code, 7);
    NextPrefix(code, 8);
    NextPrefix(code, 9);
    NextPrefix(code, 10);
    NextPrefix(code, 11);
    NextPrefix(code, 12);
  }

  lemma ValidIffUnchanged(code: string)
    requires |code| == 13 && AllDigits(code)
    ensures Repaired(code) == Code(code) <==> ValidCode(code)
  {
    CheckDigitIsUnique(code[..12], code[12]);
    assert code == code[..12] + [code[12]];
  }

  // ---------------------------------------------------------------- the pass over the product table

  datatype Product = Product(barcode: string, active: bool)

  type Table = map<ProductId, Product>

  /** The rows that the pass fetches. A product without a barcode is one with the empty barcode. */
  predicate Selected(p: Product) {
    p.active && |p.barcode| in {12, 13} && p.barcode[..2] == "27"
  }

  lemma SelectedIff(p: Product)
    ensures Selected(p) <==>
            p.active && 12 <= |p.barcode| <= 13 && p.barcode[0] == '2' && p.barcode[1] == '7'
  {
  }

  /** Another product, active or not, has this code. */
  predicate Held(table: Table, code: string, id: ProductId) {
    exists other :: other in table && other != id && table[other].barcode == code
  }

  /** No two products share a barcode. */
  ghost predicate UniqueBarcodes(table: Table) {
    forall p, q :: p in table && q in table && p != q && table[p].barcode != "" ==> table[p].barcode != table[q].barcode
  }

  /** There is nothing to repair in this row, or the repaired code is taken. */
  ghost predicate RowSettled(table: Table, id: ProductId)
    requires id in table
  {
    var r := Repaired(table[id].barcode);
    r.Code? && (r.code == table[id].barcode || Held(table, r.code, id))
  }

  lemma SettledIsANumber(table: Table, id: ProductId)
    requires id in table
    ensures RowSettled(table, id) ==> Repaired(table[id].barcode).Code?
  {
  }

  ghost predicate Settled(table: Table) {
    forall id :: id in table && Selected(table[id]) ==> RowSettled(table, id)
  }

  /** What settled says of a digit-only row: a valid code, or a completion that another product has. */
  lemma SettledDigits(table: Table, id: ProductId)
    requires id in table && AllDigits(table[id].barcode) && |table[id].barcode| in {12, 13}
    ensures var base := table[id].barcode[..12];
            RowSettled(table, id) <==> ValidCode(table[id].barcode) || Held(table, base + [CheckDigit(base)], id)
  {
    var b := table[id].barcode;
    if |b| == 13 {
      ValidIffUnchanged(b);
      if Repaired(b) == Code(b) { assert b == b[..12] + [CheckDigit(b[..12])]; }
    }
  }

  ghost function Changed(before: Table, after: Table): set<ProductId> {
    set id | id in before && id in after && before[id] != after[id]
  }

  lemma NothingChanged(table: Table)
    ensures Changed(table, table) == {}
  {
  }

  lemma OneMoreChanged(before: Table, table: Table, id: ProductId, p: Product)
    requires table.Keys == before.Keys && id in before && table[id] == before[id] != p
    ensures |Changed(before, table[id := p])| == |Changed(before, table)| + 1
  {
    assert Changed(before, table[id := p]) == Changed(before, table) + {id};
  }

  /** One row gets its repaired code, which nobody else has. */
  lemma RowRepaired(table: Table, id: ProductId, code: string)
    requires id in table && Repaired(table[id].barcode) == Code(code) && code != table[id].barcode
             && !Held(table, code, id)
    ensures var r := table[id := table[id].(barcode := code)];
            && RowSettled(r, id)
            && (forall other :: other in table && other != id && RowSettled(table, other) ==> RowSettled(r, other))
            && (UniqueBarcodes(table) ==> UniqueBarcodes(r))
  {
    var r := table[id := table[id].(barcode := code)];
    RepairIsIdempotent(table[id].barcode);
    forall other | other in table && other != id && RowSettled(table, other) ensures RowSettled(r, other) {
      var fixed := Repaired(table[other].barcode).code;
      if fixed != table[other].barcode {
        RepairIsIdempotent(table[other].barcode);
        var holder :| holder in table && holder != other && table[holder].barcode == fixed;
        assert holder != id;
        assert holder in r && r[holder].barcode == fixed;
      }
    }
  }

  class ProductTable {
    var rows: Table

    constructor (rows: Table)
      ensures this.rows == rows
    {
      this.rows := rows;
    }

    /** The conflict query. */
    method HasConflict(code: string, id: ProductId) returns (conflict: bool)
      ensures conflict == Held(rows, code, id)
    {
      conflict := false;
      var todo := rows.Keys;
      while todo != {}
        invariant todo <= rows.Keys
        invariant conflict <==>
                  exists other :: other in rows && other !in todo && other != id && rows[other].barcode == code
      {
        var other := Pick(todo);
        conflict := conflict || (other != id && rows[other].barcode == code);
        todo := todo - {other};
      }
    }

    /** One round of the pass. `barcode` is what the row held when it was fetched. */
    method FixRow(id: ProductId, barcode: string) returns (ok: bool, changed: bool)
      requires id in rows && rows[id].barcode == barcode
      modifies this
      ensures ok <==> Repaired(barcode).Code?
      ensures !changed ==> rows == old(rows)
      ensures changed ==> ok && !old(RowSettled(rows, id))
      ensures changed ==> rows == old(rows)[id := old(rows)[id].(barcode := Repaired(barcode).code)]
      ensures changed ==> Repaired(barcode).code != barcode
      ensures ok ==> RowSettled(rows, id)
      ensures forall other :: other in rows && old(RowSettled(rows, other)) ==> RowSettled(rows, other)
      ensures old(UniqueBarcodes(rows)) ==> UniqueBarcodes(rows)
    {
      changed := false;
      var corrected := FixBarcode(barcode);
      if corrected.NotANumber? {
        return false, false;
      }
      ok := true;
      if corrected.code == barcode {
        return;
      }
      var conflict := HasConflict(corrected.code, id);
      if !conflict {
        RowRepaired(rows, id, corrected.code);
        rows := rows[id := rows[id].(barcode := corrected.code)];
        changed := true;
      }
    }

    /** `fix_all_gs1_barcodes_direct`: a selected row with a character that is no digit makes the whole
        pass fail, and the transaction is rolled back. Otherwise barcodes stay unique, every selected
        row ends settled, other rows are untouched, and a table that is settled already does not change. */
    method FixAll() returns (ok: bool, fixed: nat)
      modifies this
      ensures ok <==> forall id :: id in old(rows) && Selected(old(rows)[id]) ==> Repaired(old(rows)[id].barcode).Code?
      ensures !ok ==> rows == old(rows)
      ensures rows.Keys == old(rows).Keys
      ensures forall id :: id in rows ==> rows[id].active == old(rows)[id].active
      ensures forall id :: id in rows && !Selected(old(rows)[id]) ==> rows[id] == old(rows)[id]
      ensures ok ==> forall id :: id in rows ==>
                rows[id].barcode == old(rows)[id].barcode || rows[id].barcode == Repaired(old(rows)[id].barcode).code
      ensures old(UniqueBarcodes(rows)) ==> UniqueBarcodes(rows)
      ensures ok ==> forall id :: id in rows && Selected(old(rows)[id]) ==> RowSettled(rows, id)
      ensures ok ==> Settled(rows)
      ensures ok ==> fixed == |Changed(old(rows), rows)|
      ensures old(Settled(rows)) ==> ok && rows == old(rows)
    {
      hide Repaired, Held, UniqueBarcodes, Changed, Selected, RowSettled;
      ghost var before := rows;
      NothingChanged(before);
      var fetched := set id | id in rows && Selected(rows[id]);
      var ids := Enumerate(fetched);
      var start := rows;
      ok, fixed := true, 0;
      for i := 0 to |ids|
        invariant ok && rows.Keys == before.Keys && start == before
        invariant forall id :: id in rows && id in ids[..i] ==>
                    RowSettled(rows, id) && Repaired(before[id].barcode).Code?
        invariant forall id :: id in rows && id !in ids[..i] ==> rows[id] == before[id]
        invariant forall id :: id in rows ==> rows[id].active == before[id].active
        invariant forall id :: id in rows && id in ids[..i] ==>
                    rows[id].barcode == before[id].barcode || rows[id].barcode == Repaired(before[id].barcode).code
        invariant UniqueBarcodes(before) ==> UniqueBarcodes(rows)
        invariant Settled(before) ==> rows == before
        invariant fixed == |Changed(before, rows)|
      {
        var id := ids[i];
        assert id in ids && id !in ids[..i];
        assert ids[..i + 1] == ids[..i] + [id];
        ghost var was := rows;
        var changed;
        ok, changed := FixRow(id, start[id].barcode);
        if !ok {
          SettledIsANumber(start, id);
          rows := start;
          return;
        }
        if changed {
          OneMoreChanged(before, was, id, rows[id]);
          fixed := fixed + 1;
        }
      }
      assert ids[..|ids|] == ids;
    }
  }
}
