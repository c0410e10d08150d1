/** The derived amounts of the invoice page: subtotal, VAT (moms) and total.
    Amounts are exact reals; rounding to two decimals happens only when an
    amount is displayed, which is outside this module. */
module Totals {
  import opened Invoice
  import opened LineItems

  /** `l.antal * l.enhedspris`. */
  function LinjeTotal(l: FakturaLinje): (r: real)
    ensures r == 0.0 <==> l.antal == 0.0 || l.enhedspris == 0.0
    ensures l.antal >= 0.0 && l.enhedspris >= 0.0 ==> r >= 0.0
  {
    l.antal * l.enhedspris
  }

  /** `linjer.reduce((sum, l) => sum + l.antal * l.enhedspris, 0)`: a left fold
      from 0. */
  function Subtotal(s: seq<FakturaLinje>): (r: real)
    ensures s == [] ==> r == 0.0
    ensures |s| == 1 ==> r == LinjeTotal(s[0])
  {
    if s == [] then 0.0 else Subtotal(s[..|s| - 1]) + LinjeTotal(s[|s| - 1])
  }

  /** `subtotal * (momssats / 100)`. */
  function Moms(subtotal: real, momssats: real): (r: real)
    ensures momssats == 0.0 ==> r == 0.0
    ensures subtotal == 0.0 ==> r == 0.0
    ensures momssats == 25.0 ==> 4.0 * r == subtotal
  {
    subtotal * (momssats / 100.0)
  }

  /** `subtotal + moms`. */
  function Total(subtotal: real, moms: real): (r: real)
    ensures moms == 0.0 ==> r == subtotal
    ensures moms >= 0.0 ==> r >= subtotal
  {
    subtotal + moms
  }

  /** The subtotal of two lists one after the other is the sum of their
      subtotals. */
  lemma {:induction false} SubtotalAppend(a: seq<FakturaLinje>, b: seq<FakturaLinje>)
    ensures Subtotal(a + b) == Subtotal(a) + Subtotal(b)
    decreases |b|
  {
    if b != [] {
      var b' := b[..|b| - 1];
      assert (a + b)[..|a + b| - 1] == a + b';
      SubtotalAppend(a, b');
    } else {
      assert a + b == a;
    }
  }

  lemma SubtotalSingle(l: FakturaLinje)
    ensures Subtotal([l]) == LinjeTotal(l)
  {
    assert [l][..0] == [];
  }

  lemma SplitAt(s: seq<FakturaLinje>, i: nat)
    requires i < |s|
    ensures s == s[..i] + [s[i]] + s[i + 1..]
  {
    assert s[..i] + [s[i]] == s[..i + 1];
    assert s[..i + 1] + s[i + 1..] == s;
  }

  /** Removing line i takes exactly its line total off the subtotal. */
  lemma SubtotalRemove(s: seq<FakturaLinje>, i: nat)
    requires i < |s|
    ensures Subtotal(s) == Subtotal(s[..i] + s[i + 1..]) + LinjeTotal(s[i])
  {
    var p, q := s[..i], s[i + 1..];
    SplitAt(s, i);
    calc {
      Subtotal(s);
      { SubtotalAppend(p + [s[i]], q); }
      Subtotal(p + [s[i]]) + Subtotal(q);
      { SubtotalAppend(p, [s[i]]); SubtotalSingle(s[i]); }
      Subtotal(p) + Subtotal(q) + LinjeTotal(s[i]);
      { SubtotalAppend(p, q); }
      Subtotal(p + q) + LinjeTotal(s[i]);
    }
  }

  lemma MultisetRemove(s: seq<FakturaLinje>, i: nat)
    requires i < |s|
    ensures multiset(s[..i] + s[i + 1..]) == multiset(s) - multiset{s[i]}
  {
    SplitAt(s, i);
    assert multiset(s) == multiset(s[..i]) + multiset{s[i]} + multiset(s[i + 1..]);
  }

  lemma MultisetDropLast(s: seq<FakturaLinje>)
    requires s != []
    ensures multiset(s[..|s| - 1]) == multiset(s) - multiset{s[|s| - 1]}
  {
    assert s == s[..|s| - 1] + [s[|s| - 1]];
  }

  /** The subtotal does not depend on the order of the lines: lists with the
      same lines (as a multiset) have the same subtotal. */
  lemma {:induction false} SubtotalPermutation(a: seq<FakturaLinje>, b: seq<FakturaLinje>)
    requires multiset(a) == multiset(b)
    ensures Subtotal(a) == Subtotal(b)
    decreases |a|
  {
    if a != [] {
      var x := a[|a| - 1];
      assert x in multiset(b);
      var i :| 0 <= i < |b| && b[i] == x;
      MultisetDropLast(a);
      MultisetRemove(b, i);
      SubtotalPermutation(a[..|a| - 1], b[..i] + b[i + 1..]);
      SubtotalRemove(b, i);
    } else {
      assert |b| == |multiset(b)| == 0;
    }
  }

  /** The subtotal is the sum of all line totals taken from the front, the
      order a reader of the invoice adds them in. */
  function SumFromFront(s: seq<FakturaLinje>): real {
    if s == [] then 0.0 else LinjeTotal(s[0]) + SumFromFront(s[1..])
  }

  lemma {:induction false} SubtotalIsSumFromFront(s: seq<FakturaLinje>)
    ensures Subtotal(s) == SumFromFront(s)
  {
    if s != [] {
      SubtotalIsSumFromFront(s[1..]);
      assert s == [s[0]] + s[1..];
      SubtotalAppend([s[0]], s[1..]);
      SubtotalSingle(s[0]);
    }
  }

  /** No line total is negative, so neither is the subtotal. */
  lemma {:induction false} SubtotalNonNegative(s: seq<FakturaLinje>)
    requires forall i :: 0 <= i < |s| ==> LinjeTotal(s[i]) >= 0.0
    ensures Subtotal(s) >= 0.0
  {
    if s != [] {
      SubtotalNonNegative(s[..|s| - 1]);
    }
  }

  /** The total is the subtotal scaled by (100 + momssats) / 100. */
  lemma TotalScale(subtotal: real, momssats: real)
    ensures Total(subtotal, Moms(subtotal, momssats)) == subtotal * (100.0 + momssats) / 100.0
  {
  }

  /** The gross amount of one line: its total with VAT added. */
  function Brutto(l: FakturaLinje, momssats: real): real {
    LinjeTotal(l) + LinjeTotal(l) * (momssats / 100.0)
  }

  function SumBrutto(s: seq<FakturaLinje>, momssats: real): real {
    if s == [] then 0.0 else SumBrutto(s[..|s| - 1], momssats) + Brutto(s[|s| - 1], momssats)
  }

  /** Because nothing is rounded along the way, the invoice total equals the
      sum of the gross amounts of the lines. */
  lemma {:induction false} TotalIsSumOfBrutto(s: seq<FakturaLinje>, momssats: real)
    ensures Total(Subtotal(s), Moms(Subtotal(s), momssats)) == SumBrutto(s, momssats)
  {
    if s != [] {
      var init := s[..|s| - 1];
      TotalIsSumOfBrutto(init, momssats);
      GrossStep(Subtotal(init), LinjeTotal(s[|s| - 1]), momssats / 100.0);
    }
  }

  lemma GrossStep(a: real, l: real, k: real)
    ensures (a + l) + (a + l) * k == (a + a * k) + (l + l * k)
  {
  }

  /** Adding a blank line leaves the subtotal as it was. */
  lemma SubtotalTilfoejLinje(s: seq<FakturaLinje>)
    ensures Subtotal(TilfoejLinje(s)) == Subtotal(s)
  {
    var r := TilfoejLinje(s);
    assert r[..|r| - 1] == s;
  }

  /** Removing line i of a valid list of more than one line lowers the
      subtotal by that line's total. */
  lemma SubtotalFjernLinje(s: seq<FakturaLinje>, i: nat)
    requires ValidLinjer(s) && |s| > 1 && i < |s|
    ensures Subtotal(FjernLinje(s, s[i].id)) == Subtotal(s) - LinjeTotal(s[i])
  {
    FjernLinjeRemovesOne(s, i);
    SubtotalRemove(s, i);
  }

  /** Editing line i changes the subtotal by the change of that line's total. */
  lemma SubtotalOpdaterLinje(s: seq<FakturaLinje>, i: nat, f: Felt)
    requires UniqueIds(s) && i < |s|
    ensures Subtotal(OpdaterLinje(s, s[i].id, f)) == Subtotal(s) - LinjeTotal(s[i]) + LinjeTotal(Saet(s[i], f))
  {
    var r := OpdaterLinje(s, s[i].id, f);
    OpdaterLinjeUnique(s, i, f);
    assert r[..i] + r[i + 1..] == s[..i] + s[i + 1..];
    SubtotalRemove(r, i);
    SubtotalRemove(s, i);
  }

  /** One line, 2 x 500 at 25 %: subtotal 1000, VAT 250, total 1250. */
  lemma ExampleOneLine()
    ensures Subtotal([FakturaLinje(1, "", 2.0, 500.0)]) == 1000.0
    ensures Moms(1000.0, 25.0) == 250.0
    ensures Total(1000.0, 250.0) == 1250.0
  {
    SubtotalSingle(FakturaLinje(1, "", 2.0, 500.0));
  }

  /** Two lines, 1 x 100 and 3 x 50 at 0 %: subtotal 250, VAT 0, total 250. */
  lemma ExampleTwoLines()
    ensures Subtotal([FakturaLinje(1, "", 1.0, 100.0), FakturaLinje(2, "", 3.0, 50.0)]) == 250.0
    ensures Moms(250.0, 0.0) == 0.0
    ensures Total(250.0, 0.0) == 250.0
  {
    var s := [FakturaLinje(1, "", 1.0, 100.0), FakturaLinje(2, "", 3.0, 50.0)];
    assert s[..1] == [s[0]];
    SubtotalSingle(s[0]);
  }
}
