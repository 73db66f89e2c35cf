/** The derived money fields of an invoice (components/InvoiceForm.tsx, the
    subtotal / discount / taxable / tax / total computation). Money and percentages
    are exact reals; the source computes with unrounded binary floating point. */
module Totals {
  import opened LineItems

  /** `it.qty * it.price` */
  function LineAmount(it: Item): real
  {
    it.qty as real * it.price
  }

  /** `items.reduce((s, it) => s + it.qty * it.price, 0)`, adding left to right. */
  function Subtotal(items: seq<Item>): real
  {
    if items == [] then 0.0
    else Subtotal(items[..|items| - 1]) + LineAmount(items[|items| - 1])
  }

  datatype Amounts = Amounts(subtotal: real, discountValue: real, taxable: real,
                             taxValue: real, total: real)

  /** Subtotal, then the discount on it, then the taxable base, then the tax on that
      base, then the total. The total is the subtotal scaled by both percentages. */
  function ComputeTotals(items: seq<Item>, discountPercent: real, taxPercent: real): (t: Amounts)
    ensures t.total == t.subtotal * (100.0 - discountPercent) * (100.0 + taxPercent) / 10000.0
  {
    var subtotal := Subtotal(items);
    var discountValue := (subtotal * discountPercent) / 100.0;
    var taxable := subtotal - discountValue;
    var taxValue := (taxable * taxPercent) / 100.0;
    Amounts(subtotal, discountValue, taxable, taxValue, taxable + taxValue)
  }

  predicate NonNegativeLines(items: seq<Item>)
  {
    forall i :: 0 <= i < |items| ==> items[i].qty >= 0 && items[i].price >= 0.0
  }

  /** The subtotal of two lists one after the other is the sum of their subtotals. */
  lemma {:induction false} SubtotalAppend(a: seq<Item>, b: seq<Item>)
    ensures Subtotal(a + b) == Subtotal(a) + Subtotal(b)
    decreases |b|
  {
    if b != [] {
      var ab := a + b;
      assert ab[..|ab| - 1] == a + b[..|b| - 1];
      assert ab[|ab| - 1] == b[|b| - 1];
      SubtotalAppend(a, b[..|b| - 1]);
    } else {
      assert a + b == a;
    }
  }

  /** Taking one line out of a list takes its amount off the subtotal. */
  lemma SubtotalSplit(left: seq<Item>, x: Item, right: seq<Item>)
    ensures Subtotal(left + [x] + right) == Subtotal(left + right) + LineAmount(x)
  {
    SubtotalAppend(left + [x], right);
    SubtotalAppend(left, [x]);
    SubtotalAppend(left, right);
    assert Subtotal([x]) == LineAmount(x) by {
      assert [x][..0] == [];
    }
  }

  /** A list is its element i between the parts before and after it. */
  lemma SplitAt(s: seq<Item>, i: int)
    requires 0 <= i < |s|
    ensures s == s[..i] + [s[i]] + s[i + 1..]
    ensures multiset(s[..i] + s[i + 1..]) == multiset(s) - multiset{s[i]}
  {
    assert s == s[..i] + [s[i]] + s[i + 1..];
  }

  /** The subtotal does not depend on the order of the lines. */
  lemma {:induction false} SubtotalPermutation(a: seq<Item>, b: seq<Item>)
    requires multiset(a) == multiset(b)
    ensures Subtotal(a) == Subtotal(b)
    decreases |a|
  {
    if a == [] {
      assert |b| == |multiset(b)| == 0;
    } else {
      var i := |a| - 1;
      var x := a[i];
      SplitAt(a, i);
      assert x in multiset(b);
      var j :| 0 <= j < |b| && b[j] == x;
      SplitAt(b, j);
      SubtotalPermutation(a[..i] + a[i + 1..], b[..j] + b[j + 1..]);
      SubtotalSplit(a[..i], x, a[i + 1..]);
      SubtotalSplit(b[..j], x, b[j + 1..]);
    }
  }

  /** With no negative quantity or price the subtotal is not negative. */
  lemma {:induction false} SubtotalNonNegative(items: seq<Item>)
    requires NonNegativeLines(items)
    ensures Subtotal(items) >= 0.0
    decreases |items|
  {
    if items != [] {
      var last := items[|items| - 1];
      SubtotalNonNegative(items[..|items| - 1]);
      assert last.qty as real >= 0.0 && last.price >= 0.0;
      assert LineAmount(last) >= 0.0;
    }
  }

  /** Tax is charged on the discounted base: the tax is the subtotal scaled by the
      undiscounted share and the tax rate, so a real discount on a positive subtotal
      with a positive rate gives strictly less tax than taxing the whole subtotal. */
  lemma TaxAfterDiscount(items: seq<Item>, discountPercent: real, taxPercent: real)
    ensures var t := ComputeTotals(items, discountPercent, taxPercent);
            t.taxValue == t.subtotal * (100.0 - discountPercent) * taxPercent / 10000.0
            && (t.subtotal > 0.0 && 0.0 < discountPercent <= 100.0 && taxPercent > 0.0
                ==> t.taxValue < t.subtotal * taxPercent / 100.0)
  {
    TaxOnDiscountedBase(Subtotal(items), discountPercent, taxPercent);
  }

  /** The arithmetic behind TaxAfterDiscount, on plain numbers. */
  lemma TaxOnDiscountedBase(s: real, d: real, tp: real)
    ensures ((s - (s * d) / 100.0) * tp) / 100.0 == s * (100.0 - d) * tp / 10000.0
    ensures s > 0.0 && 0.0 < d && tp > 0.0 ==> s * (100.0 - d) * tp / 10000.0 < s * tp / 100.0
  {
    assert (s - (s * d) / 100.0) == s * (100.0 - d) / 100.0;
    if s > 0.0 && 0.0 < d && tp > 0.0 {
      var p := s * tp;
      assert p > 0.0;
      assert p * d > 0.0;
      assert s * (100.0 - d) * tp == p * 100.0 - p * d;
    }
  }

  /** With non-negative lines and a discount between 0 and 100 percent, the taxable
      base lies between 0 and the subtotal whatever the tax rate, and a non-negative
      tax rate keeps the total at or above the taxable base. */
  lemma TaxableBounds(items: seq<Item>, discountPercent: real, taxPercent: real)
    requires NonNegativeLines(items)
    requires 0.0 <= discountPercent <= 100.0
    ensures var t := ComputeTotals(items, discountPercent, taxPercent);
            0.0 <= t.subtotal && 0.0 <= t.taxable <= t.subtotal
            && (taxPercent >= 0.0 ==> t.taxable <= t.total)
  {
    SubtotalNonNegative(items);
    ScaledBounds(Subtotal(items), discountPercent, taxPercent);
  }

  /** The arithmetic behind TaxableBounds, on plain numbers. */
  lemma ScaledBounds(s: real, d: real, tp: real)
    requires 0.0 <= s && 0.0 <= d <= 100.0
    ensures var taxable := s - (s * d) / 100.0;
            0.0 <= taxable <= s && (tp >= 0.0 ==> taxable <= taxable + (taxable * tp) / 100.0)
  {
    assert 0.0 <= s * d <= s * 100.0;
    var taxable := s - (s * d) / 100.0;
    if tp >= 0.0 {
      assert 0.0 <= taxable * tp;
    }
  }

  /** Adding the blank line leaves the subtotal as it was. */
  lemma AddItemSubtotal(items: seq<Item>)
    ensures Subtotal(AddItem(items)) == Subtotal(items)
  {
    assert AddItem(items)[..|items|] == items;
  }

  /** Removing a line takes exactly its amount off the subtotal. */
  lemma RemoveItemSubtotal(items: seq<Item>, index: int)
    requires 0 <= index < |items|
    ensures Subtotal(RemoveItem(items, index)) == Subtotal(items) - LineAmount(items[index])
  {
    SplitAt(items, index);
    SubtotalSplit(items[..index], items[index], items[index + 1..]);
    RemoveItemSplices(items, index);
  }

  /** Two lines of 2 x 50000 and 1 x 30000 with 10% discount and 11% tax. */
  lemma WorkedExample()
    ensures ComputeTotals([Item("A", 2, "pcs", 50000.0), Item("B", 1, "pcs", 30000.0)], 10.0, 11.0)
            == Amounts(130000.0, 13000.0, 117000.0, 12870.0, 129870.0)
  {
    var items := [Item("A", 2, "pcs", 50000.0), Item("B", 1, "pcs", 30000.0)];
    assert items[..1][..0] == [];
    assert Subtotal(items[..1]) == 100000.0;
  }
}
