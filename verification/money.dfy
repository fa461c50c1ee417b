/** The money and tax policy: line totals and cart totals.  The cart entity's
    own recomputation is specified here by its contract (subtotal is the sum of
    the line totals, tax is the rate applied to subtotal less discount, total is
    subtotal less discount plus tax); amounts are exact, like `BigDecimal`, and
    the tax rate is a parameter. */
module Money {
  import opened Domain

  /** Quantity times the unit-price snapshot. */
  function LineTotal(it: Item): real {
    it.qty as real * it.unitPrice
  }

  /** Sum of the line totals. */
  function Subtotal(ls: seq<Item>): real {
    if ls == [] then 0.0 else Subtotal(ls[..|ls| - 1]) + LineTotal(ls[|ls| - 1])
  }

  /** The recomputation of a cart's totals from its lines; the stored discount
      is carried over. */
  function Recompute(ls: seq<Item>, discount: real, rate: real): (t: Totals)
    ensures t.subtotal == Subtotal(ls) && t.discount == discount
    ensures t.tax == (t.subtotal - t.discount) * rate
    ensures t.total == (t.subtotal - t.discount) * (1.0 + rate)
    ensures ls == [] && discount == 0.0 ==> t == ZeroTotals
  {
    var s := Subtotal(ls);
    var tax := (s - discount) * rate;
    Totals(s, discount, tax, s - discount + tax)
  }

  /** The subtotal of two runs of lines is the sum of their subtotals. */
  lemma {:induction false} SubtotalConcat(a: seq<Item>, b: seq<Item>)
    ensures Subtotal(a + b) == Subtotal(a) + Subtotal(b)
  {
    if b == [] {
      assert a + b == a;
    } else {
      var b' := b[..|b| - 1];
      assert (a + b)[..|a + b| - 1] == a + b';
      SubtotalConcat(a, b');
    }
  }

  /** Dropping a line lowers the subtotal by exactly that line's total: the
      totals are those of a cart that never had the line. */
  lemma {:induction false} SubtotalRemoveAt(ls: seq<Item>, k: nat)
    requires k < |ls|
    ensures Subtotal(RemoveAt(ls, k)) == Subtotal(ls) - LineTotal(ls[k])
  {
    var pre, post := ls[..k], ls[k + 1..];
    assert ls == (pre + [ls[k]]) + post;
    SubtotalConcat(pre + [ls[k]], post);
    SubtotalSnoc(pre, ls[k]);
    SubtotalConcat(pre, post);
  }

  lemma SubtotalSnoc(ls: seq<Item>, it: Item)
    ensures Subtotal(ls + [it]) == Subtotal(ls) + LineTotal(it)
  {
    assert (ls + [it])[..|ls|] == ls;
  }

  /** Replacing one line changes the subtotal by the difference of the two
      line totals, whatever the other lines are. */
  lemma {:induction false} SubtotalReplaceAt(ls: seq<Item>, k: nat, it: Item)
    requires k < |ls|
    ensures Subtotal(ls[k := it]) == Subtotal(ls) - LineTotal(ls[k]) + LineTotal(it)
  {
    var pre, post := ls[..k], ls[k + 1..];
    assert ls == (pre + [ls[k]]) + post;
    assert ls[k := it] == (pre + [it]) + post;
    SubtotalConcat(pre + [ls[k]], post);
    SubtotalSnoc(pre, ls[k]);
    SubtotalConcat(pre + [it], post);
    SubtotalSnoc(pre, it);
  }


  /** Lines with positive quantities and non-negative prices never give a
      negative subtotal. */
  lemma {:induction false} SubtotalNonNegative(ls: seq<Item>)
    requires forall i :: 0 <= i < |ls| ==> ls[i].qty > 0 && ls[i].unitPrice >= 0.0
    ensures Subtotal(ls) >= 0.0
  {
    if ls != [] {
      SubtotalNonNegative(ls[..|ls| - 1]);
      assert LineTotal(ls[|ls| - 1]) >= 0.0;
    }
  }
}
