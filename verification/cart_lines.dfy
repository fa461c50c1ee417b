/** The cart aggregate on values: a cart's lines in list order, and what
    adding a book and setting a line's quantity do to them. */
module CartLines {
  import opened Domain
  import opened Money

  /** Position of the line for `book`, if any (the look-up of a cart's line
      by cart and book). */
  function LineFor(ls: seq<Item>, book: BookId): (r: Option<nat>)
    ensures r.Some? ==> r.value < |ls| && ls[r.value].book == book
    ensures r.None? <==> forall i :: 0 <= i < |ls| ==> ls[i].book != book
  {
    if ls == [] then None
    else if ls[|ls| - 1].book == book then Some(|ls| - 1)
    else LineFor(ls[..|ls| - 1], book)
  }

  /** Copies of `book` the lines ask for, summed over all its lines; never
      negative when every line has a positive quantity. */
  function QtyFor(ls: seq<Item>, book: BookId): (n: int) {
    if ls == [] then 0
    else QtyFor(ls[..|ls| - 1], book) + (if ls[|ls| - 1].book == book then ls[|ls| - 1].qty else 0)
  }

  /** Adding `qty` copies of `book` at the book's current `price`: an existing
      line for the book gets the quantity added and is re-priced; otherwise a
      line is appended. */
  function AddLine(ls: seq<Item>, c: CartId, book: BookId, qty: int, price: real): seq<Item> {
    match LineFor(ls, book)
    case Some(k) => ls[k := ls[k].(qty := ls[k].qty + qty, unitPrice := price)]
    case None => ls + [Item(c, book, qty, price)]
  }

  /** Setting the quantity of the line at position `k`: a quantity of zero or
      less removes the line, any other replaces the quantity and keeps the
      unit price. */
  function ApplyQty(ls: seq<Item>, k: nat, qty: int): (r: seq<Item>)
    requires k < |ls|
    ensures |r| == (if qty <= 0 then |ls| - 1 else |ls|)
    ensures QtyFor(r, ls[k].book) == QtyFor(ls, ls[k].book) - ls[k].qty + (if qty <= 0 then 0 else qty)
  {
    if qty <= 0 then
      QtyForRemove(ls, k, ls[k].book);
      RemoveAt(ls, k)
    else
      QtyForReplace(ls, k, ls[k].(qty := qty), ls[k].book);
      ls[k := ls[k].(qty := qty)]
  }

  lemma QtyForSnoc(ls: seq<Item>, it: Item, book: BookId)
    ensures QtyFor(ls + [it], book) == QtyFor(ls, book) + (if it.book == book then it.qty else 0)
  {
    assert (ls + [it])[..|ls|] == ls;
  }

  lemma {:induction false} QtyForConcat(a: seq<Item>, b: seq<Item>, book: BookId)
    ensures QtyFor(a + b, book) == QtyFor(a, book) + QtyFor(b, book)
  {
    if b == [] {
      assert a + b == a;
    } else {
      var b' := b[..|b| - 1];
      assert a + b == (a + b') + [b[|b| - 1]];
      QtyForSnoc(a + b', b[|b| - 1], book);
      QtyForConcat(a, b', book);
    }
  }

  /** Lines for other books contribute nothing to a book's quantity. */
  lemma {:induction false} QtyForAbsent(ls: seq<Item>, book: BookId)
    requires forall i :: 0 <= i < |ls| ==> ls[i].book != book
    ensures QtyFor(ls, book) == 0
  {
    if ls != [] {
      QtyForAbsent(ls[..|ls| - 1], book);
    }
  }

  /** With one line per book, a book's quantity is that of its line. */
  lemma QtyForDistinct(ls: seq<Item>, k: nat)
    requires DistinctBooks(ls) && k < |ls|
    ensures QtyFor(ls, ls[k].book) == ls[k].qty
  {
    var pre, post := ls[..k], ls[k + 1..];
    assert ls == (pre + [ls[k]]) + post;
    QtyForConcat(pre + [ls[k]], post, ls[k].book);
    QtyForSnoc(pre, ls[k], ls[k].book);
    QtyForAbsent(pre, ls[k].book);
    QtyForAbsent(post, ls[k].book);
  }

  /** Replacing the line at position `k` moves each book's quantity by the
      difference between the two lines. */
  lemma QtyForReplace(ls: seq<Item>, k: nat, it: Item, book: BookId)
    requires k < |ls|
    ensures QtyFor(ls[k := it], book)
         == QtyFor(ls, book) - (if ls[k].book == book then ls[k].qty else 0) + (if it.book == book then it.qty else 0)
  {
    var pre, post := ls[..k], ls[k + 1..];
    assert ls == (pre + [ls[k]]) + post;
    assert ls[k := it] == (pre + [it]) + post;
    QtyForConcat(pre + [ls[k]], post, book);
    QtyForSnoc(pre, ls[k], book);
    QtyForConcat(pre + [it], post, book);
    QtyForSnoc(pre, it, book);
  }

  /** Removing the line at position `k` takes its quantity off its book. */
  lemma QtyForRemove(ls: seq<Item>, k: nat, book: BookId)
    requires k < |ls|
    ensures QtyFor(RemoveAt(ls, k), book) == QtyFor(ls, book) - (if ls[k].book == book then ls[k].qty else 0)
  {
    var pre, post := ls[..k], ls[k + 1..];
    assert ls == (pre + [ls[k]]) + post;
    QtyForConcat(pre + [ls[k]], post, book);
    QtyForSnoc(pre, ls[k], book);
    QtyForConcat(pre, post, book);
  }

  /** Adding a book keeps one line per book: the book's line carries the old
      quantity plus `qty` at the current price, every other line is untouched,
      and a line is appended only when the book had none. */
  lemma AddLineMerges(ls: seq<Item>, c: CartId, book: BookId, qty: int, price: real)
    requires DistinctBooks(ls)
    ensures var r := AddLine(ls, c, book, qty, price);
      && DistinctBooks(r)
      && |r| == (if LineFor(ls, book).None? then |ls| + 1 else |ls|)
      && LineFor(r, book).Some?
      && (forall i :: 0 <= i < |r| && r[i].book == book ==>
            r[i].qty == QtyFor(ls, book) + qty && r[i].unitPrice == price)
      && (forall i :: 0 <= i < |r| && r[i].book != book ==> i < |ls| && r[i] == ls[i])
      && (forall b :: QtyFor(r, b) == QtyFor(ls, b) + (if b == book then qty else 0))
  {
    var r := AddLine(ls, c, book, qty, price);
    match LineFor(ls, book)
    case Some(k) =>
      QtyForDistinct(ls, k);
      forall b ensures QtyFor(r, b) == QtyFor(ls, b) + (if b == book then qty else 0) {
        QtyForReplace(ls, k, r[k], b);
      }
      assert LineFor(r, book).Some? by { assert r[k].book == book; }
    case None =>
      QtyForAbsent(ls, book);
      forall b ensures QtyFor(r, b) == QtyFor(ls, b) + (if b == book then qty else 0) {
        QtyForSnoc(ls, Item(c, book, qty, price), b);
      }
      assert LineFor(r, book).Some? by { assert r[|ls|].book == book; }
  }

  /** Adding the same book twice to a cart without it gives one line with the
      two quantities summed, priced at the second add. */
  lemma AddTwice(ls: seq<Item>, c: CartId, book: BookId, q1: int, p1: real, q2: int, p2: real)
    requires DistinctBooks(ls) && LineFor(ls, book).None?
    ensures AddLine(AddLine(ls, c, book, q1, p1), c, book, q2, p2) == ls + [Item(c, book, q1 + q2, p2)]
  {
    var once := AddLine(ls, c, book, q1, p1);
    assert once == ls + [Item(c, book, q1, p1)];
    AddLineMerges(ls, c, book, q1, p1);
    assert LineFor(once, book) == Some(|ls|);
  }

  /** Setting a quantity keeps one line per book and gives the line's book
      exactly that quantity (none once removed), leaving every other book's
      quantity as it was; a kept line keeps its unit price. */
  lemma ApplyQtyEffect(ls: seq<Item>, k: nat, qty: int)
    requires DistinctBooks(ls) && k < |ls|
    ensures var r := ApplyQty(ls, k, qty);
      && DistinctBooks(r)
      && (forall b :: QtyFor(r, b) == if b == ls[k].book then (if qty <= 0 then 0 else qty) else QtyFor(ls, b))
      && (qty > 0 ==> |r| == |ls| && r[k].unitPrice == ls[k].unitPrice && r[k].qty == qty)
      && (qty <= 0 ==> |r| == |ls| - 1)
  {
    var r := ApplyQty(ls, k, qty);
    QtyForDistinct(ls, k);
    if qty <= 0 {
      forall b ensures QtyFor(r, b) == if b == ls[k].book then 0 else QtyFor(ls, b) {
        QtyForRemove(ls, k, b);
      }
      forall i, j | 0 <= i < j < |r| ensures r[i].book != r[j].book {
        var i', j' := if i < k then i else i + 1, if j < k then j else j + 1;
        assert r[i] == ls[i'] && r[j] == ls[j'];
      }
    } else {
      forall b ensures QtyFor(r, b) == if b == ls[k].book then qty else QtyFor(ls, b) {
        QtyForReplace(ls, k, r[k], b);
      }
    }
  }

  /** Setting a quantity moves the subtotal by the change in that line's
      total: removing the line takes its whole total off. */
  lemma {:induction false} ApplyQtySubtotal(ls: seq<Item>, k: nat, qty: int)
    requires k < |ls|
    ensures Subtotal(ApplyQty(ls, k, qty))
         == Subtotal(ls) - LineTotal(ls[k]) + (if qty <= 0 then 0.0 else qty as real * ls[k].unitPrice)
  {
    if qty <= 0 {
      assert ApplyQty(ls, k, qty) == RemoveAt(ls, k);
      SubtotalRemoveAt(ls, k);
    } else {
      var it := ls[k].(qty := qty);
      assert ApplyQty(ls, k, qty) == ls[k := it];
      assert LineTotal(it) == qty as real * ls[k].unitPrice;
      SubtotalReplaceAt(ls, k, it);
    }
  }

  /** Adding a book moves the subtotal by the book's old line (if any) being
      replaced with one for the merged quantity at the current price. */
  lemma AddLineSubtotal(ls: seq<Item>, c: CartId, book: BookId, qty: int, price: real)
    requires DistinctBooks(ls)
    ensures Subtotal(AddLine(ls, c, book, qty, price))
         == Subtotal(ls)
            - (if LineFor(ls, book).Some? then LineTotal(ls[LineFor(ls, book).value]) else 0.0)
            + (QtyFor(ls, book) + qty) as real * price
  {
    match LineFor(ls, book)
    case Some(k) =>
      var it := ls[k].(qty := ls[k].qty + qty, unitPrice := price);
      assert AddLine(ls, c, book, qty, price) == ls[k := it];
      SubtotalReplaceAt(ls, k, it);
      QtyForDistinct(ls, k);
      assert LineTotal(it) == (QtyFor(ls, book) + qty) as real * price;
    case None =>
      SubtotalSnoc(ls, Item(c, book, qty, price));
      QtyForAbsent(ls, book);
  }
}
