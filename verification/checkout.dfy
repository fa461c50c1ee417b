/** Guest checkout: turns a guest's cart into an invoice in three passes over
    its lines (check every line's stock, take the copies out of stock, write
    one invoice detail per line) and then empties the cart. */
module Checkout {
  import opened Domain
  import opened Money
  import opened CartLines
  import opened InvoiceNumber
  import opened Store

  /** Every line's book is in the catalogue. */
  ghost predicate Catalogued(books: map<BookId, Book>, ls: seq<Item>) {
    forall i :: 0 <= i < |ls| ==> ls[i].book in books
  }

  /** Position of the first line whose book has fewer copies than the line's
      quantity, if any. */
  function FirstShortage(books: map<BookId, Book>, ls: seq<Item>): (r: Option<nat>)
    requires Catalogued(books, ls)
    ensures r.Some? ==> r.value < |ls| && books[ls[r.value].book].copies < ls[r.value].qty
    ensures r.Some? ==> forall j :: 0 <= j < r.value ==> books[ls[j].book].copies >= ls[j].qty
    ensures r.None? <==> forall j :: 0 <= j < |ls| ==> books[ls[j].book].copies >= ls[j].qty
  {
    if ls == [] then None
    else if books[ls[0].book].copies < ls[0].qty then Some(0)
    else match FirstShortage(books, ls[1..])
      case None => None
      case Some(k) => Some(k + 1)
  }

  /** The catalogue after each line's quantity is taken out of its book's
      copies, line by line. */
  function Decrement(books: map<BookId, Book>, ls: seq<Item>): (r: map<BookId, Book>)
    requires Catalogued(books, ls)
    ensures r.Keys == books.Keys
  {
    if ls == [] then books
    else
      var prev := Decrement(books, ls[..|ls| - 1]);
      var b := ls[|ls| - 1].book;
      prev[b := prev[b].(copies := prev[b].copies - ls[|ls| - 1].qty)]
  }

  /** Each book loses exactly the total quantity the lines hold for it;
      titles, prices and books not in the lines are untouched. */
  lemma {:induction false} DecrementEffect(books: map<BookId, Book>, ls: seq<Item>)
    requires Catalogued(books, ls)
    ensures forall b :: b in books ==>
      Decrement(books, ls)[b] == books[b].(copies := books[b].copies - QtyFor(ls, b))
  {
    if ls != [] {
      var init := ls[..|ls| - 1];
      DecrementEffect(books, init);
      forall b | b in books
        ensures Decrement(books, ls)[b] == books[b].(copies := books[b].copies - QtyFor(ls, b))
      {
        QtyForSnoc(init, ls[|ls| - 1], b);
        assert ls == init + [ls[|ls| - 1]];
      }
    }
  }

  /** With at most one line per book and enough copies for every line, no
      count goes negative; books the lines do not mention keep their count. */
  lemma StockAfterCheckout(books: map<BookId, Book>, ls: seq<Item>)
    requires Catalogued(books, ls) && DistinctBooks(ls)
    requires FirstShortage(books, ls).None?
    ensures forall i :: 0 <= i < |ls| ==>
      Decrement(books, ls)[ls[i].book].copies == books[ls[i].book].copies - ls[i].qty
    ensures forall b :: b in books && (forall i :: 0 <= i < |ls| ==> ls[i].book != b) ==>
      Decrement(books, ls)[b] == books[b]
    ensures forall b :: b in books && books[b].copies >= 0 ==> Decrement(books, ls)[b].copies >= 0
  {
    DecrementEffect(books, ls);
    forall i | 0 <= i < |ls| ensures QtyFor(ls, ls[i].book) == ls[i].qty {
      QtyForDistinct(ls, i);
    }
    forall b | b in books && (forall i :: 0 <= i < |ls| ==> ls[i].book != b)
      ensures QtyFor(ls, b) == 0
    {
      QtyForAbsent(ls, b);
    }
    forall b | b in books && books[b].copies >= 0 ensures QtyFor(ls, b) <= books[b].copies {
      if i :| 0 <= i < |ls| && ls[i].book == b {
        QtyForDistinct(ls, i);
      } else {
        QtyForAbsent(ls, b);
      }
    }
  }

  /** The invoice detail written for a cart line. */
  function Detail(invoice: nat, it: Item): (d: InvoiceLine)
    ensures d.qty as real * d.unitPrice == LineTotal(it)
  {
    InvoiceLine(invoice, it.book, it.qty, it.unitPrice)
  }

  /** The details of invoice `invoice`: one per cart line, in line order. */
  function Details(invoice: nat, ls: seq<Item>): (ds: seq<InvoiceLine>)
    ensures |ds| == |ls|
    ensures forall i :: 0 <= i < |ls| ==> ds[i] == Detail(invoice, ls[i])
  {
    if ls == [] then [] else Details(invoice, ls[..|ls| - 1]) + [Detail(invoice, ls[|ls| - 1])]
  }

  class GuestCheckoutService {
    const db: Db
    /** The tax rate (0.15 in the deployed service). */
    const rate: real

    constructor (db: Db, rate: real)
      ensures this.db == db && this.rate == rate
    {
      this.db := db;
      this.rate := rate;
    }

    /** Checkout of the cart saved for `token` at time `now`. */
    method CheckoutByToken(token: string, now: DateTime) returns (r: Result<Invoice>)
      requires db.Valid() && ValidDateTime(now)
      modifies db
      ensures db.Valid()
      ensures FindByToken(old(db.carts), token).None? ==> r == Failure(CartNotFound) && unchanged(db)
      ensures FindByToken(old(db.carts), token).Some? ==>
        var c := FindByToken(old(db.carts), token).value;
        var ls := old(db.LinesOf(c));
        && (ls == [] ==> r == Failure(EmptyCart) && unchanged(db))
        && (ls != [] && FirstShortage(old(db.books), ls).Some? ==>
              var k := FirstShortage(old(db.books), ls).value;
              r == Failure(InsufficientStock(old(db.books[ls[k].book].title))) && unchanged(db))
        && (ls != [] && FirstShortage(old(db.books), ls).None? ==>
              var inv := Invoice(Number(now), now, Recompute(ls, old(db.carts[c].totals.discount), rate));
              && r == Success(inv)
              && db.books == Decrement(old(db.books), ls)
              && db.invoices == old(db.invoices) + [inv]
              && db.invoiceLines == old(db.invoiceLines) + Details(|old(db.invoices)|, ls)
              && db.carts == old(db.carts)[c := old(db.carts[c]).(lines := [])]
              && db.items == old(db.items) - (set l | l in old(db.carts[c].lines))
              && (forall l :: l in db.items <==> l in old(db.items) && old(db.items[l]).cart != c)
              && db.nextLine == old(db.nextLine) && db.customers == old(db.customers))
    {
      var found := FindByToken(db.carts, token);
      if found.None? {
        return Failure(CartNotFound);
      }
      var c := found.value;
      var ls := db.LinesOf(c);
      if ls == [] {
        return Failure(EmptyCart);
      }
      var shortage := FindShortage(ls);
      if shortage.Some? {
        return Failure(InsufficientStock(db.books[ls[shortage.value].book].title));
      }
      var inv := Settle(c, now);
      r := Success(inv);
    }

    /** The part of checkout after every line passed the stock check. */
    method Settle(c: CartId, now: DateTime) returns (inv: Invoice)
      requires db.Valid() && ValidDateTime(now) && c < |db.carts|
      requires FirstShortage(db.books, db.LinesOf(c)).None?
      modifies db
      ensures db.Valid()
      ensures var ls := old(db.LinesOf(c));
        && inv == Invoice(Number(now), now, Recompute(ls, old(db.carts[c].totals.discount), rate))
        && db.books == Decrement(old(db.books), ls)
        && db.invoices == old(db.invoices) + [inv]
        && db.invoiceLines == old(db.invoiceLines) + Details(|old(db.invoices)|, ls)
        && db.carts == old(db.carts)[c := old(db.carts[c]).(lines := [])]
        && db.items == old(db.items) - (set l | l in old(db.carts[c].lines))
        && (forall l :: l in db.items <==> l in old(db.items) && old(db.items[l]).cart != c)
        && db.nextLine == old(db.nextLine) && db.customers == old(db.customers)
    {
      var ls := db.LinesOf(c);
      var discount := db.carts[c].totals.discount;
      TakeStock(ls);
      inv := Invoice(Number(now), now, Recompute(ls, discount, rate));
      var n := db.SaveInvoice(inv);
      WriteDetails(n, ls);
      db.ClearLines(c);
    }

    /** Pass 1: every line's stock is checked, in order, before anything
        changes; the first short line is reported. */
    method FindShortage(ls: seq<Item>) returns (shortage: Option<nat>)
      requires Catalogued(db.books, ls)
      ensures shortage == FirstShortage(db.books, ls)
    {
      var i := 0;
      while i < |ls|
        invariant 0 <= i <= |ls|
        invariant forall j :: 0 <= j < i ==> db.books[ls[j].book].copies >= ls[j].qty
      {
        if db.books[ls[i].book].copies < ls[i].qty {
          return Some(i);
        }
        i := i + 1;
      }
      return None;
    }

    /** Pass 2: each line's quantity is taken out of its book's copies. */
    method TakeStock(ls: seq<Item>)
      requires db.Valid() && Catalogued(db.books, ls) && DistinctBooks(ls)
      requires FirstShortage(db.books, ls).None?
      modifies db
      ensures db.Valid()
      ensures db.books == Decrement(old(db.books), ls)
      ensures db.carts == old(db.carts) && db.items == old(db.items) && db.nextLine == old(db.nextLine)
      ensures db.customers == old(db.customers)
      ensures db.invoices == old(db.invoices) && db.invoiceLines == old(db.invoiceLines)
    {
      ghost var books0 := db.books;
      var i := 0;
      while i < |ls|
        invariant 0 <= i <= |ls|
        invariant db.Valid()
        invariant db.books == Decrement(books0, ls[..i])
        invariant db.carts == old(db.carts) && db.items == old(db.items) && db.nextLine == old(db.nextLine)
        invariant db.customers == old(db.customers)
        invariant db.invoices == old(db.invoices) && db.invoiceLines == old(db.invoiceLines)
      {
        var b := ls[i].book;
        ghost var done := ls[..i];
        assert ls[..i + 1][..i] == done;
        assert forall j :: 0 <= j < i ==> done[j].book != b;
        DecrementEffect(books0, done);
        QtyForAbsent(done, b);
        db.SetCopies(b, db.books[b].copies - ls[i].qty);
        i := i + 1;
      }
      assert ls[..|ls|] == ls;
    }

    /** Pass 3: one detail of invoice `n` per cart line, in order. */
    method WriteDetails(n: nat, ls: seq<Item>)
      requires db.Valid()
      modifies db
      ensures db.Valid()
      ensures db.invoiceLines == old(db.invoiceLines) + Details(n, ls)
      ensures db.carts == old(db.carts) && db.items == old(db.items) && db.nextLine == old(db.nextLine)
      ensures db.books == old(db.books) && db.customers == old(db.customers) && db.invoices == old(db.invoices)
    {
      var i := 0;
      while i < |ls|
        invariant 0 <= i <= |ls|
        invariant db.Valid()
        invariant db.invoiceLines == old(db.invoiceLines) + Details(n, ls[..i])
        invariant db.carts == old(db.carts) && db.items == old(db.items) && db.nextLine == old(db.nextLine)
        invariant db.books == old(db.books) && db.customers == old(db.customers) && db.invoices == old(db.invoices)
      {
        assert ls[..i + 1][..i] == ls[..i];
        db.SaveInvoiceLine(Detail(n, ls[i]));
        i := i + 1;
      }
      assert ls[..|ls|] == ls;
    }
  }
}
