/** The persistent state both services work on, as the repositories expose it:
    carts, cart lines, books, customers, invoices and invoice details.  Saving
    and deleting entities are field updates here; each primitive update keeps
    the state's invariant, proved once for the values by a lemma below. */
module Store {
  import opened Domain

  /** Every line listed by cart `c` is stored and owned by `c`, and no two of
      them are for the same book. */
  ghost predicate CartOk(carts: seq<Cart>, items: map<LineId, Item>, c: CartId)
    requires c < |carts|
  {
    && (forall i :: 0 <= i < |carts[c].lines| ==>
          carts[c].lines[i] in items && items[carts[c].lines[i]].cart == c)
    && (forall i, j :: 0 <= i < j < |carts[c].lines| ==>
          items[carts[c].lines[i]].book != items[carts[c].lines[j]].book)
  }

  /** A stored line has an already issued id and a positive quantity, refers to
      a known book, and is listed by the cart that owns it. */
  ghost predicate ItemOk(carts: seq<Cart>, items: map<LineId, Item>, nextLine: LineId, books: map<BookId, Book>, l: LineId)
    requires l in items
  {
    && l < nextLine
    && items[l].qty > 0
    && items[l].book in books
    && items[l].cart < |carts|
    && l in carts[items[l].cart].lines
  }

  /** The invariant of the persistent state. */
  ghost predicate Consistent(carts: seq<Cart>, items: map<LineId, Item>, nextLine: LineId, books: map<BookId, Book>)
  {
    && (forall c :: 0 <= c < |carts| ==> CartOk(carts, items, c))
    && (forall l :: l in items ==> ItemOk(carts, items, nextLine, books, l))
    && (forall b :: b in books ==> books[b].copies >= 0)
  }

  /** Saving an empty cart keeps the invariant. */
  lemma AddCartKeeps(carts: seq<Cart>, items: map<LineId, Item>, nextLine: LineId, books: map<BookId, Book>, cart: Cart)
    requires Consistent(carts, items, nextLine, books) && cart.lines == []
    ensures Consistent(carts + [cart], items, nextLine, books)
  {
    var carts' := carts + [cart];
    forall c | 0 <= c < |carts'| ensures CartOk(carts', items, c) {
      if c < |carts| { assert CartOk(carts, items, c); }
    }
    forall l | l in items ensures ItemOk(carts', items, nextLine, books, l) {
      assert ItemOk(carts, items, nextLine, books, l);
    }
  }

  /** Saving a new line, with the next id, for a book cart `c` has no line for
      keeps the invariant. */
  lemma InsertLineKeeps(carts: seq<Cart>, items: map<LineId, Item>, nextLine: LineId, books: map<BookId, Book>,
                        c: CartId, it: Item)
    requires Consistent(carts, items, nextLine, books)
    requires c < |carts| && it.cart == c && it.qty > 0 && it.book in books
    requires forall i :: 0 <= i < |carts[c].lines| && carts[c].lines[i] in items ==> items[carts[c].lines[i]].book != it.book
    ensures nextLine !in items
    ensures Consistent(carts[c := carts[c].(lines := carts[c].lines + [nextLine])], items[nextLine := it], nextLine + 1, books)
  {
    var l := nextLine;
    assert l !in items by {
      assert forall l' :: l' in items ==> ItemOk(carts, items, nextLine, books, l');
    }
    var carts' := carts[c := carts[c].(lines := carts[c].lines + [l])];
    var items' := items[l := it];
    forall c' | 0 <= c' < |carts'| ensures CartOk(carts', items', c') {
      assert CartOk(carts, items, c');
      forall i | 0 <= i < |carts[c'].lines|
        ensures carts'[c'].lines[i] in items' && items'[carts'[c'].lines[i]] == items[carts[c'].lines[i]]
      {
        assert carts[c'].lines[i] in items;
      }
    }
    forall l' | l' in items' ensures ItemOk(carts', items', l + 1, books, l') {
      if l' != l {
        assert ItemOk(carts, items, nextLine, books, l');
        assert l' in carts[items[l'].cart].lines;
      }
    }
  }

  /** Changing the quantity (to a positive one) and the price of a stored line
      keeps the invariant. */
  lemma SetLineKeeps(carts: seq<Cart>, items: map<LineId, Item>, nextLine: LineId, books: map<BookId, Book>,
                     l: LineId, qty: int, price: real)
    requires Consistent(carts, items, nextLine, books) && l in items && qty > 0
    ensures Consistent(carts, items[l := items[l].(qty := qty, unitPrice := price)], nextLine, books)
  {
    var items' := items[l := items[l].(qty := qty, unitPrice := price)];
    forall c | 0 <= c < |carts| ensures CartOk(carts, items', c) {
      assert CartOk(carts, items, c);
    }
    forall l' | l' in items' ensures ItemOk(carts, items', nextLine, books, l') {
      assert ItemOk(carts, items, nextLine, books, l');
    }
  }

  /** Deleting the line at position `k` of cart `c`, and taking it off the
      cart's list, keeps the invariant. */
  lemma DeleteLineKeeps(carts: seq<Cart>, items: map<LineId, Item>, nextLine: LineId, books: map<BookId, Book>,
                        c: CartId, k: nat)
    requires Consistent(carts, items, nextLine, books) && c < |carts| && k < |carts[c].lines|
    ensures Consistent(carts[c := carts[c].(lines := RemoveAt(carts[c].lines, k))], items - {carts[c].lines[k]}, nextLine, books)
  {
    var ls := carts[c].lines;
    var l := ls[k];
    var rest := RemoveAt(ls, k);
    var carts' := carts[c := carts[c].(lines := rest)];
    var items' := items - {l};
    assert CartOk(carts, items, c);
    assert forall i :: 0 <= i < |ls| && i != k ==> ls[i] != l by {
      forall i | 0 <= i < |ls| && i != k ensures ls[i] != l {
        if i < k { assert items[ls[i]].book != items[ls[k]].book; }
        else { assert items[ls[k]].book != items[ls[i]].book; }
      }
    }
    forall c' | 0 <= c' < |carts'| ensures CartOk(carts', items', c') {
      assert CartOk(carts, items, c');
      if c' != c {
        forall i | 0 <= i < |carts[c'].lines| ensures carts[c'].lines[i] != l {
          assert items[carts[c'].lines[i]].cart == c';
        }
      } else {
        forall i | 0 <= i < |rest| ensures rest[i] in items' && items'[rest[i]].cart == c {
          if i < k { assert rest[i] == ls[i]; } else { assert rest[i] == ls[i + 1]; }
        }
        forall i, j | 0 <= i < j < |rest| ensures items'[rest[i]].book != items'[rest[j]].book {
          var i', j' := if i < k then i else i + 1, if j < k then j else j + 1;
          assert rest[i] == ls[i'] && rest[j] == ls[j'];
        }
      }
    }
    forall l' | l' in items' ensures ItemOk(carts', items', nextLine, books, l') {
      assert ItemOk(carts, items, nextLine, books, l');
      if items[l'].cart == c {
        var i :| 0 <= i < |ls| && ls[i] == l';
        assert i != k;
        if i < k { assert rest[i] == l'; } else { assert rest[i - 1] == l'; }
      }
    }
  }

  /** Deleting every line of cart `c`, and emptying its list, keeps the
      invariant; the lines deleted are exactly those `c` owned. */
  lemma ClearLinesKeeps(carts: seq<Cart>, items: map<LineId, Item>, nextLine: LineId, books: map<BookId, Book>, c: CartId)
    requires Consistent(carts, items, nextLine, books) && c < |carts|
    ensures Consistent(carts[c := carts[c].(lines := [])], items - (set l | l in carts[c].lines), nextLine, books)
    ensures forall l :: l in items - (set l | l in carts[c].lines) <==> l in items && items[l].cart != c
  {
    var ls := carts[c].lines;
    var carts' := carts[c := carts[c].(lines := [])];
    var items' := items - (set l | l in ls);
    assert CartOk(carts, items, c);
    forall c' | 0 <= c' < |carts'| ensures CartOk(carts', items', c') {
      assert CartOk(carts, items, c');
      if c' != c {
        forall i | 0 <= i < |carts[c'].lines| ensures carts[c'].lines[i] !in ls {
          assert items[carts[c'].lines[i]].cart == c';
        }
      }
    }
    forall l' | l' in items' ensures ItemOk(carts', items', nextLine, books, l') {
      assert ItemOk(carts, items, nextLine, books, l');
    }
    forall l | l in items && items[l].cart == c ensures l !in items' {
      assert ItemOk(carts, items, nextLine, books, l);
    }
  }

  /** A snapshot of the whole persistent state, so that what a service call
      did can be stated as a relation between the state before and after. */
  datatype Tables = Tables(carts: seq<Cart>, items: map<LineId, Item>, nextLine: LineId,
                           books: map<BookId, Book>, customers: set<CustomerId>,
                           invoices: seq<Invoice>, invoiceLines: seq<InvoiceLine>)

  ghost predicate Ok(t: Tables) {
    Consistent(t.carts, t.items, t.nextLine, t.books)
  }

  /** The lines of cart `c`, in list order. */
  function Lines(t: Tables, c: CartId): (ls: seq<Item>)
    requires Ok(t) && c < |t.carts|
    ensures |ls| == |t.carts[c].lines| && DistinctBooks(ls)
    ensures forall i :: 0 <= i < |ls| ==> t.carts[c].lines[i] in t.items && ls[i] == t.items[t.carts[c].lines[i]]
    ensures forall i :: 0 <= i < |ls| ==> ls[i].cart == c && ls[i].qty > 0 && ls[i].book in t.books
  {
    assert CartOk(t.carts, t.items, c);
    assert forall i :: 0 <= i < |t.carts[c].lines| ==> ItemOk(t.carts, t.items, t.nextLine, t.books, t.carts[c].lines[i]);
    Resolve(t.carts[c].lines, t.items)
  }

  /** Outside the existing cart `c` the cart table and the line table are as
      before, and `c` keeps its customer and token. */
  ghost predicate OthersKept(c: CartId, carts0: seq<Cart>, items0: map<LineId, Item>,
                             carts1: seq<Cart>, items1: map<LineId, Item>)
  {
    && c < |carts0| && |carts1| == |carts0|
    && (forall c' :: 0 <= c' < |carts0| && c' != c ==> carts1[c'] == carts0[c'])
    && carts1[c].customer == carts0[c].customer && carts1[c].token == carts0[c].token
    && (forall l :: l in items0 && items0[l].cart != c ==> l in items1 && items1[l] == items0[l])
    && (forall l :: l in items1 && items1[l].cart != c ==> l in items0 && items0[l] == items1[l])
  }

  /** Changes confined to one cart compose. */
  lemma OthersKeptTrans(c: CartId, carts0: seq<Cart>, items0: map<LineId, Item>,
                        carts1: seq<Cart>, items1: map<LineId, Item>,
                        carts2: seq<Cart>, items2: map<LineId, Item>)
    requires OthersKept(c, carts0, items0, carts1, items1)
    requires OthersKept(c, carts1, items1, carts2, items2)
    ensures OthersKept(c, carts0, items0, carts2, items2)
  {
  }

  /** Setting a known book's copy count to a non-negative number keeps the
      invariant. */
  lemma SetCopiesKeeps(carts: seq<Cart>, items: map<LineId, Item>, nextLine: LineId, books: map<BookId, Book>,
                       b: BookId, n: int)
    requires Consistent(carts, items, nextLine, books) && b in books && n >= 0
    ensures Consistent(carts, items, nextLine, books[b := books[b].(copies := n)])
  {
    var books' := books[b := books[b].(copies := n)];
    forall l | l in items ensures ItemOk(carts, items, nextLine, books', l) {
      assert ItemOk(carts, items, nextLine, books, l);
    }
  }

  class Db {
    /** Cart table; a cart's id is its position. */
    var carts: seq<Cart>
    /** Cart-line table, keyed by line id. */
    var items: map<LineId, Item>
    /** The id the next saved cart line receives. */
    var nextLine: LineId
    var books: map<BookId, Book>
    var customers: set<CustomerId>
    var invoices: seq<Invoice>
    var invoiceLines: seq<InvoiceLine>

    ghost predicate Valid()
      reads this
    {
      Consistent(carts, items, nextLine, books)
    }

    /** The current state as a value. */
    function Snapshot(): Tables
      reads this
    {
      Tables(carts, items, nextLine, books, customers, invoices, invoiceLines)
    }

    constructor (books: map<BookId, Book>, customers: set<CustomerId>)
      requires forall b :: b in books ==> books[b].copies >= 0
      ensures Valid()
      ensures this.books == books && this.customers == customers
      ensures carts == [] && items == map[] && invoices == [] && invoiceLines == []
    {
      this.books := books;
      this.customers := customers;
      carts := [];
      items := map[];
      nextLine := 0;
      invoices := [];
      invoiceLines := [];
    }

    /** The lines of cart `c`, in list order. */
    function LinesOf(c: CartId): (ls: seq<Item>)
      reads this
      requires Valid() && c < |carts|
      ensures |ls| == |carts[c].lines| && DistinctBooks(ls)
      ensures forall i :: 0 <= i < |ls| ==> carts[c].lines[i] in items && ls[i] == items[carts[c].lines[i]]
      ensures forall i :: 0 <= i < |ls| ==> ls[i].cart == c && ls[i].qty > 0 && ls[i].book in books
    {
      Lines(Snapshot(), c)
    }

    /** Position of stored line `l` in its cart's list. */
    function PositionOf(l: LineId): (k: nat)
      reads this
      requires Valid() && l in items
      ensures items[l].cart < |carts| && k < |carts[items[l].cart].lines| && carts[items[l].cart].lines[k] == l
    {
      assert ItemOk(carts, items, nextLine, books, l);
      IndexOf(carts[items[l].cart].lines, l)
    }

    /** Saves a new cart, which has no lines yet. */
    method AddCart(cart: Cart) returns (c: CartId)
      requires Valid() && cart.lines == []
      modifies this
      ensures Valid()
      ensures c == |old(carts)| && carts == old(carts) + [cart]
      ensures Snapshot() == old(Snapshot()).(carts := carts)
      ensures items == old(items) && nextLine == old(nextLine) && books == old(books)
      ensures customers == old(customers) && invoices == old(invoices) && invoiceLines == old(invoiceLines)
    {
      AddCartKeeps(carts, items, nextLine, books, cart);
      c := |carts|;
      carts := carts + [cart];
    }

    /** Saves a new line for `book` in cart `c`, which has none for that book. */
    method InsertLine(c: CartId, book: BookId, qty: int, price: real) returns (l: LineId)
      requires Valid() && c < |carts| && book in books && qty > 0
      requires forall i :: 0 <= i < |LinesOf(c)| ==> LinesOf(c)[i].book != book
      modifies this
      ensures Valid()
      ensures l == old(nextLine) && l !in old(items) && nextLine == l + 1
      ensures items == old(items)[l := Item(c, book, qty, price)]
      ensures carts == old(carts)[c := old(carts[c]).(lines := old(carts[c].lines) + [l])]
      ensures LinesOf(c) == old(LinesOf(c)) + [Item(c, book, qty, price)]
      ensures OthersKept(c, old(carts), old(items), carts, items)
      ensures books == old(books) && customers == old(customers)
      ensures invoices == old(invoices) && invoiceLines == old(invoiceLines)
    {
      ghost var before := LinesOf(c);
      var it := Item(c, book, qty, price);
      InsertLineKeeps(carts, items, nextLine, books, c, it);
      l := nextLine;
      items := items[l := it];
      carts := carts[c := carts[c].(lines := carts[c].lines + [l])];
      nextLine := nextLine + 1;
      forall i | 0 <= i < |before| ensures LinesOf(c)[i] == before[i] {
        assert carts[c].lines[i] == old(carts[c].lines[i]) && carts[c].lines[i] in old(items);
      }
      assert LinesOf(c) == before + [it];
    }

    /** Sets quantity and unit price of the line at position `k` of cart `c`. */
    method SetLine(c: CartId, k: nat, qty: int, price: real)
      requires Valid() && c < |carts| && k < |carts[c].lines| && qty > 0
      modifies this
      ensures Valid()
      ensures carts == old(carts) && nextLine == old(nextLine)
      ensures items == old(items)[old(carts[c].lines[k]) := old(LinesOf(c)[k]).(qty := qty, unitPrice := price)]
      ensures LinesOf(c) == old(LinesOf(c))[k := old(LinesOf(c)[k]).(qty := qty, unitPrice := price)]
      ensures OthersKept(c, old(carts), old(items), carts, items)
      ensures books == old(books) && customers == old(customers)
      ensures invoices == old(invoices) && invoiceLines == old(invoiceLines)
    {
      ghost var before := LinesOf(c);
      var l := carts[c].lines[k];
      SetLineKeeps(carts, items, nextLine, books, l, qty, price);
      var it := items[l].(qty := qty, unitPrice := price);
      items := items[l := it];
      forall i | 0 <= i < |before| && i != k ensures carts[c].lines[i] != l {
        if i < k { assert before[i].book != before[k].book; }
        else { assert before[k].book != before[i].book; }
      }
      assert LinesOf(c) == before[k := it];
    }

    /** Deletes the line at position `k` of cart `c` and takes it off the
        cart's list. */
    method DeleteLine(c: CartId, k: nat)
      requires Valid() && c < |carts| && k < |carts[c].lines|
      modifies this
      ensures Valid()
      ensures items == old(items) - {old(carts[c].lines[k])}
      ensures carts == old(carts)[c := old(carts[c]).(lines := RemoveAt(old(carts[c].lines), k))]
      ensures LinesOf(c) == RemoveAt(old(LinesOf(c)), k)
      ensures OthersKept(c, old(carts), old(items), carts, items)
      ensures nextLine == old(nextLine) && books == old(books) && customers == old(customers)
      ensures invoices == old(invoices) && invoiceLines == old(invoiceLines)
    {
      ghost var before := LinesOf(c);
      ghost var ls := carts[c].lines;
      DeleteLineKeeps(carts, items, nextLine, books, c, k);
      var l := carts[c].lines[k];
      var rest := RemoveAt(carts[c].lines, k);
      items := items - {l};
      carts := carts[c := carts[c].(lines := rest)];
      forall i | 0 <= i < |rest| ensures LinesOf(c)[i] == RemoveAt(before, k)[i] {
        if i < k { assert rest[i] == ls[i]; } else { assert rest[i] == ls[i + 1]; }
      }
    }

    /** Deletes every line of cart `c` and empties its list. */
    method ClearLines(c: CartId)
      requires Valid() && c < |carts|
      modifies this
      ensures Valid()
      ensures items == old(items) - (set l | l in old(carts[c].lines))
      ensures forall l :: l in items <==> l in old(items) && old(items[l]).cart != c
      ensures carts == old(carts)[c := old(carts[c]).(lines := [])]
      ensures OthersKept(c, old(carts), old(items), carts, items)
      ensures nextLine == old(nextLine) && books == old(books) && customers == old(customers)
      ensures invoices == old(invoices) && invoiceLines == old(invoiceLines)
    {
      ClearLinesKeeps(carts, items, nextLine, books, c);
      items := items - (set l | l in carts[c].lines);
      carts := carts[c := carts[c].(lines := [])];
    }

    /** Stores recomputed (or reset) money fields on cart `c`. */
    method SetTotals(c: CartId, t: Totals)
      requires Valid() && c < |carts|
      modifies this
      ensures Valid()
      ensures carts == old(carts)[c := old(carts[c]).(totals := t)]
      ensures Snapshot() == old(Snapshot()).(carts := carts)
      ensures items == old(items) && nextLine == old(nextLine)
      ensures LinesOf(c) == old(LinesOf(c))
      ensures OthersKept(c, old(carts), old(items), carts, items)
      ensures books == old(books) && customers == old(customers)
      ensures invoices == old(invoices) && invoiceLines == old(invoiceLines)
    {
      carts := carts[c := carts[c].(totals := t)];
      assert Valid() by {
        forall c' | 0 <= c' < |carts| ensures CartOk(carts, items, c') {
          assert CartOk(old(carts), items, c');
        }
        forall l | l in items ensures ItemOk(carts, items, nextLine, books, l) {
          assert ItemOk(old(carts), items, nextLine, books, l);
        }
      }
    }

    /** Stores a new copy count for book `b`. */
    method SetCopies(b: BookId, n: int)
      requires Valid() && b in books && n >= 0
      modifies this
      ensures Valid()
      ensures books == old(books)[b := old(books[b]).(copies := n)]
      ensures carts == old(carts) && items == old(items) && nextLine == old(nextLine)
      ensures customers == old(customers) && invoices == old(invoices) && invoiceLines == old(invoiceLines)
    {
      SetCopiesKeeps(carts, items, nextLine, books, b, n);
      books := books[b := books[b].(copies := n)];
    }

    /** Saves an invoice header; its id is its position in the invoice table. */
    method SaveInvoice(inv: Invoice) returns (n: nat)
      requires Valid()
      modifies this
      ensures Valid()
      ensures n == |old(invoices)| && invoices == old(invoices) + [inv]
      ensures carts == old(carts) && items == old(items) && nextLine == old(nextLine)
      ensures books == old(books) && customers == old(customers) && invoiceLines == old(invoiceLines)
    {
      n := |invoices|;
      invoices := invoices + [inv];
    }

    /** Saves an invoice detail. */
    method SaveInvoiceLine(d: InvoiceLine)
      requires Valid()
      modifies this
      ensures Valid()
      ensures invoiceLines == old(invoiceLines) + [d]
      ensures carts == old(carts) && items == old(items) && nextLine == old(nextLine)
      ensures books == old(books) && customers == old(customers) && invoices == old(invoices)
    {
      invoiceLines := invoiceLines + [d];
    }
  }
}
