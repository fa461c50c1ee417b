/** The cart service: get-or-create, add a book, set a line's quantity,
    remove a line, clear and read a cart, along two identity paths (a
    registered customer's id and a guest's token).  Every mutation ends by
    recomputing the cart's totals at the configured tax rate, except the
    guest clear, which resets them to zero. */
module CartService {
  import opened Domain
  import opened Money
  import opened CartLines
  import opened Store

  class CartService {
    const db: Db
    /** The tax rate (0.15 in the deployed service). */
    const rate: real

    constructor (db: Db, rate: real)
      ensures this.db == db && this.rate == rate
    {
      this.db := db;
      this.rate := rate;
    }

    /** Only cart `c`, an existing cart, and its own lines changed from `t0`
        to `t1`. */
    ghost predicate OnlyCartChanged(t0: Tables, t1: Tables, c: CartId) {
      && OthersKept(c, t0.carts, t0.items, t1.carts, t1.items)
      && t1.books == t0.books && t1.customers == t0.customers
      && t1.invoices == t0.invoices && t1.invoiceLines == t0.invoiceLines
    }

    /** The state a get-or-create leaves: `t0`, with `cart` appended to the
        cart table when `created` holds. */
    ghost function AfterGetOrCreate(t0: Tables, created: bool, cart: Cart): Tables {
      if created then t0.(carts := t0.carts + [cart]) else t0
    }

    /** `qty` copies of `book` were added to cart `c` at the book's price and
        the totals recomputed with the cart's discount.  A line the cart had
        for the book keeps its id; otherwise the next line id is appended. */
    ghost predicate Added(t0: Tables, t1: Tables, c: CartId, book: BookId, qty: int) {
      && Ok(t0) && Ok(t1) && c < |t0.carts| && book in t0.books
      && OnlyCartChanged(t0, t1, c)
      && Lines(t1, c) == AddLine(Lines(t0, c), c, book, qty, t0.books[book].price)
      && t1.carts[c].lines == (if LineFor(Lines(t0, c), book).Some? then t0.carts[c].lines
                               else t0.carts[c].lines + [t0.nextLine])
      && t1.carts[c].totals == Recompute(Lines(t1, c), t0.carts[c].totals.discount, rate)
    }

    /** The line at position `k` of cart `c` was given quantity `qty` (removed
        when `qty` is zero or less) and the totals recomputed. */
    ghost predicate QtyApplied(t0: Tables, t1: Tables, c: CartId, k: nat, qty: int) {
      && Ok(t0) && Ok(t1)
      && c < |t0.carts| && k < |t0.carts[c].lines|
      && OnlyCartChanged(t0, t1, c)
      && t1.carts[c].lines == (if qty <= 0 then RemoveAt(t0.carts[c].lines, k) else t0.carts[c].lines)
      && Lines(t1, c) == ApplyQty(Lines(t0, c), k, qty)
      && t1.carts[c].totals == Recompute(Lines(t1, c), t0.carts[c].totals.discount, rate)
    }

    /** Cart `c` lost every line (each deleted from the line table) and its
        money fields became `t`. */
    ghost predicate Cleared(t0: Tables, t1: Tables, c: CartId, t: Totals) {
      && Ok(t1) && OnlyCartChanged(t0, t1, c)
      && t1.carts[c].lines == [] && t1.carts[c].totals == t
      && (forall l :: l in t1.items ==> t1.items[l].cart != c)
    }

    /** Only the lines of cart `c` changed, and they became `ls`. */
    ghost predicate LinesBecame(t0: Tables, t1: Tables, c: CartId, ls: seq<Item>) {
      && Ok(t1) && OnlyCartChanged(t0, t1, c)
      && t1.carts[c].totals == t0.carts[c].totals
      && Lines(t1, c) == ls
    }

    /** Storing the recomputed totals after the lines of cart `c` became
        `ls` leaves a state where only `c` changed, with lines `ls` and
        totals recomputed from them. */
    lemma Recomputed(t0: Tables, t1: Tables, t2: Tables, c: CartId, ls: seq<Item>)
      requires LinesBecame(t0, t1, c, ls) && Ok(t2)
      requires t2 == t1.(carts := t1.carts[c := t1.carts[c].(totals := Recompute(ls, t1.carts[c].totals.discount, rate))])
      ensures OnlyCartChanged(t0, t2, c) && Lines(t2, c) == ls
      ensures t2.carts[c].totals == Recompute(ls, t0.carts[c].totals.discount, rate)
    {
      assert OthersKept(c, t1.carts, t1.items, t2.carts, t2.items);
      OthersKeptTrans(c, t0.carts, t0.items, t1.carts, t1.items, t2.carts, t2.items);
    }

    /** Get-or-create by customer id: an unknown customer fails; otherwise the
        customer's cart, or a new empty one saved with the given token. */
    method GetOrCreateByCustomer(customer: CustomerId, token: Option<string>) returns (r: Result<CartId>)
      requires db.Valid()
      modifies db
      ensures db.Valid()
      ensures customer !in old(db.customers) ==> r == Failure(CustomerNotFound(customer)) && unchanged(db)
      ensures customer in old(db.customers) ==>
        var found := FindByCustomer(old(db.carts), customer);
        && r == Success(if found.Some? then found.value else |old(db.carts)|)
        && db.Snapshot() == AfterGetOrCreate(old(db.Snapshot()), found.None?, NewCart(Some(customer), token))
      ensures r.Success? ==> r.value < |db.carts| && db.carts[r.value].customer == Some(customer)
      ensures r.Success? && r.value == |old(db.carts)| ==>
        && db.carts[r.value].token == token && db.carts[r.value].lines == []
        && db.carts[r.value].totals == ZeroTotals
    {
      if customer !in db.customers {
        return Failure(CustomerNotFound(customer));
      }
      var found := FindByCustomer(db.carts, customer);
      if found.Some? {
        return Success(found.value);
      }
      var c := db.AddCart(NewCart(Some(customer), token));
      r := Success(c);
    }

    /** The part of add-item both paths share, once the cart is resolved:
        look the book up, merge into or append a line, recompute. */
    method AddToCart(c: CartId, book: BookId, qty: int) returns (r: Result<CartId>)
      requires db.Valid() && c < |db.carts| && qty > 0
      modifies db
      ensures db.Valid()
      ensures book !in old(db.books) ==> r == Failure(BookNotFound(book)) && unchanged(db)
      ensures book in old(db.books) ==> r == Success(c) && Added(old(db.Snapshot()), db.Snapshot(), c, book, qty)
    {
      if book !in db.books {
        return Failure(BookNotFound(book));
      }
      PutLine(c, book, qty);
      r := Success(c);
    }

    /** Merges `qty` copies of a known book into cart `c` at the book's
        current price (a new line when the cart has none for it), then
        recomputes the totals. */
    method PutLine(c: CartId, book: BookId, qty: int)
      requires db.Valid() && c < |db.carts| && qty > 0 && book in db.books
      modifies db
      ensures Added(old(db.Snapshot()), db.Snapshot(), c, book, qty)
    {
      var price := db.books[book].price;
      var before := db.LinesOf(c);
      ghost var after := AddLine(before, c, book, qty, price);
      match LineFor(before, book) {
        case Some(k) =>
          assert after == before[k := before[k].(qty := before[k].qty + qty, unitPrice := price)];
          RepriceLine(c, k, before[k].qty + qty, price);
        case None =>
          assert after == before + [Item(c, book, qty, price)];
          var l := AppendLine(c, book, qty, price);
      }
      ghost var changed := db.Snapshot();
      assert LinesBecame(old(db.Snapshot()), changed, c, after);
      assert db.LinesOf(c) == after;
      db.SetTotals(c, Recompute(db.LinesOf(c), db.carts[c].totals.discount, rate));
      Recomputed(old(db.Snapshot()), changed, db.Snapshot(), c, after);
    }

    /** Existing line: new quantity, and the unit price refreshed to `price`. */
    method RepriceLine(c: CartId, k: nat, qty: int, price: real)
      requires db.Valid() && c < |db.carts| && k < |db.carts[c].lines| && qty > 0
      modifies db
      ensures LinesBecame(old(db.Snapshot()), db.Snapshot(), c, old(db.LinesOf(c))[k := old(db.LinesOf(c))[k].(qty := qty, unitPrice := price)])
      ensures db.carts[c].lines == old(db.carts[c].lines)
    {
      ghost var l := db.carts[c].lines[k];
      assert db.items[l].cart == c by {
        assert db.LinesOf(c)[k].cart == c;
      }
      db.SetLine(c, k, qty, price);
    }

    /** No line for the book yet: one is appended. */
    method AppendLine(c: CartId, book: BookId, qty: int, price: real) returns (l: LineId)
      requires db.Valid() && c < |db.carts| && qty > 0 && book in db.books
      requires LineFor(db.LinesOf(c), book).None?
      modifies db
      ensures LinesBecame(old(db.Snapshot()), db.Snapshot(), c, old(db.LinesOf(c)) + [Item(c, book, qty, price)])
      ensures l == old(db.nextLine) && l !in old(db.items)
      ensures db.carts[c].lines == old(db.carts[c].lines) + [l]
    {
      l := db.InsertLine(c, book, qty, price);
    }

    /** Add-item by customer id. */
    method AddItemByCustomer(customer: CustomerId, book: BookId, qty: int) returns (r: Result<CartId>)
      requires db.Valid()
      modifies db
      ensures db.Valid()
      ensures qty <= 0 ==> r == Failure(InvalidQuantity) && unchanged(db)
      ensures qty > 0 && customer !in old(db.customers) ==> r == Failure(CustomerNotFound(customer)) && unchanged(db)
      ensures qty > 0 && customer in old(db.customers) ==>
        var found := FindByCustomer(old(db.carts), customer);
        var c := if found.Some? then found.value else |old(db.carts)|;
        var got := AfterGetOrCreate(old(db.Snapshot()), found.None?, NewCart(Some(customer), None));
        && (book !in old(db.books) ==> r == Failure(BookNotFound(book)) && db.Snapshot() == got)
        && (book in old(db.books) ==> r == Success(c) && Added(got, db.Snapshot(), c, book, qty))
    {
      if qty <= 0 {
        return Failure(InvalidQuantity);
      }
      var cr := GetOrCreateByCustomer(customer, None);
      if cr.Failure? {
        return Failure(cr.error);
      }
      r := AddToCart(cr.value, book, qty);
    }

    /** The part of update-quantity both paths share, once the cart is
        resolved (`owner` is None for a customer without a saved cart): the
        line must exist and belong to the cart; then it is removed or gets
        the new quantity, and the totals are recomputed. */
    method ApplyQuantity(owner: Option<CartId>, lineId: LineId, qty: int) returns (r: Result<CartId>)
      requires db.Valid() && (owner.Some? ==> owner.value < |db.carts|)
      modifies db
      ensures db.Valid()
      ensures lineId !in old(db.items) ==> r == Failure(LineNotFound(lineId)) && unchanged(db)
      ensures lineId in old(db.items) && owner != Some(old(db.items[lineId]).cart) ==>
        r == Failure(LineNotOwned) && unchanged(db)
      ensures lineId in old(db.items) && owner == Some(old(db.items[lineId]).cart) ==>
        r == Success(owner.value) && QtyApplied(old(db.Snapshot()), db.Snapshot(), owner.value, old(db.PositionOf(lineId)), qty)
    {
      if lineId !in db.items {
        return Failure(LineNotFound(lineId));
      }
      var c := db.items[lineId].cart;
      if owner != Some(c) {
        return Failure(LineNotOwned);
      }
      var k := db.PositionOf(lineId);
      SetQuantity(c, k, qty);
      r := Success(c);
    }

    /** The line at position `k` of cart `c` is removed (quantity zero or
        less) or takes the new quantity at its stored unit price; then the
        totals are recomputed. */
    method SetQuantity(c: CartId, k: nat, qty: int)
      requires db.Valid() && c < |db.carts| && k < |db.carts[c].lines|
      modifies db
      ensures QtyApplied(old(db.Snapshot()), db.Snapshot(), c, k, qty)
    {
      if qty <= 0 {
        DropLine(c, k, qty);
      } else {
        ChangeQty(c, k, qty);
      }
    }

    /** Quantity zero or less: the line is deleted, totals recomputed. */
    method DropLine(c: CartId, k: nat, qty: int)
      requires db.Valid() && c < |db.carts| && k < |db.carts[c].lines| && qty <= 0
      modifies db
      ensures QtyApplied(old(db.Snapshot()), db.Snapshot(), c, k, qty)
    {
      ghost var after := ApplyQty(db.LinesOf(c), k, qty);
      db.DeleteLine(c, k);
      ghost var changed := db.Snapshot();
      assert LinesBecame(old(db.Snapshot()), changed, c, after);
      db.SetTotals(c, Recompute(db.LinesOf(c), db.carts[c].totals.discount, rate));
      Recomputed(old(db.Snapshot()), changed, db.Snapshot(), c, after);
    }

    /** Positive quantity: it replaces the line's quantity, the unit price is
        kept, totals recomputed. */
    method ChangeQty(c: CartId, k: nat, qty: int)
      requires db.Valid() && c < |db.carts| && k < |db.carts[c].lines| && qty > 0
      modifies db
      ensures QtyApplied(old(db.Snapshot()), db.Snapshot(), c, k, qty)
    {
      ghost var after := ApplyQty(db.LinesOf(c), k, qty);
      db.SetLine(c, k, qty, db.LinesOf(c)[k].unitPrice);
      ghost var changed := db.Snapshot();
      assert LinesBecame(old(db.Snapshot()), changed, c, after);
      db.SetTotals(c, Recompute(db.LinesOf(c), db.carts[c].totals.discount, rate));
      Recomputed(old(db.Snapshot()), changed, db.Snapshot(), c, after);
    }

    /** Update-quantity by customer id: a negative quantity is rejected, the
        cart is looked up without being created, and zero removes the line. */
    method UpdateQtyByCustomer(customer: CustomerId, lineId: LineId, qty: int) returns (r: Result<CartId>)
      requires db.Valid()
      modifies db
      ensures db.Valid()
      ensures qty < 0 ==> r == Failure(InvalidQuantity) && unchanged(db)
      ensures qty >= 0 && customer !in old(db.customers) ==> r == Failure(CustomerNotFound(customer)) && unchanged(db)
      ensures qty >= 0 && customer in old(db.customers) && lineId !in old(db.items) ==>
        r == Failure(LineNotFound(lineId)) && unchanged(db)
      ensures qty >= 0 && customer in old(db.customers) && lineId in old(db.items) ==>
        var found := FindByCustomer(old(db.carts), customer);
        if found == Some(old(db.items[lineId]).cart) then
          r == Success(found.value) && QtyApplied(old(db.Snapshot()), db.Snapshot(), found.value, old(db.PositionOf(lineId)), qty)
        else
          r == Failure(LineNotOwned) && unchanged(db)
    {
      if qty < 0 {
        return Failure(InvalidQuantity);
      }
      if customer !in db.customers {
        return Failure(CustomerNotFound(customer));
      }
      var found := FindByCustomer(db.carts, customer);
      r := ApplyQuantity(found, lineId, qty);
    }

    /** Remove-item by customer id: update-quantity to zero. */
    method RemoveItemByCustomer(customer: CustomerId, lineId: LineId) returns (err: Option<Error>)
      requires db.Valid()
      modifies db
      ensures db.Valid()
      ensures customer !in old(db.customers) ==> err == Some(CustomerNotFound(customer)) && unchanged(db)
      ensures customer in old(db.customers) && lineId !in old(db.items) ==>
        err == Some(LineNotFound(lineId)) && unchanged(db)
      ensures customer in old(db.customers) && lineId in old(db.items) ==>
        var found := FindByCustomer(old(db.carts), customer);
        if found == Some(old(db.items[lineId]).cart) then
          err == None && QtyApplied(old(db.Snapshot()), db.Snapshot(), found.value, old(db.PositionOf(lineId)), 0)
        else
          err == Some(LineNotOwned) && unchanged(db)
    {
      var r := UpdateQtyByCustomer(customer, lineId, 0);
      err := if r.Failure? then Some(r.error) else None;
    }

    /** Clear by customer id: empties the customer's cart and recomputes its
        totals; a customer without a cart gets an empty one saved. */
    method ClearByCustomer(customer: CustomerId) returns (err: Option<Error>)
      requires db.Valid()
      modifies db
      ensures db.Valid()
      ensures customer !in old(db.customers) ==> err == Some(CustomerNotFound(customer)) && unchanged(db)
      ensures customer in old(db.customers) ==>
        var found := FindByCustomer(old(db.carts), customer);
        var c := if found.Some? then found.value else |old(db.carts)|;
        var got := AfterGetOrCreate(old(db.Snapshot()), found.None?, NewCart(Some(customer), None));
        && err == None
        && Cleared(got, db.Snapshot(), c, Recompute([], got.carts[c].totals.discount, rate))
    {
      if customer !in db.customers {
        return Some(CustomerNotFound(customer));
      }
      var found := FindByCustomer(db.carts, customer);
      var c: CartId;
      if found.Some? {
        c := found.value;
      } else {
        // The unsaved cart the read hands back is saved by the clear.
        c := db.AddCart(NewCart(Some(customer), None));
      }
      // The totals are recomputed over the emptied list of lines.
      ClearCart(c, Recompute([], db.carts[c].totals.discount, rate));
      err := None;
    }

    /** Deletes every line of cart `c` and stores `t` as its money fields. */
    method ClearCart(c: CartId, t: Totals)
      requires db.Valid() && c < |db.carts|
      modifies db
      ensures Cleared(old(db.Snapshot()), db.Snapshot(), c, t)
    {
      db.ClearLines(c);
      ghost var emptied := db.Snapshot();
      db.SetTotals(c, t);
      OthersKeptTrans(c, old(db.carts), old(db.items), emptied.carts, emptied.items, db.carts, db.items);
    }

    /** Read by customer id: an unknown customer fails; otherwise the saved
        cart, or an empty cart that is not saved. */
    function GetByCustomer(customer: CustomerId): (r: Result<Cart>)
      reads this, db
      ensures r.Failure? <==> customer !in db.customers
      ensures r.Failure? ==> r.error == CustomerNotFound(customer)
      ensures r.Success? ==> r.value.customer == Some(customer)
      ensures r.Success? ==> match FindByCustomer(db.carts, customer)
        case Some(c) => r.value == db.carts[c]
        case None => r.value.lines == [] && r.value.totals == ZeroTotals
    {
      if customer !in db.customers then Failure(CustomerNotFound(customer))
      else match FindByCustomer(db.carts, customer)
        case Some(c) => Success(db.carts[c])
        case None => Success(NewCart(Some(customer), None))
    }

    /** Get-or-create by guest token: a null or blank token fails; otherwise
        the token's cart, or a new one with all money fields at zero. */
    method GetOrCreateByToken(token: Option<string>) returns (r: Result<CartId>)
      requires db.Valid()
      modifies db
      ensures db.Valid()
      ensures !TokenAccepted(token) ==> r == Failure(InvalidToken) && unchanged(db)
      ensures TokenAccepted(token) ==>
        var found := FindByToken(old(db.carts), token.value);
        && r == Success(if found.Some? then found.value else |old(db.carts)|)
        && db.Snapshot() == AfterGetOrCreate(old(db.Snapshot()), found.None?, NewCart(None, token))
      ensures r.Success? ==> r.value < |db.carts| && db.carts[r.value].token == token
      ensures r.Success? && r.value == |old(db.carts)| ==>
        && db.carts[r.value].customer == None && db.carts[r.value].lines == []
        && db.carts[r.value].totals == ZeroTotals
    {
      if !TokenAccepted(token) {
        return Failure(InvalidToken);
      }
      var found := FindByToken(db.carts, token.value);
      if found.Some? {
        return Success(found.value);
      }
      var c := db.AddCart(NewCart(None, token));
      r := Success(c);
    }

    /** Add-item by guest token. */
    method AddItemByToken(token: Option<string>, book: BookId, qty: int) returns (r: Result<CartId>)
      requires db.Valid()
      modifies db
      ensures db.Valid()
      ensures qty <= 0 ==> r == Failure(InvalidQuantity) && unchanged(db)
      ensures qty > 0 && !TokenAccepted(token) ==> r == Failure(InvalidToken) && unchanged(db)
      ensures qty > 0 && TokenAccepted(token) ==>
        var found := FindByToken(old(db.carts), token.value);
        var c := if found.Some? then found.value else |old(db.carts)|;
        var got := AfterGetOrCreate(old(db.Snapshot()), found.None?, NewCart(None, token));
        && (book !in old(db.books) ==> r == Failure(BookNotFound(book)) && db.Snapshot() == got)
        && (book in old(db.books) ==> r == Success(c) && Added(got, db.Snapshot(), c, book, qty))
    {
      if qty <= 0 {
        return Failure(InvalidQuantity);
      }
      var cr := GetOrCreateByToken(token);
      if cr.Failure? {
        return Failure(cr.error);
      }
      r := AddToCart(cr.value, book, qty);
    }

    /** Update-quantity by guest token: the cart is got or created first, and
        any quantity of zero or less removes the line. */
    method UpdateQtyByToken(token: Option<string>, lineId: LineId, qty: int) returns (r: Result<CartId>)
      requires db.Valid()
      modifies db
      ensures db.Valid()
      ensures !TokenAccepted(token) ==> r == Failure(InvalidToken) && unchanged(db)
      ensures TokenAccepted(token) ==>
        var found := FindByToken(old(db.carts), token.value);
        var got := AfterGetOrCreate(old(db.Snapshot()), found.None?, NewCart(None, token));
        && (lineId !in old(db.items) ==> r == Failure(LineNotFound(lineId)) && db.Snapshot() == got)
        && (lineId in old(db.items) && found != Some(old(db.items[lineId]).cart) ==>
              r == Failure(LineNotOwned) && db.Snapshot() == got)
        && (lineId in old(db.items) && found == Some(old(db.items[lineId]).cart) ==>
              r == Success(found.value) && QtyApplied(old(db.Snapshot()), db.Snapshot(), found.value, old(db.PositionOf(lineId)), qty))
    {
      if !TokenAccepted(token) {
        return Failure(InvalidToken);
      }
      var cr := GetOrCreateByToken(token);
      // A cart created just now has no lines, so no stored line is its own.
      assert lineId in db.items ==> db.items[lineId].cart < |old(db.carts)|;
      r := ApplyQuantity(Some(cr.value), lineId, qty);
    }

    /** Remove-item by guest token: update-quantity to zero. */
    method RemoveItemByToken(token: Option<string>, lineId: LineId) returns (err: Option<Error>)
      requires db.Valid()
      modifies db
      ensures db.Valid()
      ensures !TokenAccepted(token) ==> err == Some(InvalidToken) && unchanged(db)
      ensures TokenAccepted(token) ==>
        var found := FindByToken(old(db.carts), token.value);
        var got := AfterGetOrCreate(old(db.Snapshot()), found.None?, NewCart(None, token));
        && (lineId !in old(db.items) ==> err == Some(LineNotFound(lineId)) && db.Snapshot() == got)
        && (lineId in old(db.items) && found != Some(old(db.items[lineId]).cart) ==>
              err == Some(LineNotOwned) && db.Snapshot() == got)
        && (lineId in old(db.items) && found == Some(old(db.items[lineId]).cart) ==>
              err == None && QtyApplied(old(db.Snapshot()), db.Snapshot(), found.value, old(db.PositionOf(lineId)), 0))
    {
      var r := UpdateQtyByToken(token, lineId, 0);
      err := if r.Failure? then Some(r.error) else None;
    }

    /** Clear by guest token: the cart (got or created) loses every line and
        all four money fields are set to zero. */
    method ClearByToken(token: Option<string>) returns (err: Option<Error>)
      requires db.Valid()
      modifies db
      ensures db.Valid()
      ensures !TokenAccepted(token) ==> err == Some(InvalidToken) && unchanged(db)
      ensures TokenAccepted(token) ==>
        var found := FindByToken(old(db.carts), token.value);
        var c := if found.Some? then found.value else |old(db.carts)|;
        var got := AfterGetOrCreate(old(db.Snapshot()), found.None?, NewCart(None, token));
        && err == None
        && Cleared(got, db.Snapshot(), c, ZeroTotals)
    {
      var cr := GetOrCreateByToken(token);
      if cr.Failure? {
        return Some(cr.error);
      }
      ClearCart(cr.value, ZeroTotals);
      err := None;
    }

    /** Read by guest token: the token's cart, or an empty cart with money
        fields at zero that is not saved. */
    function GetByToken(token: string): (cart: Cart)
      reads this, db
      ensures cart.token == Some(token)
      ensures match FindByToken(db.carts, token)
        case Some(c) => cart == db.carts[c]
        case None => cart.lines == [] && cart.totals == ZeroTotals && cart.customer == None
    {
      match FindByToken(db.carts, token)
      case Some(c) => db.carts[c]
      case None => NewCart(None, Some(token))
    }
  }
}
