/** Entities of the bookstore cart and checkout, the typed failures of its
    services, and the repository look-ups they rely on. */
module Domain {

  type CustomerId = int
  type BookId = int
  /** Cart-line ids are issued by the persistence layer and never reused. */
  type LineId = nat
  /** Carts are never deleted; a cart's id is its position in the cart table. */
  type CartId = nat

  datatype Option<T> = None | Some(value: T)

  /** Outcome of a service call: a value, or the exception the service throws. */
  datatype Result<T> = Success(value: T) | Failure(error: Error)

  datatype Error =
    | InvalidQuantity                 // quantity rejected by the up-front guard
    | InvalidToken                    // null or blank guest token
    | CustomerNotFound(customer: CustomerId)
    | BookNotFound(book: BookId)
    | LineNotFound(line: LineId)
    | LineNotOwned                    // the line belongs to another cart
    | CartNotFound                    // no cart for the token at checkout
    | EmptyCart
    | InsufficientStock(title: string)

  datatype Book = Book(title: string, price: real, copies: int)

  /** A cart line: owning cart, book, quantity and the unit-price snapshot. */
  datatype Item = Item(cart: CartId, book: BookId, qty: int, unitPrice: real)

  datatype Totals = Totals(subtotal: real, discount: real, tax: real, total: real)

  const ZeroTotals := Totals(0.0, 0.0, 0.0, 0.0)

  /** A cart: its identity (customer and/or guest token), its ordered list of
      line ids, and the stored monetary fields. */
  datatype Cart = Cart(customer: Option<CustomerId>, token: Option<string>, lines: seq<LineId>, totals: Totals)

  /** A local date-time at one-second resolution (the checkout clock reading). */
  datatype DateTime = DateTime(year: int, month: int, day: int, hour: int, minute: int, second: int)

  /** An invoice header: number, issue time and the money totals. */
  datatype Invoice = Invoice(number: string, issued: DateTime, totals: Totals)

  /** An invoice detail: the invoice it belongs to (its position in the
      invoice table) and a snapshot of one cart line. */
  datatype InvoiceLine = InvoiceLine(invoice: nat, book: BookId, qty: int, unitPrice: real)

  /** A fresh, empty cart as the services build one before persisting it. */
  function NewCart(customer: Option<CustomerId>, token: Option<string>): Cart {
    Cart(customer, token, [], ZeroTotals)
  }

  /** The lines a list of ids stands for. */
  function Resolve(ls: seq<LineId>, items: map<LineId, Item>): (r: seq<Item>)
    requires forall i :: 0 <= i < |ls| ==> ls[i] in items
    ensures |r| == |ls|
    ensures forall i :: 0 <= i < |ls| ==> r[i] == items[ls[i]]
  {
    seq(|ls|, i requires 0 <= i < |ls| => items[ls[i]])
  }

  /** No two lines of `ls` are for the same book. */
  ghost predicate DistinctBooks(ls: seq<Item>) {
    forall i, j :: 0 <= i < j < |ls| ==> ls[i].book != ls[j].book
  }

  /** Position of the first occurrence of `x` in `s`. */
  function IndexOf(s: seq<LineId>, x: LineId): (k: nat)
    requires x in s
    ensures k < |s| && s[k] == x && x !in s[..k]
  {
    if s[0] == x then 0 else 1 + IndexOf(s[1..], x)
  }

  /** `s` without its element at position `k` (what removing an element from a
      list does). */
  function RemoveAt<T>(s: seq<T>, k: nat): (r: seq<T>)
    requires k < |s|
    ensures |r| == |s| - 1
    ensures forall i :: 0 <= i < k ==> r[i] == s[i]
    ensures forall i :: k <= i < |r| ==> r[i] == s[i + 1]
  {
    s[..k] + s[k + 1..]
  }

  /** First cart whose guest token is `t` (the repository's find-by-token). */
  function FindByToken(carts: seq<Cart>, t: string): (r: Option<CartId>)
    ensures r.Some? ==> r.value < |carts| && carts[r.value].token == Some(t)
    ensures r.Some? ==> forall k :: 0 <= k < r.value ==> carts[k].token != Some(t)
    ensures r.None? <==> forall k :: 0 <= k < |carts| ==> carts[k].token != Some(t)
  {
    if carts == [] then None
    else if carts[0].token == Some(t) then Some(0)
    else match FindByToken(carts[1..], t)
      case None => None
      case Some(k) => Some(k + 1)
  }

  /** First cart of customer `c` (the repository's find-by-customer). */
  function FindByCustomer(carts: seq<Cart>, c: CustomerId): (r: Option<CartId>)
    ensures r.Some? ==> r.value < |carts| && carts[r.value].customer == Some(c)
    ensures r.Some? ==> forall k :: 0 <= k < r.value ==> carts[k].customer != Some(c)
    ensures r.None? <==> forall k :: 0 <= k < |carts| ==> carts[k].customer != Some(c)
  {
    if carts == [] then None
    else if carts[0].customer == Some(c) then Some(0)
    else match FindByCustomer(carts[1..], c)
      case None => None
      case Some(k) => Some(k + 1)
  }

  /** Java's `Character.isWhitespace`: the space, line and paragraph separators
      except the non-breaking ones, and the ASCII controls TAB..CR, FS..US. */
  predicate IsWhitespace(c: char) {
    || c == '\t' || c == '\n' || c == '\U{000B}' || c == '\U{000C}' || c == '\r'
    || ('\U{001C}' <= c <= '\U{001F}') || c == ' '
    || c == '\U{1680}' || ('\U{2000}' <= c <= '\U{2006}') || ('\U{2008}' <= c <= '\U{200A}')
    || c == '\U{2028}' || c == '\U{2029}' || c == '\U{205F}' || c == '\U{3000}'
  }

  /** Java's `String.isBlank`: empty or white space only. */
  predicate IsBlank(s: string) {
    forall i :: 0 <= i < |s| ==> IsWhitespace(s[i])
  }

  /** The guest-token guard: present (non-null) and not blank. */
  predicate TokenAccepted(token: Option<string>) {
    token.Some? && !IsBlank(token.value)
  }

  /** Java's white space takes in tabs, line separators and the ASCII unit
      separators, but not the non-breaking spaces nor the zero-width space. */
  lemma WhitespaceEdges()
    ensures IsWhitespace(' ') && IsWhitespace('\t') && IsWhitespace('\U{001F}')
    ensures IsWhitespace('\U{2028}') && IsWhitespace('\U{3000}')
    ensures !IsWhitespace('\U{00A0}') && !IsWhitespace('\U{2007}') && !IsWhitespace('\U{202F}')
    ensures !IsWhitespace('\U{200B}') && !IsWhitespace('\U{0085}') && !IsWhitespace('a')
  {
  }

  /** A null, empty or white-space-only token is refused; a token made only of
      non-breaking spaces is accepted, as Java's `isBlank` does not count them
      as blank. */
  lemma TokenAcceptedEdges()
    ensures !TokenAccepted(None) && !TokenAccepted(Some("")) && !TokenAccepted(Some(" \t\U{2028}"))
    ensures TokenAccepted(Some("\U{00A0}")) && TokenAccepted(Some("\U{2007}")) && TokenAccepted(Some("\U{202F}"))
    ensures TokenAccepted(Some(" a "))
  {
    assert !IsWhitespace(" a "[1]);
    assert !IsWhitespace("\U{00A0}"[0]) && !IsWhitespace("\U{2007}"[0]) && !IsWhitespace("\U{202F}"[0]);
  }
}
