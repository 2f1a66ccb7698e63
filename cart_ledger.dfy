/**
 * The session cart ledger of the cart controllers: one cart per session id, holding
 * one line per book with the price locked in when the book was first added, and a
 * stored total that every mutation recomputes from the full list of lines.
 */
module CartLedger {
  import opened Optional
  import opened Http

  /** A cart line: a book, how many copies, and the unit price (in cents) locked in when first added. */
  datatype CartItem = CartItem(bookId: int, quantity: int, priceAtAddition: int)

  /** A session's cart row: the stored total and its lines, in the order they were created. */
  datatype Cart = Cart(total: int, items: seq<CartItem>)

  /**
   * The `quantity` field of a request body: absent, a JSON number, or a numeric JSON
   * string whose `parseInt` value is `n`. JavaScript tests the two kinds differently:
   * the number 0 is falsy, the string "0" is not.
   */
  datatype QuantityInput = Absent | Num(n: int) | Text(n: int)

  /** The quantity `addToCart` uses: `quantity = 1` when absent, then `parseInt`. */
  function QuantityToAdd(q: QuantityInput): int {
    match q
    case Absent => 1
    case Num(n) => n
    case Text(n) => n
  }

  /** `!quantity || quantity < 0`, the guard of `updateCartItem`. */
  predicate RejectedQuantity(q: QuantityInput) {
    match q
    case Absent => true
    case Num(n) => n == 0 || n < 0
    case Text(n) => n < 0
  }

  /** `parseInt(quantity)` for a quantity that passed the guard. */
  function ParsedQuantity(q: QuantityInput): int
    requires !RejectedQuantity(q)
  {
    match q
    case Num(n) => n
    case Text(n) => n
  }

  /**
   * The zero-quantity branch of `updateCartItem` is reachable only through a numeric
   * string whose `parseInt` is 0 ("0", "00", "0.5"): the number 0 is turned away by the
   * guard first.
   */
  lemma ZeroQuantityOnlyFromText(q: QuantityInput)
    requires !RejectedQuantity(q) && ParsedQuantity(q) == 0
    ensures q == Text(0)
  {
  }

  /** What a line adds to the cart total. */
  function LineAmount(item: CartItem): int {
    item.priceAtAddition * item.quantity
  }

  /** Σ priceAtAddition × quantity over the lines, folded from the left as the controllers' `reduce` does. */
  function Total(items: seq<CartItem>): int {
    if items == [] then 0 else Total(items[..|items| - 1]) + LineAmount(items[|items| - 1])
  }

  /** The cart has a line for the book. */
  predicate HasBook(items: seq<CartItem>, bookId: int) {
    exists j :: 0 <= j < |items| && items[j].bookId == bookId
  }

  /** At most one line per book. */
  predicate OneLinePerBook(items: seq<CartItem>) {
    forall i, j :: 0 <= i < j < |items| ==> items[i].bookId != items[j].bookId
  }

  /** The ledger invariant of a stored cart. */
  predicate Consistent(cart: Cart) {
    OneLinePerBook(cart.items) && cart.total == Total(cart.items)
  }

  /** `items.find(item => item.bookId === bookId)`, as the index of the first matching line. */
  function FindLine(items: seq<CartItem>, bookId: int): (r: Option<nat>)
    ensures r.Some? ==> r.value < |items| && items[r.value].bookId == bookId
    ensures r.Some? ==> forall j :: 0 <= j < r.value ==> items[j].bookId != bookId
    ensures r.None? <==> !HasBook(items, bookId)
  {
    if items == [] then None
    else if items[0].bookId == bookId then Some(0)
    else
      match FindLine(items[1..], bookId)
      case None =>
        assert forall j :: 1 <= j < |items| ==> items[j] == items[1..][j - 1];
        None
      case Some(k) => Some(k + 1)
  }

  /**
   * The lines after adding `quantity` copies of a book currently priced `price`: the
   * book's line grows and keeps its locked price, or a new line at `price` is appended.
   */
  function AddLine(items: seq<CartItem>, bookId: int, quantity: int, price: int): (r: seq<CartItem>)
    ensures |r| == if HasBook(items, bookId) then |items| else |items| + 1
    ensures HasBook(r, bookId)
    ensures forall j :: 0 <= j < |items| ==>
              r[j].bookId == items[j].bookId && r[j].priceAtAddition == items[j].priceAtAddition
    ensures forall j :: 0 <= j < |items| && items[j].bookId != bookId ==> r[j] == items[j]
    ensures FindLine(items, bookId).Some? ==>
              var i := FindLine(items, bookId).value;
              r[i].quantity == items[i].quantity + quantity &&
              forall j :: 0 <= j < |items| && j != i ==> r[j] == items[j]
    ensures !HasBook(items, bookId) ==> r == items + [CartItem(bookId, quantity, price)]
    ensures OneLinePerBook(items) ==> OneLinePerBook(r)
  {
    match FindLine(items, bookId)
    case Some(i) => items[i := items[i].(quantity := items[i].quantity + quantity)]
    case None =>
      var r := items + [CartItem(bookId, quantity, price)];
      assert r[|items|].bookId == bookId;
      r
  }

  /** The unit price the added copies are charged at: the locked price of the book's line, or the current one. */
  function ChargedPrice(items: seq<CartItem>, bookId: int, price: int): int {
    match FindLine(items, bookId)
    case Some(i) => items[i].priceAtAddition
    case None => price
  }

  /** The lines without line `i`, the others in their order. */
  function RemoveAt(items: seq<CartItem>, i: nat): (r: seq<CartItem>)
    requires i < |items|
    ensures |r| == |items| - 1
    ensures multiset(r) + multiset{items[i]} == multiset(items)
    ensures forall j :: 0 <= j < i ==> r[j] == items[j]
    ensures forall j :: i < j < |items| ==> r[j - 1] == items[j]
  {
    assert items == items[..i] + [items[i]] + items[i + 1..];
    items[..i] + items[i + 1..]
  }

  /** Under the ledger invariant, removing a line leaves no line for its book and keeps the invariant. */
  lemma RemoveAtOneLine(items: seq<CartItem>, i: nat)
    requires i < |items| && OneLinePerBook(items)
    ensures OneLinePerBook(RemoveAt(items, i))
    ensures !HasBook(RemoveAt(items, i), items[i].bookId)
  {
    var r := RemoveAt(items, i);
    forall a, b | 0 <= a < b < |r| ensures r[a].bookId != r[b].bookId {
      var a', b' := if a < i then a else a + 1, if b < i then b else b + 1;
      assert r[a] == items[a'] && r[b] == items[b'];
    }
    forall j | 0 <= j < |r| ensures r[j].bookId != items[i].bookId {
      var j' := if j < i then j else j + 1;
      assert r[j] == items[j'];
    }
  }

  /** Appending a line adds its amount to the total. */
  lemma {:induction false} TotalAppend(items: seq<CartItem>, item: CartItem)
    ensures Total(items + [item]) == Total(items) + LineAmount(item)
  {
    assert (items + [item])[..|items|] == items;
  }

  /** Replacing one line changes the total by the difference of the two lines' amounts. */
  lemma {:induction false} TotalUpdate(items: seq<CartItem>, i: nat, item: CartItem)
    requires i < |items|
    ensures Total(items[i := item]) == Total(items) - LineAmount(items[i]) + LineAmount(item)
  {
    var n := |items| - 1;
    if i == n {
      assert items[i := item][..n] == items[..n];
    } else {
      assert items[i := item][..n] == items[..n][i := item];
      TotalUpdate(items[..n], i, item);
    }
  }

  /** The total of two runs of lines is the sum of their totals. */
  lemma {:induction false} TotalConcat(a: seq<CartItem>, b: seq<CartItem>)
    ensures Total(a + b) == Total(a) + Total(b)
    decreases |b|
  {
    if b == [] {
      assert a + b == a;
    } else {
      var n := |b| - 1;
      assert (a + b)[..|a + b| - 1] == a + b[..n];
      TotalConcat(a, b[..n]);
    }
  }

  /** Taking one line out of the middle takes its amount off the total. */
  lemma {:induction false} TotalSplit(front: seq<CartItem>, item: CartItem, back: seq<CartItem>)
    ensures Total(front + [item] + back) == Total(front + back) + LineAmount(item)
  {
    TotalConcat(front, back);
    TotalConcat(front + [item], back);
    TotalAppend(front, item);
  }

  /** Removing one line takes its amount off the total. */
  lemma {:induction false} TotalRemove(items: seq<CartItem>, i: nat)
    requires i < |items|
    ensures Total(RemoveAt(items, i)) == Total(items) - LineAmount(items[i])
  {
    var front, back := items[..i], items[i + 1..];
    assert Total(items) == Total(front + [items[i]] + back) by {
      assert items == front + [items[i]] + back;
    }
    TotalSplit(front, items[i], back);
  }

  /** Adding copies of a book raises the total by their number times the price they are charged at. */
  lemma AddLineTotal(items: seq<CartItem>, bookId: int, quantity: int, price: int)
    ensures Total(AddLine(items, bookId, quantity, price))
         == Total(items) + ChargedPrice(items, bookId, price) * quantity
  {
    match FindLine(items, bookId)
    case Some(i) =>
      var line := items[i];
      TotalUpdate(items, i, line.(quantity := line.quantity + quantity));
      assert line.priceAtAddition * (line.quantity + quantity)
          == line.priceAtAddition * line.quantity + line.priceAtAddition * quantity;
    case None =>
      TotalAppend(items, CartItem(bookId, quantity, price));
  }

  /** The lines after `updateCartItem` sets line `i` to `quantity`; a quantity of 0 deletes the line. */
  function SetLineQuantity(items: seq<CartItem>, i: nat, quantity: int): seq<CartItem>
    requires i < |items|
  {
    if quantity == 0 then RemoveAt(items, i) else items[i := items[i].(quantity := quantity)]
  }

  /**
   * Setting a line's quantity keeps one line per book, and the total moves by the line's
   * locked price times the new quantity, less its old amount (deletion is the case 0).
   */
  lemma SetLineQuantityTotal(items: seq<CartItem>, i: nat, quantity: int)
    requires i < |items| && OneLinePerBook(items)
    ensures OneLinePerBook(SetLineQuantity(items, i, quantity))
    ensures Total(SetLineQuantity(items, i, quantity))
         == Total(items) - LineAmount(items[i]) + items[i].priceAtAddition * quantity
  {
    if quantity == 0 {
      RemoveAtOneLine(items, i);
      TotalRemove(items, i);
    } else {
      var r := SetLineQuantity(items, i, quantity);
      assert forall j :: 0 <= j < |items| ==> r[j].bookId == items[j].bookId;
      TotalUpdate(items, i, items[i].(quantity := quantity));
    }
  }

  /**
   * The total does not depend on the order of the lines. The store's `findMany` returns
   * the cart's lines in no promised order, and the model folds them in creation order;
   * this lemma makes the two `reduce`s agree.
   */
  lemma {:induction false} TotalPermutation(a: seq<CartItem>, b: seq<CartItem>)
    requires multiset(a) == multiset(b)
    ensures Total(a) == Total(b)
    decreases |a|
  {
    if a == [] {
      assert |b| == |multiset(b)| == 0;
    } else {
      var n := |a| - 1;
      assert a == a[..n] + [a[n]];
      assert a[n] in multiset(b);
      var i :| 0 <= i < |b| && b[i] == a[n];
      var front, rest, last := multiset(a[..n]), multiset(RemoveAt(b, i)), multiset{a[n]};
      assert multiset(a) == front + last;
      assert multiset(b) == rest + last;
      forall v ensures front[v] == rest[v] {
        assert (front + last)[v] == (rest + last)[v];
      }
      assert front == rest;
      TotalPermutation(a[..n], RemoveAt(b, i));
      TotalRemove(b, i);
    }
  }

  /** A cart row whose total is recomputed from its lines, as every mutation stores it. */
  function Recomputed(items: seq<CartItem>): Cart {
    Cart(Total(items), items)
  }

  /** The session's stored cart, if it has one. */
  function Row(carts: map<string, Cart>, sessionId: string): Option<Cart> {
    if sessionId in carts then Some(carts[sessionId]) else None
  }

  /**
   * The cart a successful `addToCart` leaves: a new cart holding one line at the
   * current price, or the old lines with the book added and the total recomputed.
   */
  function CartAfterAdd(row: Option<Cart>, bookId: int, quantity: int, price: int): Cart {
    match row
    case None => Cart(price * quantity, [CartItem(bookId, quantity, price)])
    case Some(cart) => Recomputed(AddLine(cart.items, bookId, quantity, price))
  }

  /**
   * Adding keeps the ledger invariant, and the new total is the old one plus the copies
   * added times the price they are charged at (the locked one when the book has a line).
   */
  lemma CartAfterAddConsistent(row: Option<Cart>, bookId: int, quantity: int, price: int)
    requires row.Some? ==> Consistent(row.value)
    ensures Consistent(CartAfterAdd(row, bookId, quantity, price))
    ensures CartAfterAdd(row, bookId, quantity, price).total
         == (if row.Some? then row.value.total + ChargedPrice(row.value.items, bookId, price) * quantity
             else price * quantity)
  {
    match row
    case None =>
      TotalAppend([], CartItem(bookId, quantity, price));
    case Some(cart) =>
      AddLineTotal(cart.items, bookId, quantity, price);
  }

  /** The carts of all sessions, over a catalog of book prices in cents. */
  class Store {
    var catalog: map<int, int>
    var carts: map<string, Cart>

    ghost predicate Valid()
      reads this
    {
      forall s :: s in carts ==> Consistent(carts[s])
    }

    constructor (catalog: map<int, int>)
      ensures Valid()
      ensures this.catalog == catalog && carts == map[]
    {
      this.catalog := catalog;
      carts := map[];
    }

    /** `getCart`: the session's cart, or an empty one; a missing cart is not an error. */
    method GetCart(sessionId: string) returns (status: Status, cart: Cart)
      requires Valid()
      ensures status == Ok200
      ensures sessionId in carts ==> cart == carts[sessionId]
      ensures sessionId !in carts ==> cart.items == [] && cart.total == 0
      ensures Consistent(cart)
    {
      if sessionId !in carts {
        return Ok200, Cart(0, []);
      }
      return Ok200, carts[sessionId];
    }

    /**
     * `addToCart`: 400 without a (truthy) book id, 404 for a book not in the catalog;
     * otherwise the session's cart is created with a single line, or the book's line
     * grows, or a line is appended, and the total is recomputed.
     */
    method AddToCart(sessionId: string, bookId: Option<int>, quantity: QuantityInput)
      returns (status: Status, cart: Option<Cart>)
      requires Valid()
      modifies this
      ensures Valid() && catalog == old(catalog)
      ensures status == BadRequest400 <==> bookId.None? || bookId.value == 0
      ensures status == NotFound404 <==> bookId.Some? && bookId.value != 0 && bookId.value !in catalog
      ensures status != BadRequest400 && status != NotFound404 ==> status == Ok200
      ensures status != Ok200 ==> carts == old(carts) && cart.None?
      ensures status == Ok200 ==>
                var added := CartAfterAdd(Row(old(carts), sessionId), bookId.value,
                                          QuantityToAdd(quantity), catalog[bookId.value]);
                carts == old(carts)[sessionId := added] && cart == Some(added)
    {
      if bookId.None? || bookId.value == 0 {
        return BadRequest400, None;
      }
      var id := bookId.value;
      if id !in catalog {
        return NotFound404, None;
      }
      var price := catalog[id];
      var q := QuantityToAdd(quantity);
      ghost var before := carts;
      ghost var added := CartAfterAdd(Row(carts, sessionId), id, q, price);
      CartAfterAddConsistent(Row(carts, sessionId), id, q, price);
      if sessionId !in carts {
        carts := carts[sessionId := Cart(price * q, [CartItem(id, q, price)])];
      } else {
        var row := carts[sessionId];
        var items := AddLine(row.items, id, q, price);
        carts := carts[sessionId := row.(items := items)];
        var newTotal := Total(items);
        assert Cart(newTotal, items) == added;
        carts := carts[sessionId := Cart(newTotal, items)];
      }
      assert carts == before[sessionId := added];
      return Ok200, Some(carts[sessionId]);
    }

    /**
     * `updateCartItem`: 400 for a missing, zero or negative quantity before any lookup,
     * then 404 for a missing cart or a book without a line; otherwise the line's quantity
     * is set verbatim (a quantity parsing to 0 deletes it) and the total is recomputed.
     */
    method UpdateCartItem(sessionId: string, bookId: int, quantity: QuantityInput)
      returns (status: Status, cart: Option<Cart>)
      requires Valid()
      modifies this
      ensures Valid() && catalog == old(catalog)
      ensures status == BadRequest400 <==> RejectedQuantity(quantity)
      ensures status == NotFound404 <==>
                !RejectedQuantity(quantity) &&
                (sessionId !in old(carts) || !HasBook(old(carts[sessionId].items), bookId))
      ensures status != BadRequest400 && status != NotFound404 ==> status == Ok200
      ensures status != Ok200 ==> carts == old(carts) && cart.None?
      ensures status == Ok200 ==>
                var items := old(carts[sessionId].items);
                var updated := Recomputed(SetLineQuantity(items, FindLine(items, bookId).value,
                                                          ParsedQuantity(quantity)));
                carts == old(carts)[sessionId := updated] && cart == Some(updated)
    {
      if RejectedQuantity(quantity) {
        return BadRequest400, None;
      }
      if sessionId !in carts {
        return NotFound404, None;
      }
      var row := carts[sessionId];
      var found := FindLine(row.items, bookId);
      if found.None? {
        return NotFound404, None;
      }
      var i := found.value;
      var q := ParsedQuantity(quantity);
      SetLineQuantityTotal(row.items, i, q);
      var items := SetLineQuantity(row.items, i, q);
      var newTotal := Total(items);
      carts := carts[sessionId := Cart(newTotal, items)];
      return Ok200, Some(carts[sessionId]);
    }

    /** `removeFromCart`: 404 for a missing cart or line; otherwise only that line goes and the total is recomputed. */
    method RemoveFromCart(sessionId: string, bookId: int) returns (status: Status, cart: Option<Cart>)
      requires Valid()
      modifies this
      ensures Valid() && catalog == old(catalog)
      ensures status == NotFound404 <==> sessionId !in old(carts) || !HasBook(old(carts[sessionId].items), bookId)
      ensures status != NotFound404 ==> status == Ok200
      ensures status != Ok200 ==> carts == old(carts) && cart.None?
      ensures status == Ok200 ==>
                var items := old(carts[sessionId].items);
                var remaining := Recomputed(RemoveAt(items, FindLine(items, bookId).value));
                carts == old(carts)[sessionId := remaining] && cart == Some(remaining)
    {
      if sessionId !in carts {
        return NotFound404, None;
      }
      var row := carts[sessionId];
      var found := FindLine(row.items, bookId);
      if found.None? {
        return NotFound404, None;
      }
      RemoveAtOneLine(row.items, found.value);
      var items := RemoveAt(row.items, found.value);
      var newTotal := Total(items);
      carts := carts[sessionId := Cart(newTotal, items)];
      return Ok200, Some(carts[sessionId]);
    }

    /** `clearCart`: 404 for a missing cart; otherwise the cart is left with no lines and total 0. */
    method ClearCart(sessionId: string) returns (status: Status, cart: Option<Cart>)
      requires Valid()
      modifies this
      ensures Valid() && catalog == old(catalog)
      ensures status == NotFound404 <==> sessionId !in old(carts)
      ensures status != NotFound404 ==> status == Ok200
      ensures status != Ok200 ==> carts == old(carts) && cart.None?
      ensures status == Ok200 ==>
                carts == old(carts)[sessionId := Cart(0, [])] && cart == Some(Cart(0, []))
    {
      if sessionId !in carts {
        return NotFound404, None;
      }
      carts := carts[sessionId := carts[sessionId].(items := [])];
      carts := carts[sessionId := carts[sessionId].(total := 0)];
      return Ok200, Some(carts[sessionId]);
    }
  }

  /**
   * A client of the ledger: a book at 300 cents is added twice, its catalog price then
   * changes, and a third add is still charged at the locked 300; the line is then set
   * to one copy, a quantity of 0 is refused, and the line is removed.
   */
  method PriceLockScenario() {
    var store := new Store(map[10 := 300]);
    var status, empty := store.GetCart("s1");
    assert empty == Cart(0, []);
    var cart;
    status, cart := store.AddToCart("s1", Some(10), Num(2));
    assert cart == Some(Cart(600, [CartItem(10, 2, 300)]));
    status, cart := store.AddToCart("s1", Some(10), Absent);
    assert cart.value.items == [CartItem(10, 3, 300)];
    assert cart.value.total == 900;
    store.catalog := map[10 := 700];
    status, cart := store.AddToCart("s1", Some(10), Num(1));
    assert cart.value.items == [CartItem(10, 4, 300)];
    assert cart.value.total == 1200;
    status, cart := store.UpdateCartItem("s1", 10, Num(1));
    assert cart.value.items == [CartItem(10, 1, 300)];
    assert cart.value.total == 300;
    status, cart := store.UpdateCartItem("s1", 10, Num(0));
    assert status == BadRequest400;
    status, cart := store.RemoveFromCart("s1", 10);
    assert cart == Some(Cart(0, []));
  }
}
