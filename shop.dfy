/**
 * The shop controllers: the book catalog with its admin edits, and order placement,
 * which resolves every requested book or none, snapshots each book's numeric price
 * into the order line and stores the computed total.
 */
module Shop {
  import opened Optional
  import opened Http
  import opened JsValues
  import opened Distinct

  /** The order statuses of the fixed whitelist. */
  datatype OrderStatus = Pending | Confirmed | Shipped | Delivered | Cancelled

  /** The whitelist of `updateOrderStatus`, in its order. */
  const ValidStatuses: seq<string> := ["PENDING", "CONFIRMED", "SHIPPED", "DELIVERED", "CANCELLED"]

  /** `validStatuses.includes(status)`, giving the status the string names when it does. */
  function ParseStatus(s: string): (r: Option<OrderStatus>)
    ensures r.Some? <==> s in ValidStatuses
  {
    if s == "PENDING" then Some(Pending)
    else if s == "CONFIRMED" then Some(Confirmed)
    else if s == "SHIPPED" then Some(Shipped)
    else if s == "DELIVERED" then Some(Delivered)
    else if s == "CANCELLED" then Some(Cancelled)
    else None
  }

  /** The name a status is stored and sent under; it is on the whitelist and parses back to the status. */
  function StatusName(st: OrderStatus): (s: string)
    ensures s in ValidStatuses
    ensures ParseStatus(s) == Some(st)
  {
    match st
    case Pending => "PENDING"
    case Confirmed => "CONFIRMED"
    case Shipped => "SHIPPED"
    case Delivered => "DELIVERED"
    case Cancelled => "CANCELLED"
  }

  /** A whitelisted string is the name of the status it parses to. */
  lemma ParseStatusName(s: string)
    requires s in ValidStatuses
    ensures ParseStatus(s).Some? && StatusName(ParseStatus(s).value) == s
  {
  }

  /** A catalog book; `numericPrice` is the price in cents that orders are charged. */
  datatype Book = Book(title: string, author: string, publisher: string, price: string,
                       numericPrice: int, image: string, pdfUrl: string)

  /**
   * The book fields of a request body, each possibly absent or null; also the
   * `updateData` object of `updateBook`, where a field is `Some` when it is set.
   */
  datatype BookFields = BookFields(title: Option<string>, author: Option<string>,
                                   publisher: Option<string>, price: Option<string>,
                                   numericPrice: Option<int>, image: Option<string>,
                                   pdfUrl: Option<string>)

  /** `createBook`'s guard: all seven fields are truthy. */
  predicate AllFieldsPresent(f: BookFields) {
    Truthy(f.title) && Truthy(f.author) && Truthy(f.publisher) && Truthy(f.price) &&
    TruthyNum(f.numericPrice) && Truthy(f.image) && Truthy(f.pdfUrl)
  }

  /** What the store does with `data: updateData`: the fields set replace the book's, the rest stay. */
  function ApplyChanges(b: Book, c: BookFields): Book {
    Book(if c.title.Some? then c.title.value else b.title,
         if c.author.Some? then c.author.value else b.author,
         if c.publisher.Some? then c.publisher.value else b.publisher,
         if c.price.Some? then c.price.value else b.price,
         if c.numericPrice.Some? then c.numericPrice.value else b.numericPrice,
         if c.image.Some? then c.image.value else b.image,
         if c.pdfUrl.Some? then c.pdfUrl.value else b.pdfUrl)
  }

  /**
   * `updateBook`'s construction of `updateData`: each field is copied when the request
   * gives it a truthy value and left unset otherwise.
   */
  method BuildUpdateData(f: BookFields) returns (data: BookFields)
    ensures data.title.Some? <==> Truthy(f.title)
    ensures data.author.Some? <==> Truthy(f.author)
    ensures data.publisher.Some? <==> Truthy(f.publisher)
    ensures data.price.Some? <==> Truthy(f.price)
    ensures data.numericPrice.Some? <==> TruthyNum(f.numericPrice)
    ensures data.image.Some? <==> Truthy(f.image)
    ensures data.pdfUrl.Some? <==> Truthy(f.pdfUrl)
    ensures data.title.Some? ==> data.title == f.title
    ensures data.author.Some? ==> data.author == f.author
    ensures data.publisher.Some? ==> data.publisher == f.publisher
    ensures data.price.Some? ==> data.price == f.price
    ensures data.numericPrice.Some? ==> data.numericPrice == f.numericPrice
    ensures data.image.Some? ==> data.image == f.image
    ensures data.pdfUrl.Some? ==> data.pdfUrl == f.pdfUrl
  {
    data := BookFields(None, None, None, None, None, None, None);
    if Truthy(f.title) { data := data.(title := f.title); }
    if Truthy(f.author) { data := data.(author := f.author); }
    if Truthy(f.publisher) { data := data.(publisher := f.publisher); }
    if Truthy(f.price) { data := data.(price := f.price); }
    if TruthyNum(f.numericPrice) { data := data.(numericPrice := f.numericPrice); }
    if Truthy(f.image) { data := data.(image := f.image); }
    if Truthy(f.pdfUrl) { data := data.(pdfUrl := f.pdfUrl); }
  }

  /** A requested order line. */
  datatype ItemRequest = ItemRequest(bookId: int, quantity: int)

  /** A stored order line: the book, the quantity asked for and the unit price charged. */
  datatype OrderItem = OrderItem(bookId: int, quantity: int, price: int)

  datatype Order = Order(customerName: Option<string>, customerEmail: Option<string>,
                         totalAmount: int, items: seq<OrderItem>, status: OrderStatus)

  /** Σ price × quantity over the order lines. */
  function OrderTotal(items: seq<OrderItem>): int {
    if items == [] then 0
    else OrderTotal(items[..|items| - 1]) + items[|items| - 1].price * items[|items| - 1].quantity
  }

  /** `items.map(item => item.bookId)` */
  function BookIds(reqs: seq<ItemRequest>): (ids: seq<int>)
    ensures |ids| == |reqs| && forall k :: 0 <= k < |reqs| ==> ids[k] == reqs[k].bookId
  {
    seq(|reqs|, k requires 0 <= k < |reqs| => reqs[k].bookId)
  }

  /** The ids of the books `findMany({ where: { id: { in: ids } } })` returns: each found book once. */
  function FoundIds(ids: seq<int>, books: map<int, Book>): set<int> {
    set id | id in ids && id in books
  }

  /**
   * The count check of `createOrder`: the store returns at most one book per requested
   * id, and exactly as many as were requested only when every id is known and none is
   * repeated, so an unknown or a repeated id both fail the check.
   */
  lemma {:induction false} FoundIdsCount(ids: seq<int>, books: map<int, Book>)
    ensures |FoundIds(ids, books)| <= |ids|
    ensures |FoundIds(ids, books)| == |ids| <==>
              NoDuplicates(ids) && forall k :: 0 <= k < |ids| ==> ids[k] in books
  {
    if ids != [] {
      var x, rest := ids[0], ids[1..];
      FoundIdsCount(rest, books);
      assert forall id :: id in ids <==> id == x || id in rest;
      if x in books && x !in rest {
        assert FoundIds(ids, books) == FoundIds(rest, books) + {x};
        assert NoDuplicates(ids) <==> NoDuplicates(rest) by {
          if NoDuplicates(rest) {
            forall j, k | 0 <= j < k < |ids| ensures ids[j] != ids[k] {
              if j > 0 { assert ids[j] == rest[j - 1] && ids[k] == rest[k - 1]; }
              else { assert ids[k] == rest[k - 1]; }
            }
          }
          if NoDuplicates(ids) {
            forall j, k | 0 <= j < k < |rest| ensures rest[j] != rest[k] {
              assert rest[j] == ids[j + 1] && rest[k] == ids[k + 1];
            }
          }
        }
        assert (forall k :: 0 <= k < |ids| ==> ids[k] in books)
           <==> (forall k :: 0 <= k < |rest| ==> rest[k] in books) by {
          forall k | 0 <= k < |rest| ensures rest[k] == ids[k + 1] { }
          forall k | 0 < k < |ids| ensures ids[k] == rest[k - 1] { }
        }
      } else {
        assert FoundIds(ids, books) == FoundIds(rest, books);
        if x in rest {
          var k :| 0 <= k < |rest| && rest[k] == x;
          assert ids[0] == ids[k + 1];
        } else {
          assert ids[0] !in books;
        }
      }
    }
  }

  /**
   * The `items.map` of `createOrder`: each line copies the requested book id and quantity
   * and takes the book's numeric price, while `totalAmount` accumulates price × quantity.
   * The guard before it has made sure every requested book is in the catalog.
   */
  method PriceItems(reqs: seq<ItemRequest>, books: map<int, Book>)
    returns (orderItems: seq<OrderItem>, totalAmount: int)
    requires forall k :: 0 <= k < |reqs| ==> reqs[k].bookId in books
    ensures |orderItems| == |reqs|
    ensures forall k :: 0 <= k < |reqs| ==>
              orderItems[k] == OrderItem(reqs[k].bookId, reqs[k].quantity, books[reqs[k].bookId].numericPrice)
    ensures totalAmount == OrderTotal(orderItems)
  {
    orderItems, totalAmount := [], 0;
    var k := 0;
    while k < |reqs|
      invariant 0 <= k <= |reqs| && |orderItems| == k
      invariant forall j :: 0 <= j < k ==>
                  orderItems[j] == OrderItem(reqs[j].bookId, reqs[j].quantity, books[reqs[j].bookId].numericPrice)
      invariant totalAmount == OrderTotal(orderItems)
    {
      var book := books[reqs[k].bookId];
      var itemTotal := book.numericPrice * reqs[k].quantity;
      totalAmount := totalAmount + itemTotal;
      var item := OrderItem(reqs[k].bookId, reqs[k].quantity, book.numericPrice);
      assert (orderItems + [item])[..k] == orderItems;
      orderItems := orderItems + [item];
      k := k + 1;
    }
  }

  /** The book and order tables; ids are assigned by increasing counters, as the store's autoincrement does. */
  class Shop {
    var books: map<int, Book>
    var orders: map<int, Order>
    var nextBookId: int
    var nextOrderId: int

    ghost predicate Valid()
      reads this
    {
      (forall id :: id in books ==> id < nextBookId) &&
      (forall id :: id in orders ==> id < nextOrderId)
    }

    constructor (books: map<int, Book>, nextBookId: int)
      requires forall id :: id in books ==> id < nextBookId
      ensures Valid()
      ensures this.books == books && this.nextBookId == nextBookId
      ensures orders == map[] && nextOrderId == 1
    {
      this.books := books;
      this.nextBookId := nextBookId;
      orders := map[];
      nextOrderId := 1;
    }

    /** `getBookById`: the book, or 404 for an unknown id. */
    method GetBookById(id: int) returns (status: Status, book: Option<Book>)
      ensures status == Ok200 <==> id in books
      ensures status != Ok200 ==> status == NotFound404 && book.None?
      ensures status == Ok200 ==> book == Some(books[id])
    {
      if id !in books {
        return NotFound404, None;
      }
      return Ok200, Some(books[id]);
    }

    /**
     * `createOrder`: 400 for a missing or empty item list, and 400 when the books found
     * are fewer than the ids requested; otherwise an order with one priced line per
     * requested item and the computed total is stored under a new id.
     */
    method CreateOrder(customerName: Option<string>, customerEmail: Option<string>,
                       items: Option<seq<ItemRequest>>)
      returns (status: Status, order: Option<Order>)
      requires Valid()
      modifies this
      ensures Valid()
      ensures books == old(books) && nextBookId == old(nextBookId)
      ensures status == BadRequest400 <==>
                items.None? || |items.value| == 0 || !NoDuplicates(BookIds(items.value)) ||
                exists k :: 0 <= k < |items.value| && items.value[k].bookId !in books
      ensures status != BadRequest400 ==> status == Created201
      ensures status == BadRequest400 ==>
                orders == old(orders) && nextOrderId == old(nextOrderId) && order.None?
      ensures status == Created201 ==>
                var reqs, id := items.value, old(nextOrderId);
                order.Some? && id !in old(orders) &&
                orders == old(orders)[id := order.value] && nextOrderId == id + 1 &&
                order.value.customerName == customerName &&
                order.value.customerEmail == customerEmail &&
                order.value.status == Pending &&
                |order.value.items| == |reqs| &&
                (forall k :: 0 <= k < |reqs| ==>
                   order.value.items[k] == OrderItem(reqs[k].bookId, reqs[k].quantity,
                                                     books[reqs[k].bookId].numericPrice)) &&
                order.value.totalAmount == OrderTotal(order.value.items)
    {
      if items.None? || |items.value| == 0 {
        return BadRequest400, None;
      }
      var reqs := items.value;
      var bookIds := BookIds(reqs);
      var found := FoundIds(bookIds, books);
      FoundIdsCount(bookIds, books);
      if |found| != |bookIds| {
        return BadRequest400, None;
      }
      var orderItems, totalAmount := PriceItems(reqs, books);
      var created := Order(customerName, customerEmail, totalAmount, orderItems, Pending);
      orders := orders[nextOrderId := created];
      nextOrderId := nextOrderId + 1;
      return Created201, Some(created);
    }

    /** `updateOrderStatus`: 400 for a status off the whitelist before any lookup, 404 for an unknown order. */
    method UpdateOrderStatus(id: int, newStatus: string) returns (status: Status, order: Option<Order>)
      requires Valid()
      modifies this
      ensures Valid()
      ensures books == old(books) && nextBookId == old(nextBookId) && nextOrderId == old(nextOrderId)
      ensures status == BadRequest400 <==> newStatus !in ValidStatuses
      ensures status == NotFound404 <==> newStatus in ValidStatuses && id !in old(orders)
      ensures status != BadRequest400 && status != NotFound404 ==> status == Ok200
      ensures status != Ok200 ==> orders == old(orders) && order.None?
      ensures status == Ok200 ==>
                var updated := old(orders[id]).(status := ParseStatus(newStatus).value);
                StatusName(updated.status) == newStatus &&
                orders == old(orders)[id := updated] && order == Some(updated)
    {
      var parsed := ParseStatus(newStatus);
      if parsed.None? {
        return BadRequest400, None;
      }
      ParseStatusName(newStatus);
      if id !in orders {
        return NotFound404, None;
      }
      var updated := orders[id].(status := parsed.value);
      orders := orders[id := updated];
      return Ok200, Some(updated);
    }

    /** `createBook`: 400 unless all seven fields are truthy; otherwise the book is stored under a new id. */
    method CreateBook(fields: BookFields) returns (status: Status, book: Option<Book>)
      requires Valid()
      modifies this
      ensures Valid()
      ensures orders == old(orders) && nextOrderId == old(nextOrderId)
      ensures status == Created201 <==> AllFieldsPresent(fields)
      ensures status != Created201 ==> status == BadRequest400
      ensures status == BadRequest400 ==>
                books == old(books) && nextBookId == old(nextBookId) && book.None?
      ensures status == Created201 ==>
                var created := Book(fields.title.value, fields.author.value, fields.publisher.value,
                                    fields.price.value, fields.numericPrice.value,
                                    fields.image.value, fields.pdfUrl.value);
                old(nextBookId) !in old(books) &&
                books == old(books)[old(nextBookId) := created] &&
                nextBookId == old(nextBookId) + 1 && book == Some(created)
    {
      if !AllFieldsPresent(fields) {
        return BadRequest400, None;
      }
      var created := Book(fields.title.value, fields.author.value, fields.publisher.value,
                          fields.price.value, fields.numericPrice.value,
                          fields.image.value, fields.pdfUrl.value);
      books := books[nextBookId := created];
      nextBookId := nextBookId + 1;
      return Created201, Some(created);
    }

    /**
     * `updateBook`: 404 for an unknown id; otherwise each field the request gives a
     * truthy value is replaced and every other field keeps its value.
     */
    method UpdateBook(id: int, fields: BookFields) returns (status: Status, book: Option<Book>)
      requires Valid()
      modifies this
      ensures Valid()
      ensures orders == old(orders) && nextOrderId == old(nextOrderId) && nextBookId == old(nextBookId)
      ensures status == NotFound404 <==> id !in old(books)
      ensures status != NotFound404 ==> status == Ok200
      ensures status == NotFound404 ==> books == old(books) && book.None?
      ensures status == Ok200 ==>
                var was := old(books[id]);
                book.Some? && books == old(books)[id := book.value] &&
                book.value.title == (if Truthy(fields.title) then fields.title.value else was.title) &&
                book.value.author == (if Truthy(fields.author) then fields.author.value else was.author) &&
                book.value.publisher
                  == (if Truthy(fields.publisher) then fields.publisher.value else was.publisher) &&
                book.value.price == (if Truthy(fields.price) then fields.price.value else was.price) &&
                book.value.numericPrice
                  == (if TruthyNum(fields.numericPrice) then fields.numericPrice.value else was.numericPrice) &&
                book.value.image == (if Truthy(fields.image) then fields.image.value else was.image) &&
                book.value.pdfUrl == (if Truthy(fields.pdfUrl) then fields.pdfUrl.value else was.pdfUrl)
    {
      var data := BuildUpdateData(fields);
      if id !in books {
        return NotFound404, None;
      }
      var updated := ApplyChanges(books[id], data);
      books := books[id := updated];
      return Ok200, Some(updated);
    }

    /** `deleteBook`: 404 for an unknown id; otherwise only that book is removed. */
    method DeleteBook(id: int) returns (status: Status)
      requires Valid()
      modifies this
      ensures Valid()
      ensures orders == old(orders) && nextOrderId == old(nextOrderId) && nextBookId == old(nextBookId)
      ensures status == NotFound404 <==> id !in old(books)
      ensures status != NotFound404 ==> status == Ok200
      ensures status == NotFound404 ==> books == old(books)
      ensures status == Ok200 ==> books == old(books) - {id}
    {
      if id !in books {
        return NotFound404;
      }
      books := books - {id};
      return Ok200;
    }
  }

  /**
   * A client of the shop: an order naming an unknown book, or the same book twice, is
   * refused and stores nothing; a valid one stores the snapshotted prices and their total.
   */
  method OrderScenario() {
    var novel := Book("Novel", "Ann", "Pub", "$3.00", 300, "n.png", "n.pdf");
    var shop := new Shop(map[1 := novel], 2);
    var status, order := shop.CreateOrder(None, None, Some([ItemRequest(1, 2), ItemRequest(999, 1)]));
    assert status == BadRequest400 && shop.orders == map[];
    status, order := shop.CreateOrder(None, None, Some([ItemRequest(1, 2), ItemRequest(1, 1)]));
    assert BookIds([ItemRequest(1, 2), ItemRequest(1, 1)])[0] == BookIds([ItemRequest(1, 2), ItemRequest(1, 1)])[1];
    assert status == BadRequest400 && shop.orders == map[];
    status, order := shop.CreateOrder(Some("Bo"), None, Some([ItemRequest(1, 2)]));
    assert order.value.items == [OrderItem(1, 2, 300)];
    assert order.value.totalAmount == 600;
    status, order := shop.UpdateOrderStatus(1, "SHIPPED");
    assert order.value.status == Shipped;
    status, order := shop.UpdateOrderStatus(1, "LOST");
    assert status == BadRequest400;
  }
}
