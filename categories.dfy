/**
 * The categories controller: the list of category names for the filter buttons, a
 * guest-keyed "add to cart" that keeps one line per (book, user) pair, and the admin
 * book edits with their required-field and not-found checks. Book ids are strings here.
 */
module Categories {
  import opened Optional
  import opened Http
  import opened JsValues
  import opened StringOrder
  import opened Distinct

  /** `.map(item => item.category).filter(Boolean)`: the names, with null and empty ones dropped. */
  function NonEmptyNames(rows: seq<Option<string>>): (names: seq<string>)
    ensures forall x :: x in names <==> Some(x) in rows && x != ""
  {
    if rows == [] then []
    else
      assert forall v :: v in rows <==> v == rows[0] || v in rows[1..];
      (if Truthy(rows[0]) then [rows[0].value] else []) + NonEmptyNames(rows[1..])
  }

  /** A name occurs in the filtered list as often as among the rows, and the empty name not at all. */
  lemma {:induction false} NonEmptyNamesCount(rows: seq<Option<string>>, x: string)
    ensures multiset(NonEmptyNames(rows))[x] == if x == "" then 0 else multiset(rows)[Some(x)]
  {
    if rows != [] {
      NonEmptyNamesCount(rows[1..], x);
      assert rows == [rows[0]] + rows[1..];
    }
  }

  /**
   * `getAllCategories` applied to the rows of the distinct, non-null category query:
   * the non-empty names in ascending order.
   */
  function CategoryNames(rows: seq<Option<string>>): (names: seq<string>)
    ensures Sorted(names)
    ensures forall x :: x in names <==> Some(x) in rows && x != ""
    ensures forall x :: multiset(names)[x] == if x == "" then 0 else multiset(rows)[Some(x)]
  {
    var filtered := NonEmptyNames(rows);
    var names := Sort(filtered);
    forall x ensures multiset(names)[x] == if x == "" then 0 else multiset(rows)[Some(x)] {
      NonEmptyNamesCount(rows, x);
    }
    forall x ensures x in names <==> x in filtered {
      assert x in names <==> x in multiset(names);
      assert x in filtered <==> x in multiset(filtered);
    }
    names
  }

  /** The list does not depend on the order the query returned its rows in. */
  lemma CategoryNamesIgnoreRowOrder(rows: seq<Option<string>>, rows': seq<Option<string>>)
    requires multiset(rows) == multiset(rows')
    ensures CategoryNames(rows) == CategoryNames(rows')
  {
    var a, b := CategoryNames(rows), CategoryNames(rows');
    assert forall x :: multiset(a)[x] == multiset(b)[x];
    assert multiset(a) == multiset(b);
    SortedUnique(a, b);
  }

  /** Distinct rows, as the query's `distinct` returns them, give each name once, in strictly ascending order. */
  lemma CategoryNamesDistinct(rows: seq<Option<string>>)
    requires NoDuplicates(rows)
    ensures NoDuplicates(CategoryNames(rows))
  {
    var names := CategoryNames(rows);
    forall i, j | 0 <= i < j < |names| ensures names[i] != names[j] {
      if names[i] == names[j] {
        CountTwo(names, i, j);
        NoDuplicatesCount(rows, Some(names[i]));
      }
    }
  }

  /** A catalog book of this controller; image, pdf and category may be null. */
  datatype Book = Book(title: string, author: string, publisher: string, price: string,
                       image: Option<string>, pdfUrl: Option<string>, category: Option<string>)

  /** The body of `createBook`, each field possibly absent. */
  datatype BookRequest = BookRequest(title: Option<string>, author: Option<string>,
                                     publisher: Option<string>, price: Option<string>,
                                     image: Option<string>, pdfUrl: Option<string>,
                                     category: Option<string>)

  /**
   * The body of `updateBook`, passed to the store as the update data: an outer `None`
   * is a field the body leaves out; a nullable field may be set to null.
   */
  datatype BookPatch = BookPatch(title: Option<string>, author: Option<string>,
                                 publisher: Option<string>, price: Option<string>,
                                 image: Option<Option<string>>, pdfUrl: Option<Option<string>>,
                                 category: Option<Option<string>>)

  /** `createBook`'s guard: title, author, publisher and price are truthy. */
  predicate RequiredFieldsPresent(r: BookRequest) {
    Truthy(r.title) && Truthy(r.author) && Truthy(r.publisher) && Truthy(r.price)
  }

  /** The store's update: the fields the body gives replace the book's, the rest stay. */
  function ApplyPatch(b: Book, p: BookPatch): Book {
    Book(if p.title.Some? then p.title.value else b.title,
         if p.author.Some? then p.author.value else b.author,
         if p.publisher.Some? then p.publisher.value else b.publisher,
         if p.price.Some? then p.price.value else b.price,
         if p.image.Some? then p.image.value else b.image,
         if p.pdfUrl.Some? then p.pdfUrl.value else b.pdfUrl,
         if p.category.Some? then p.category.value else b.category)
  }

  /** A cart row of this controller, keyed by book and user. */
  datatype GuestLine = GuestLine(bookId: string, userId: string, quantity: int)

  /** `userId || 'guest'` */
  function Owner(userId: Option<string>): string {
    OrElse(userId, "guest")
  }

  /** The row is the one for the key. */
  predicate KeyIs(line: GuestLine, bookId: string, userId: string) {
    line.bookId == bookId && line.userId == userId
  }

  /** At most one row per (book, user) key. */
  predicate OneLinePerKey(lines: seq<GuestLine>) {
    forall i, j :: 0 <= i < j < |lines| ==>
      lines[i].bookId != lines[j].bookId || lines[i].userId != lines[j].userId
  }

  /** `cartItem.findFirst({ where: { bookId, userId } })`, as the index of the first matching row. */
  function FindFirst(lines: seq<GuestLine>, bookId: string, userId: string): (r: Option<nat>)
    ensures r.Some? ==> r.value < |lines| && KeyIs(lines[r.value], bookId, userId)
    ensures r.Some? ==> forall j :: 0 <= j < r.value ==> !KeyIs(lines[j], bookId, userId)
    ensures r.None? ==> forall j :: 0 <= j < |lines| ==> !KeyIs(lines[j], bookId, userId)
  {
    if lines == [] then None
    else if KeyIs(lines[0], bookId, userId) then Some(0)
    else
      match FindFirst(lines[1..], bookId, userId)
      case None =>
        assert forall j :: 1 <= j < |lines| ==> lines[j] == lines[1..][j - 1];
        None
      case Some(k) => Some(k + 1)
  }

  /** How many copies of the book the rows hold for the user, over all their rows for that key. */
  function QuantityFor(lines: seq<GuestLine>, bookId: string, userId: string): int {
    if lines == [] then 0
    else
      (if KeyIs(lines[0], bookId, userId) then lines[0].quantity else 0)
      + QuantityFor(lines[1..], bookId, userId)
  }

  /** The rows after `addToCart`: the key's first row grows by `quantity`, or a row for the key is appended. */
  function AddGuestLine(lines: seq<GuestLine>, bookId: string, userId: string, quantity: int): seq<GuestLine> {
    match FindFirst(lines, bookId, userId)
    case Some(i) => lines[i := lines[i].(quantity := lines[i].quantity + quantity)]
    case None => lines + [GuestLine(bookId, userId, quantity)]
  }

  lemma {:induction false} QuantityForUpdate(lines: seq<GuestLine>, i: nat, line: GuestLine,
                                             bookId: string, userId: string)
    requires i < |lines|
    ensures QuantityFor(lines[i := line], bookId, userId)
         == QuantityFor(lines, bookId, userId)
            - (if KeyIs(lines[i], bookId, userId) then lines[i].quantity else 0)
            + (if KeyIs(line, bookId, userId) then line.quantity else 0)
  {
    if i > 0 {
      assert lines[i := line][1..] == lines[1..][i - 1 := line];
      QuantityForUpdate(lines[1..], i - 1, line, bookId, userId);
    } else {
      assert lines[i := line][1..] == lines[1..];
    }
  }

  lemma {:induction false} QuantityForAppend(lines: seq<GuestLine>, line: GuestLine,
                                             bookId: string, userId: string)
    ensures QuantityFor(lines + [line], bookId, userId)
         == QuantityFor(lines, bookId, userId) + (if KeyIs(line, bookId, userId) then line.quantity else 0)
  {
    if lines != [] {
      assert (lines + [line])[1..] == lines[1..] + [line];
      QuantityForAppend(lines[1..], line, bookId, userId);
    } else {
      assert ([line])[1..] == [];
    }
  }

  /**
   * Adding to the cart puts exactly `quantity` more copies under its key and leaves every
   * other key's count alone; it keeps one row per key and adds a row only for a new key.
   */
  lemma AddGuestLineEffect(lines: seq<GuestLine>, bookId: string, userId: string, quantity: int)
    ensures var r := AddGuestLine(lines, bookId, userId, quantity);
      QuantityFor(r, bookId, userId) == QuantityFor(lines, bookId, userId) + quantity &&
      (forall b, u :: b != bookId || u != userId ==> QuantityFor(r, b, u) == QuantityFor(lines, b, u)) &&
      (OneLinePerKey(lines) ==> OneLinePerKey(r)) &&
      |r| == |lines| + (if FindFirst(lines, bookId, userId).None? then 1 else 0)
  {
    var r := AddGuestLine(lines, bookId, userId, quantity);
    match FindFirst(lines, bookId, userId)
    case Some(i) =>
      var line := lines[i].(quantity := lines[i].quantity + quantity);
      forall b, u ensures QuantityFor(r, b, u)
                       == QuantityFor(lines, b, u) + (if b == bookId && u == userId then quantity else 0) {
        QuantityForUpdate(lines, i, line, b, u);
      }
    case None =>
      var line := GuestLine(bookId, userId, quantity);
      forall b, u ensures QuantityFor(r, b, u)
                       == QuantityFor(lines, b, u) + (if b == bookId && u == userId then quantity else 0) {
        QuantityForAppend(lines, line, b, u);
      }
  }

  /** The books of this controller, keyed by string id, and its cart rows. */
  class Catalog {
    var books: map<string, Book>
    var lines: seq<GuestLine>

    ghost predicate Valid()
      reads this
    {
      OneLinePerKey(lines)
    }

    constructor (books: map<string, Book>)
      ensures Valid() && this.books == books && lines == []
    {
      this.books := books;
      lines := [];
    }

    /**
     * `addToCart`: 400 without a truthy book id, 404 for an unknown book; otherwise the
     * row for (book, user or 'guest') grows by the quantity (1 when absent) or is created.
     */
    method AddToCart(bookId: Option<string>, userId: Option<string>, quantity: Option<int>)
      returns (status: Status, line: Option<GuestLine>)
      requires Valid()
      modifies this
      ensures Valid() && books == old(books)
      ensures status == BadRequest400 <==> !Truthy(bookId)
      ensures status == NotFound404 <==> Truthy(bookId) && bookId.value !in books
      ensures status != BadRequest400 && status != NotFound404 ==> status == Created201
      ensures status != Created201 ==> lines == old(lines) && line.None?
      ensures status == Created201 ==>
                var key, owner := bookId.value, Owner(userId);
                var q := if quantity.Some? then quantity.value else 1;
                lines == AddGuestLine(old(lines), key, owner, q) &&
                line.Some? && KeyIs(line.value, key, owner) &&
                line.value.quantity == QuantityFor(old(lines), key, owner) + q
    {
      if !Truthy(bookId) {
        return BadRequest400, None;
      }
      var key := bookId.value;
      if key !in books {
        return NotFound404, None;
      }
      var owner := Owner(userId);
      var q := if quantity.Some? then quantity.value else 1;
      AddGuestLineEffect(lines, key, owner, q);
      var existing := FindFirst(lines, key, owner);
      if existing.Some? {
        var i := existing.value;
        lines := lines[i := lines[i].(quantity := lines[i].quantity + q)];
        line := Some(lines[i]);
        KeyQuantity(lines, i);
      } else {
        lines := lines + [GuestLine(key, owner, q)];
        line := Some(GuestLine(key, owner, q));
        KeyQuantity(lines, |lines| - 1);
      }
      status := Created201;
    }

    /**
     * `createBook`: 400 unless title, author, publisher and price are truthy; otherwise the
     * book is stored under the id the store generates, with falsy image, pdf and category as null.
     */
    method CreateBook(req: BookRequest, newId: string) returns (status: Status, book: Option<Book>)
      requires Valid() && newId !in books
      modifies this
      ensures Valid() && lines == old(lines)
      ensures status == Created201 <==> RequiredFieldsPresent(req)
      ensures status != Created201 ==> status == BadRequest400 && books == old(books) && book.None?
      ensures status == Created201 ==>
                var created := Book(req.title.value, req.author.value, req.publisher.value, req.price.value,
                                    OrNull(req.image), OrNull(req.pdfUrl), OrNull(req.category));
                books == old(books)[newId := created] && book == Some(created)
    {
      if !RequiredFieldsPresent(req) {
        return BadRequest400, None;
      }
      var created := Book(req.title.value, req.author.value, req.publisher.value, req.price.value,
                          OrNull(req.image), OrNull(req.pdfUrl), OrNull(req.category));
      books := books[newId := created];
      return Created201, Some(created);
    }

    /** `updateBook`: 400 for an empty id, 404 for an unknown book; otherwise the body's fields replace the book's. */
    method UpdateBook(id: string, patch: BookPatch) returns (status: Status, book: Option<Book>)
      requires Valid()
      modifies this
      ensures Valid() && lines == old(lines)
      ensures status == BadRequest400 <==> id == ""
      ensures status == NotFound404 <==> id != "" && id !in old(books)
      ensures status != BadRequest400 && status != NotFound404 ==> status == Ok200
      ensures status != Ok200 ==> books == old(books) && book.None?
      ensures status == Ok200 ==>
                var updated := ApplyPatch(old(books[id]), patch);
                books == old(books)[id := updated] && book == Some(updated)
    {
      if id == "" {
        return BadRequest400, None;
      }
      if id !in books {
        return NotFound404, None;
      }
      var updated := ApplyPatch(books[id], patch);
      books := books[id := updated];
      return Ok200, Some(updated);
    }

    /** `deleteBook`: 400 for an empty id, 404 for an unknown book; otherwise only that book is removed. */
    method DeleteBook(id: string) returns (status: Status)
      requires Valid()
      modifies this
      ensures Valid() && lines == old(lines)
      ensures status == BadRequest400 <==> id == ""
      ensures status == NotFound404 <==> id != "" && id !in old(books)
      ensures status != BadRequest400 && status != NotFound404 ==> status == Ok200
      ensures status != Ok200 ==> books == old(books)
      ensures status == Ok200 ==> books == old(books) - {id}
    {
      if id == "" {
        return BadRequest400;
      }
      if id !in books {
        return NotFound404;
      }
      books := books - {id};
      return Ok200;
    }
  }

  /** Under one row per key, a row's quantity is everything its key holds. */
  lemma KeyQuantity(lines: seq<GuestLine>, i: nat)
    requires i < |lines| && OneLinePerKey(lines)
    ensures QuantityFor(lines, lines[i].bookId, lines[i].userId) == lines[i].quantity
  {
    OnlyRow(lines, i, lines[i].bookId, lines[i].userId);
  }

  lemma {:induction false} OnlyRow(lines: seq<GuestLine>, i: nat, bookId: string, userId: string)
    requires i < |lines| && OneLinePerKey(lines) && KeyIs(lines[i], bookId, userId)
    ensures QuantityFor(lines, bookId, userId) == lines[i].quantity
  {
    if i > 0 {
      assert !KeyIs(lines[0], bookId, userId) by { assert lines[0].bookId != lines[i].bookId || lines[0].userId != lines[i].userId; }
      OnlyRow(lines[1..], i - 1, bookId, userId);
    } else {
      NoOtherRow(lines[1..], bookId, userId);
    }
  }

  lemma {:induction false} NoOtherRow(lines: seq<GuestLine>, bookId: string, userId: string)
    requires forall j :: 0 <= j < |lines| ==> !KeyIs(lines[j], bookId, userId)
    ensures QuantityFor(lines, bookId, userId) == 0
  {
    if lines != [] {
      NoOtherRow(lines[1..], bookId, userId);
    }
  }
}
