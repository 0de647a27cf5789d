/**
 * The library catalog: a list of Book objects in the order they were added,
 * looked up by exact title (first match wins), and a per-book availability
 * flag that borrowing clears and returning sets. Every failure that the
 * source raises as a ValueError is an `Err` here, with nothing changed.
 */
module Library {
  import opened Wrappers

  class Book {
    const title: string
    const author: string
    const isbn: string
    const genre: string
    var availability: bool

    /** The source's `availability` argument defaults to True. */
    constructor (title: string, author: string, isbn: string, genre: string, availability: bool := true)
      ensures this.title == title && this.author == author && this.isbn == isbn && this.genre == genre
      ensures this.availability == availability
    {
      this.title := title;
      this.author := author;
      this.isbn := isbn;
      this.genre := genre;
      this.availability := availability;
    }
  }

  datatype CatalogError = NotFound | AlreadyBorrowed | AlreadyAvailable

  /** The position of the first book titled exactly `title`, or `|books|` when there is none. */
  function FirstTitled(books: seq<Book>, title: string): (i: nat)
    ensures i <= |books|
    ensures i < |books| ==> books[i].title == title
    ensures forall j :: 0 <= j < i ==> books[j].title != title
  {
    if books == [] then 0
    else if books[0].title == title then 0
    else 1 + FirstTitled(books[1..], title)
  }

  /**
   * Adding a book never changes which book an existing title finds; a title
   * not yet catalogued finds the new book exactly when it carries that title.
   */
  lemma {:induction false} FirstTitledAppend(books: seq<Book>, book: Book, title: string)
    ensures FirstTitled(books, title) < |books| ==> FirstTitled(books + [book], title) == FirstTitled(books, title)
    ensures FirstTitled(books, title) == |books| ==>
              (FirstTitled(books + [book], title) == |books| <==> book.title == title)
  {
    if books != [] {
      assert (books + [book])[1..] == books[1..] + [book];
      FirstTitledAppend(books[1..], book, title);
    }
  }

  /** Every book of `books` has the availability it had in the previous state. */
  twostate predicate AvailabilityUnchanged(books: seq<Book>)
    reads books
  {
    forall b :: b in books ==> b.availability == old(b.availability)
  }

  class LibraryCatalog {
    var books: seq<Book>

    constructor ()
      ensures books == []
    {
      books := [];
    }

    /** Appends at the end, with no check for a book or title already present. */
    method AddBook(book: Book)
      modifies this
      ensures books == old(books) + [book]
    {
      books := books + [book];
    }

    /** The first book, in insertion order, whose title equals `title`; NotFound when none does. */
    method GetBookDetails(title: string) returns (result: Result<Book, CatalogError>)
      ensures var i := FirstTitled(books, title);
              result == if i < |books| then Ok(books[i]) else Err(NotFound)
    {
      var i := 0;
      while i < |books|
        invariant 0 <= i <= |books|
        invariant forall j :: 0 <= j < i ==> books[j].title != title
      {
        if books[i].title == title {
          return Ok(books[i]);
        }
        i := i + 1;
      }
      return Err(NotFound);
    }

    /** The catalog's books, in the order they were added. */
    method GetAllBooks() returns (all: seq<Book>)
      ensures all == books
    {
      all := books;
    }

    /**
     * Clears the availability of the first book with that title. An unknown
     * title fails with NotFound and a book already out with AlreadyBorrowed,
     * and then no book changes; on success no other book changes.
     */
    method BorrowBook(title: string) returns (outcome: Result<Book, CatalogError>)
      modifies books
      ensures FirstTitled(books, title) == |books| ==> outcome == Err(NotFound) && AvailabilityUnchanged(books)
      ensures var i := FirstTitled(books, title);
              i < |books| && !old(books[i].availability) ==>
                outcome == Err(AlreadyBorrowed) && AvailabilityUnchanged(books)
      ensures var i := FirstTitled(books, title);
              i < |books| && old(books[i].availability) ==>
                outcome == Ok(books[i]) && !books[i].availability
                && forall b :: b in books && b != books[i] ==> b.availability == old(b.availability)
    {
      var found := GetBookDetails(title);
      if found.Err? {
        return found;
      }
      var book := found.value;
      if !book.availability {
        return Err(AlreadyBorrowed);
      }
      book.availability := false;
      return Ok(book);
    }

    /**
     * Sets the availability of the first book with that title. An unknown
     * title fails with NotFound and a book already in with AlreadyAvailable,
     * and then no book changes; on success no other book changes.
     */
    method ReturnBook(title: string) returns (outcome: Result<Book, CatalogError>)
      modifies books
      ensures FirstTitled(books, title) == |books| ==> outcome == Err(NotFound) && AvailabilityUnchanged(books)
      ensures var i := FirstTitled(books, title);
              i < |books| && old(books[i].availability) ==>
                outcome == Err(AlreadyAvailable) && AvailabilityUnchanged(books)
      ensures var i := FirstTitled(books, title);
              i < |books| && !old(books[i].availability) ==>
                outcome == Ok(books[i]) && books[i].availability
                && forall b :: b in books && b != books[i] ==> b.availability == old(b.availability)
    {
      var found := GetBookDetails(title);
      if found.Err? {
        return found;
      }
      var book := found.value;
      if book.availability {
        return Err(AlreadyAvailable);
      }
      book.availability := true;
      return Ok(book);
    }
  }

  /**
   * Borrowing a title and returning it again leaves every book as available
   * as it was; an unknown title fails both times.
   */
  method BorrowThenReturn(catalog: LibraryCatalog, title: string)
    returns (borrowed: Result<Book, CatalogError>, returned: Result<Book, CatalogError>)
    modifies catalog.books
    ensures borrowed.Ok? ==> returned == borrowed && AvailabilityUnchanged(catalog.books)
    ensures borrowed == Err(NotFound) ==> returned == Err(NotFound) && AvailabilityUnchanged(catalog.books)
  {
    borrowed := catalog.BorrowBook(title);
    returned := catalog.ReturnBook(title);
  }

  /**
   * A second borrow of the same title fails, even when a later book with a
   * duplicate title is still available: only the first match is ever used.
   */
  method BorrowTwice(catalog: LibraryCatalog, title: string)
    returns (first: Result<Book, CatalogError>, second: Result<Book, CatalogError>)
    modifies catalog.books
    ensures first.Ok? ==> second == Err(AlreadyBorrowed)
  {
    first := catalog.BorrowBook(title);
    second := catalog.BorrowBook(title);
  }

  /** The module-level demo: neither catalogued book is "The Great Gatsby", so the lookup fails. */
  method Demo() returns (lookup: Result<Book, CatalogError>)
    ensures lookup == Err(NotFound)
  {
    var book1 := new Book("Ghumne mech ma andho manche ", "Aavash Bhattarai", "978074327234", "Classic");
    var book2 := new Book("To Kill a Mockingbird", "Harper Lee", "9780061120084", "Classic");
    var catalog := new LibraryCatalog();
    catalog.AddBook(book1);
    catalog.AddBook(book2);
    lookup := catalog.GetBookDetails("The Great Gatsby");
  }
}
