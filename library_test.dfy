/**
 * The unit tests of library_test.rb as verified client code, and the
 * properties of the Book's due-date operations that hold from any state.
 */
module LibraryTest {
  import opened Wrappers
  import opened Library

  method TestCalendarInit() {
    var cal := new Calendar();
    var d := cal.GetDate();
    assert d == 0;
  }

  method TestCalendarAdvance() {
    var cal := new Calendar();
    var next := cal.Advance();
    var d := cal.GetDate();
    assert next == 1 && d == 1;
  }

  method TestBookFields() {
    var book := new Book(1, "1984", "George Orwell");
    var id := book.GetId();
    var title := book.GetTitle();
    var author := book.GetAuthor();
    var due := book.GetDueDate();
    assert id == 1 && title == "1984" && author == "George Orwell";
    assert due == None;
  }

  method TestBookCheckOut() {
    var cal := new Calendar();
    var book := new Book(1, "1984", "George Orwell");
    var today := cal.GetDate();
    var date := today + 14;
    var _ := book.CheckOut(date);
    var due := book.GetDueDate();
    assert due == Some(14);
  }

  method TestBookCheckIn() {
    var book := new Book(1, "1984", "George Orwell");
    var _ := book.CheckIn();
    var due := book.GetDueDate();
    assert due == None;
  }

  method TestBookToS() {
    var book := new Book(1, "1984", "George Orwell");
    assert book.ToS() == "1: 1984, by George Orwell";
  }

  /** The second of two check-outs decides the due date. */
  method CheckOutLastWriteWins(book: Book, first: int, second: int)
    modifies book
    ensures book.dueDate == Some(second)
  {
    var _ := book.CheckOut(first);
    var _ := book.CheckOut(second);
  }

  /** Checking in twice leaves the book as checking in once does. */
  method CheckInIdempotent(book: Book)
    modifies book
    ensures book.dueDate == None
  {
    var _ := book.CheckIn();
    var once := book.dueDate;
    var _ := book.CheckIn();
    assert book.dueDate == once;
  }

  /** Checking a fresh book out and back in returns it to its initial state. */
  method CheckOutCheckInRoundTrip(id: int, title: string, author: string, due: int)
    returns (book: Book)
    ensures fresh(book)
    ensures book.id == id && book.title == title && book.author == author
    ensures book.dueDate == None
  {
    book := new Book(id, title, author);
    var _ := book.CheckOut(due);
    assert book.dueDate == Some(due);
    var _ := book.CheckIn();
  }
}
