# Library circulation: Calendar and Book

A Dafny model of `library.rb`, the two building blocks of a library's
circulation desk:

- **Calendar** — the library's clock, an integer count of days that starts at
  day 0 and moves on by exactly one day per `advance`. The model is the class
  `Library.Calendar` with a `days: nat` field and a ghost count of the
  advances made so far; its invariant `Valid()` says the date always equals
  that count, so after n advances of a fresh calendar the date is n.
- **Book** — a catalogue entry with a fixed id, title and author (`const`
  fields of `Library.Book`) and an optional due date (`dueDate: Option<int>`,
  `None` standing for Ruby's `nil`). `CheckOut` and `CheckIn` overwrite the
  due date and may change nothing else (their frame is the `dueDate` field alone). The getters
  are methods without a `modifies` clause, so they leave all state as it was.
  `ToS` renders `"<id>: <title>, by <author>"`.

Module `Decimal` (decimal.dfy) models Ruby's decimal rendering of an Integer
inside string interpolation, together with a parser that serves as its
inverse. Module `LibraryTest` (library_test.dfy) replays the unit tests of
`library_test.rb` as verified client methods, and proves the due-date
properties that hold from any prior state (last write wins, idempotent
check-in, check-out then check-in restores a fresh book).

## Model

| member | source | states |
|---|---|---|
| Library.Calendar.constructor | library.rb:6-8 | a new calendar reads day 0 and has been advanced zero times |
| Library.Calendar.GetDate | library.rb:10-12 | returns the current day, which equals the number of advances so far; changes no state |
| Library.Calendar.Advance | library.rb:14-16 | the day grows by exactly one (so it never decreases), the new day is returned, and the invariant date = number of advances is kept |
| Library.Book.constructor | library.rb:20-25 | the new book has the given id, title and author and no due date |
| Library.Book.GetId | library.rb:27-29 | returns the id; changes no state |
| Library.Book.GetTitle | library.rb:31-33 | returns the title; changes no state |
| Library.Book.GetAuthor | library.rb:35-37 | returns the author; changes no state |
| Library.Book.GetDueDate | library.rb:39-41 | returns the due date, None when not on loan; changes no state |
| Library.Book.CheckOut | library.rb:43-45 | afterwards the due date is exactly the given day, whatever it was, and that day is returned; only the due date may change |
| Library.Book.CheckIn | library.rb:47-49 | afterwards there is no due date, from any prior state, and None (Ruby's `nil`) is returned; only the due date may change |
| Library.Book.ToS | library.rb:51-53 | the field before the first ':' reads back as the id; then come ": ", the title, ", by " and the author, with nothing else |
| Library.FieldBeforeSeparator | library.rb:52 | a field without ':' is recovered exactly from the rendering it leads, which is why the id can be read back from `to_s` |
| Decimal.FromInt | library.rb:52 | the rendering of an id is non-empty, starts with '-' exactly for negative ids and is otherwise all digits |
| Decimal.FromNat | library.rb:52 | the digits of a natural number have no leading zero, and are "0" exactly for zero |
| Decimal.DigitsValueFromNat | library.rb:52 | reading the digits of n back gives n |
| Decimal.ParseFromInt | library.rb:52 | parsing the rendering of any integer gives that integer back |
| Decimal.FromIntInjective | library.rb:52 | two ids render the same exactly when they are equal |
| LibraryTest.CheckOutLastWriteWins | library.rb:43-45 | of two check-outs in a row, the second decides the due date |
| LibraryTest.CheckInIdempotent | library.rb:47-49 | checking in twice leaves the book as checking in once does: no due date |
| LibraryTest.CheckOutCheckInRoundTrip | library.rb:20-49 | a fresh book checked out and back in has its id, title and author and no due date, as when it was made |

The methods `TestCalendarInit`, `TestCalendarAdvance`, `TestBookFields`,
`TestBookCheckOut`, `TestBookCheckIn` and `TestBookToS` of `LibraryTest`
restate the assertions of library_test.rb:13-52 and are verified, including
`"1: 1984, by George Orwell"` for book 1.

## Left out

- Ruby's `Singleton` mixin on `Calendar` (library.rb:1, 4): a process-wide instance is language plumbing; the model makes the calendar an ordinary object that callers share by reference.
- Dynamic typing: Ruby accepts any object as id, title, author or due date. The model fixes the types the tests use: id and due date are integers, title and author are strings.
- Library.Book.ToS: renders the id with Ruby's Integer#to_s only; interpolation of other kinds of object (which would call their own `to_s`) is not modelled.
- The circulation workflow (a library that opens and closes, members, loans, renewals, overdue reports, search) is not part of library.rb and is not modelled.
- The Test::Unit harness itself; its test cases appear only as the verified client methods listed above.
