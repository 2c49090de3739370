/**
 * The two entities of the library's circulation desk that library.rb defines:
 * a day counter (Calendar) and a catalogue entry (Book).
 */
module Library {
  import opened Wrappers
  import Decimal

  /** The library's clock: an abstract count of days, starting at day 0. */
  class Calendar {
    var days: nat
    /** How many times the calendar has been advanced since it was made. */
    ghost var advances: nat

    ghost predicate Valid()
      reads this
    {
      days == advances
    }

    constructor ()
      ensures Valid()
      ensures days == 0 && advances == 0
    {
      days := 0;
      advances := 0;
    }

    /** Reads the current day; changes nothing. */
    method GetDate() returns (d: nat)
      requires Valid()
      ensures d == days
      ensures d == advances
    {
      d := days;
    }

    /** Moves the clock on by exactly one day and answers the new day. */
    method Advance() returns (d: nat)
      requires Valid()
      modifies this
      ensures Valid()
      ensures advances == old(advances) + 1
      ensures days == old(days) + 1
      ensures d == days
    {
      days := days + 1;
      advances := advances + 1;
      d := days;
    }
  }

  /**
   * The prefix of s before the first occurrence of c (all of s when c does
   * not occur).
   */
  function FieldBefore(s: string, c: char): (p: string)
    ensures p <= s && c !in p
  {
    if s == [] || s[0] == c then [] else [s[0]] + FieldBefore(s[1..], c)
  }

  /** A field free of c is exactly what precedes the first c after it. */
  lemma {:induction false} FieldBeforeSeparator(p: string, c: char, rest: string)
    requires c !in p
    ensures FieldBefore(p + [c] + rest, c) == p
  {
    if p != [] {
      assert (p + [c] + rest)[1..] == p[1..] + [c] + rest;
      FieldBeforeSeparator(p[1..], c, rest);
    }
  }

  /** A catalogue entry. Identity and bibliographic fields never change. */
  class Book {
    const id: int
    const title: string
    const author: string
    /** The day the book is due back; None while it is not on loan. */
    var dueDate: Option<int>

    constructor (id: int, title: string, author: string)
      ensures this.id == id && this.title == title && this.author == author
      ensures dueDate == None
    {
      this.id := id;
      this.title := title;
      this.author := author;
      dueDate := None;
    }

    method GetId() returns (r: int)
      ensures r == id
    {
      r := id;
    }

    method GetTitle() returns (r: string)
      ensures r == title
    {
      r := title;
    }

    method GetAuthor() returns (r: string)
      ensures r == author
    {
      r := author;
    }

    method GetDueDate() returns (r: Option<int>)
      ensures r == dueDate
    {
      r := dueDate;
    }

    /**
     * Records a due date, replacing whatever was recorded before; like the
     * assignment it models, it answers the date it stored.
     */
    method CheckOut(due: int) returns (r: int)
      modifies this`dueDate
      ensures dueDate == Some(due)
      ensures r == due
    {
      dueDate := Some(due);
      r := due;
    }

    /** Clears the due date, whatever it was, and answers None. */
    method CheckIn() returns (r: Option<int>)
      modifies this`dueDate
      ensures dueDate == None
      ensures r == None
    {
      dueDate := None;
      r := None;
    }

    /**
     * The one-line rendering "<id>: <title>, by <author>": the field before
     * the first ':' reads back as the id, and the title and author follow
     * at fixed offsets after the separators ": " and ", by ".
     */
    function ToS(): (r: string)
      ensures Decimal.ParseInt(FieldBefore(r, ':')) == Some(id)
      ensures var n := |Decimal.FromInt(id)|;
        && |r| == n + 2 + |title| + 5 + |author|
        && r[n..n + 2] == ": "
        && r[n + 2..n + 2 + |title|] == title
        && r[n + 2 + |title|..n + 7 + |title|] == ", by "
        && r[n + 7 + |title|..] == author
    {
      var digits := Decimal.FromInt(id);
      var r := digits + ": " + title + ", by " + author;
      assert r == digits + [':'] + (" " + title + ", by " + author);
      FieldBeforeSeparator(digits, ':', " " + title + ", by " + author);
      Decimal.ParseFromInt(id);
      r
    }
  }
}
