/**
 * The booking store of the voice agent and its `create_booking` handler:
 * an append-only, process-lifetime list of reservation records, each
 * identified by "BOOK" followed by its 1-based position, zero-padded to at
 * least four digits.
 */
module Bookings {
  import opened Wrappers
  import opened Format

  /** The arguments of one `create_booking` call; `None` is an absent argument. */
  datatype BookingArgs = BookingArgs(
    name: Option<string>,
    phone: Option<string>,
    date: Option<string>,
    time: Option<string>,
    guests: Option<int>,
    specialRequests: Option<string>)

  /** One `create_booking` call: its arguments and the clock reading it took. */
  datatype BookingRequest = BookingRequest(args: BookingArgs, createdAt: string)

  /** A stored reservation record. */
  datatype Booking = Booking(
    bookingId: string,
    name: Option<string>,
    phone: Option<string>,
    date: Option<string>,
    time: Option<string>,
    guests: Option<int>,
    specialRequests: string,
    createdAt: string)

  /** What `create_booking` hands back to the language model. */
  datatype BookingConfirmation = BookingConfirmation(bookingId: string, status: string, message: string)

  const IdPrefix := "BOOK"
  const IdWidth := 4
  const Confirmed := "confirmed"
  /** Stored when the caller gave no special requests. */
  const NoSpecialRequests := "None"

  /**
   * The identifier of the `number`-th booking: "BOOK" and the number, read
   * back exactly from the digits after the prefix, padded to four digits
   * and longer only when the number needs more.
   */
  function BookingId(number: nat): (id: string)
    ensures |id| >= |IdPrefix| + IdWidth && id[..|IdPrefix|] == IdPrefix
    ensures IsDigits(id[|IdPrefix|..]) && ValueOf(id[|IdPrefix|..]) == number
    ensures |id| > |IdPrefix| + IdWidth ==> id[|IdPrefix|] != '0'
  {
    var id := IdPrefix + ZeroPadded(number, IdWidth);
    assert id[|IdPrefix|..] == ZeroPadded(number, IdWidth);
    id
  }

  /** The booking number an identifier carries, if it has the identifier's shape. */
  function IdNumber(id: string): Option<nat> {
    if |id| > |IdPrefix| && id[..|IdPrefix|] == IdPrefix && IsDigits(id[|IdPrefix|..])
    then Some(ValueOf(id[|IdPrefix|..]))
    else None
  }

  lemma IdNumberOfBookingId(number: nat)
    ensures IdNumber(BookingId(number)) == Some(number)
  {
  }

  /** Distinct booking numbers give distinct identifiers. */
  lemma BookingIdInjective(m: nat, n: nat)
    ensures BookingId(m) == BookingId(n) <==> m == n
  {
    IdNumberOfBookingId(m);
    IdNumberOfBookingId(n);
  }

  /** The identifier is exactly eight characters long until booking number 10000. */
  lemma BookingIdLength(number: nat)
    ensures |BookingId(number)| == |IdPrefix| + IdWidth <==> number < 10000
  {
    DigitsFitWidth(number, IdWidth);
    assert Pow10(IdWidth) == 10000;
  }

  /** The first two identifiers are BOOK0001 and BOOK0002. */
  lemma FirstBookingIds()
    ensures BookingId(1) == "BOOK0001"
    ensures BookingId(2) == "BOOK0002"
  {
    assert Digits(1) == "1" && Digits(2) == "2";
    assert Zeros(3) == "000";
  }

  /** Booking number 10000 is the first with a five-digit identifier. */
  lemma TenThousandthBookingId()
    ensures BookingId(10000) == "BOOK10000"
  {
    var d := Digits(10000);
    assert Digits(10) == "10";
    assert Digits(100) == "100";
    assert Digits(1000) == "1000";
    assert d == "10000";
    assert ZeroPadded(10000, IdWidth) == d;
  }

  /** The record that a call stores when `count` bookings already exist. */
  function NewBooking(count: nat, req: BookingRequest): Booking {
    var a := req.args;
    Booking(BookingId(count + 1), a.name, a.phone, a.date, a.time, a.guests,
            a.specialRequests.GetOr(NoSpecialRequests), req.createdAt)
  }

  /** The sentence confirming `b` to the caller. */
  function ConfirmationMessage(b: Booking): string {
    "Booking confirmed for " + ShowText(b.name) + " on " + ShowText(b.date) + " at " + ShowText(b.time)
      + " for " + ShowInt(b.guests) + " guests. Confirmation number: " + b.bookingId
  }

  /** The result `create_booking` returns for the record it stored. */
  function Confirmation(b: Booking): BookingConfirmation {
    BookingConfirmation(b.bookingId, Confirmed, ConfirmationMessage(b))
  }

  /** The store after the given `create_booking` calls, in order, from an empty store. */
  function Replay(calls: seq<BookingRequest>): (bs: seq<Booking>)
    ensures |bs| == |calls|
  {
    if calls == [] then []
    else
      var prior := Replay(calls[..|calls| - 1]);
      prior + [NewBooking(|calls| - 1, calls[|calls| - 1])]
  }

  /** The i-th stored record is the i-th call's record, numbered i + 1. */
  lemma {:induction false} ReplayRecords(calls: seq<BookingRequest>)
    ensures forall i :: 0 <= i < |calls| ==> Replay(calls)[i] == NewBooking(i, calls[i])
    decreases |calls|
  {
    if calls != [] {
      var init := calls[..|calls| - 1];
      ReplayRecords(init);
      forall i | 0 <= i < |calls| ensures Replay(calls)[i] == NewBooking(i, calls[i]) {
        if i < |calls| - 1 {
          assert Replay(calls)[i] == Replay(init)[i];
          assert init[i] == calls[i];
        }
      }
    }
  }

  /** Every record holds the identifier of its position: BOOK0001, BOOK0002, ... */
  ghost predicate SequentialIds(bs: seq<Booking>) {
    forall i :: 0 <= i < |bs| ==> bs[i].bookingId == BookingId(i + 1)
  }

  /**
   * N calls from an empty store give identifiers BOOK0001 ... in call order,
   * and every record holds its call's arguments as given.
   */
  lemma {:induction false} ReplayIdentifiers(calls: seq<BookingRequest>)
    ensures SequentialIds(Replay(calls))
    ensures forall i :: 0 <= i < |calls| ==>
      var b, a := Replay(calls)[i], calls[i].args;
      b.name == a.name && b.phone == a.phone && b.date == a.date && b.time == a.time
      && b.guests == a.guests && b.createdAt == calls[i].createdAt
      && b.specialRequests == (if a.specialRequests.Some? then a.specialRequests.value else NoSpecialRequests)
  {
    ReplayRecords(calls);
    var bs := Replay(calls);
    forall i | 0 <= i < |calls| ensures bs[i] == NewBooking(i, calls[i]) {
    }
  }

  /** Later calls never change records already stored: the store only grows at its end. */
  lemma {:induction false} ReplayAppendOnly(calls: seq<BookingRequest>, k: nat)
    requires k <= |calls|
    ensures Replay(calls[..k]) == Replay(calls)[..k]
  {
    var prefix := calls[..k];
    ReplayRecords(calls);
    ReplayRecords(prefix);
    forall i | 0 <= i < k ensures Replay(prefix)[i] == Replay(calls)[i] {
      assert prefix[i] == calls[i];
    }
  }

  /** In a store built by appends, each identifier carries its record's position plus one. */
  lemma SequentialIdNumbers(bs: seq<Booking>, i: nat)
    requires SequentialIds(bs) && i < |bs|
    ensures IdNumber(bs[i].bookingId) == Some(i + 1)
  {
    IdNumberOfBookingId(i + 1);
  }

  /** Identifiers in a store built by appends are pairwise distinct and strictly increasing. */
  lemma SequentialIdsDistinct(bs: seq<Booking>)
    requires SequentialIds(bs)
    ensures forall i, j :: 0 <= i < j < |bs| ==> bs[i].bookingId != bs[j].bookingId
    ensures forall i, j :: 0 <= i < j < |bs| ==>
      IdNumber(bs[i].bookingId).Some? && IdNumber(bs[j].bookingId).Some?
      && IdNumber(bs[i].bookingId).value < IdNumber(bs[j].bookingId).value
  {
    forall i | 0 <= i < |bs| ensures IdNumber(bs[i].bookingId) == Some(i + 1) {
      SequentialIdNumbers(bs, i);
    }
  }

  /**
   * Two identical bookings made one after the other on a fresh store are
   * confirmed as BOOK0001 and BOOK0002 and leave two records.
   */
  method TwoBookingsScenario() returns (first: string, second: string, count: nat)
    ensures first == "BOOK0001" && second == "BOOK0002" && count == 2
  {
    var store := new BookingStore();
    var args := BookingArgs(Some("Alice"), Some("555-0100"), Some("2025-07-04"), Some("19:00"),
                            Some(4), None);
    var r1 := store.CreateBooking(args, "2025-07-01T12:00:00");
    var r2 := store.CreateBooking(args, "2025-07-01T12:00:05");
    FirstBookingIds();
    first, second, count := r1.bookingId, r2.bookingId, store.Count();
  }

  /** The process-wide list of bookings (`bookings_db`). */
  class BookingStore {
    var bookings: seq<Booking>
    /** The `create_booking` calls made so far, in order. */
    ghost var history: seq<BookingRequest>

    ghost predicate Valid()
      reads this
    {
      bookings == Replay(history)
    }

    /** The store starts empty. */
    constructor ()
      ensures Valid() && bookings == [] && history == []
    {
      bookings := [];
      history := [];
    }

    /** The number of bookings made so far (`len(bookings_db)`). */
    function Count(): (n: nat)
      reads this
      requires Valid()
      ensures n == |history|
    {
      |bookings|
    }

    /**
     * `create_booking`: appends one record numbered after the current count
     * and confirms it under the same identifier.
     */
    method CreateBooking(args: BookingArgs, createdAt: string) returns (r: BookingConfirmation)
      requires Valid()
      modifies this
      ensures Valid()
      ensures history == old(history) + [BookingRequest(args, createdAt)]
      ensures bookings == old(bookings) + [NewBooking(|old(bookings)|, BookingRequest(args, createdAt))]
      ensures SequentialIds(bookings)
      ensures r.bookingId == bookings[|bookings| - 1].bookingId == BookingId(|bookings|)
      ensures r.status == Confirmed
      ensures r == Confirmation(bookings[|bookings| - 1])
    {
      var id := BookingId(|bookings| + 1);
      var booking := Booking(id, args.name, args.phone, args.date, args.time, args.guests,
                             args.specialRequests.GetOr(NoSpecialRequests), createdAt);
      bookings := bookings + [booking];
      history := history + [BookingRequest(args, createdAt)];
      assert history[..|history| - 1] == old(history);
      ReplayIdentifiers(history);
      r := BookingConfirmation(id, Confirmed, ConfirmationMessage(booking));
    }
  }
}
