/** The booking panel of a venue page (src/components/Bookings/index.jsx):
    the guest-count clamp, the date-range and overlap checks, and the ordered
    validation that decides whether the booking request is sent. */
module Bookings {
  import opened Js
  import opened Calendar

  /** `isDateRangeValid`: both dates chosen and the start not after the end. */
  predicate IsDateRangeValid(dateFrom: Option<int>, dateTo: Option<int>) {
    dateFrom.Some? && dateTo.Some? && dateFrom.value <= dateTo.value
  }

  /** The three-clause test of `isOverlapping` for one existing booking `b`:
      the candidate's start lies in `b`, its end lies in `b`, or it contains `b`. */
  predicate Clashes(dateFrom: int, dateTo: int, b: Reservation) {
    (dateFrom >= b.dateFrom && dateFrom <= b.dateTo) ||
    (dateTo >= b.dateFrom && dateTo <= b.dateTo) ||
    (dateFrom <= b.dateFrom && dateTo >= b.dateTo)
  }

  /** `isOverlapping`: `bookings.some(...)` scanned from the first booking. */
  function IsOverlapping(dateFrom: int, dateTo: int, bookings: seq<Reservation>): (r: bool)
    ensures r <==> exists k :: 0 <= k < |bookings| && Clashes(dateFrom, dateTo, bookings[k])
  {
    if bookings == [] then false
    else if Clashes(dateFrom, dateTo, bookings[0]) then true
    else
      var r := IsOverlapping(dateFrom, dateTo, bookings[1..]);
      assert forall k :: 1 <= k < |bookings| ==> bookings[k] == bookings[1..][k - 1];
      r
  }

  /** No existing booking means no overlap. */
  lemma NoBookingsNoOverlap(dateFrom: int, dateTo: int)
    ensures !IsOverlapping(dateFrom, dateTo, [])
  {
  }

  /** Contact counts: a candidate starting on the day an existing booking ends
      is refused, so there is no same-day turnover. */
  lemma BoundaryContactOverlaps(b: Reservation, dateTo: int, others: seq<Reservation>)
    requires WellFormed(b)
    ensures IsOverlapping(b.dateTo, dateTo, others + [b])
  {
    assert (others + [b])[|others|] == b;
  }

  /** For well-formed ranges the three clauses are the usual interval test. */
  lemma ClashesIffIntervalsMeet(dateFrom: int, dateTo: int, b: Reservation)
    requires dateFrom <= dateTo && WellFormed(b)
    ensures Clashes(dateFrom, dateTo, b) <==> dateFrom <= b.dateTo && dateTo >= b.dateFrom
  {
  }

  /** For well-formed ranges the three clauses hold exactly when the two ranges
      share an instant, both ends included. */
  lemma ClashesIffSharedInstant(dateFrom: int, dateTo: int, b: Reservation)
    requires dateFrom <= dateTo && WellFormed(b)
    ensures Clashes(dateFrom, dateTo, b) <==>
      exists t :: Within(t, dateFrom, dateTo) && Within(t, b.dateFrom, b.dateTo)
  {
    if Clashes(dateFrom, dateTo, b) {
      var t := if dateFrom < b.dateFrom then b.dateFrom else dateFrom;
      assert Within(t, dateFrom, dateTo) && Within(t, b.dateFrom, b.dateTo);
    }
  }

  /** Why `handleBooking` stops before sending, in the order it checks. */
  datatype Refusal = GuestsBelowMinimum | GuestsExceedMaximum | InvalidDateRange | DateRangeOverlap

  /** The validation chain of `handleBooking`: the first failing check wins;
      `None` means the request is sent. */
  function Admission(guests: int, maxGuests: int, dateFrom: Option<int>, dateTo: Option<int>,
                     bookings: seq<Reservation>): (r: Option<Refusal>)
    ensures r == None <==>
      1 <= guests <= maxGuests && IsDateRangeValid(dateFrom, dateTo) &&
      forall k :: 0 <= k < |bookings| ==> !Clashes(dateFrom.value, dateTo.value, bookings[k])
  {
    if guests < 1 then Some(GuestsBelowMinimum)
    else if guests > maxGuests then Some(GuestsExceedMaximum)
    else if !IsDateRangeValid(dateFrom, dateTo) then Some(InvalidDateRange)
    else if IsOverlapping(dateFrom.value, dateTo.value, bookings) then Some(DateRangeOverlap)
    else None
  }

  /** Each refusal is reported exactly when its check fails and every earlier check passed. */
  lemma RefusalOrder(guests: int, maxGuests: int, dateFrom: Option<int>, dateTo: Option<int>,
                     bookings: seq<Reservation>)
    ensures var r := Admission(guests, maxGuests, dateFrom, dateTo, bookings);
      (r == Some(GuestsBelowMinimum) <==> guests < 1) &&
      (r == Some(GuestsExceedMaximum) <==> 1 <= guests && guests > maxGuests) &&
      (r == Some(InvalidDateRange) <==>
        1 <= guests <= maxGuests && !IsDateRangeValid(dateFrom, dateTo)) &&
      (r == Some(DateRangeOverlap) <==>
        1 <= guests <= maxGuests && IsDateRangeValid(dateFrom, dateTo) &&
        exists k :: 0 <= k < |bookings| && Clashes(dateFrom.value, dateTo.value, bookings[k]))
  {
  }

  /** A candidate that shares an instant with a well-formed existing booking is
      never sent. */
  lemma SharedInstantIsRefused(guests: int, maxGuests: int, dateFrom: int, dateTo: int,
                               bookings: seq<Reservation>, k: int, t: int)
    requires 0 <= k < |bookings| && WellFormed(bookings[k])
    requires Within(t, dateFrom, dateTo) && Within(t, bookings[k].dateFrom, bookings[k].dateTo)
    ensures Admission(guests, maxGuests, Some(dateFrom), Some(dateTo), bookings).Some?
  {
    ClashesIffSharedInstant(dateFrom, dateTo, bookings[k]);
  }

  /** What became of a request that was sent: `response.ok`, a response that
      is not ok, or an exception from `fetch` or `response.json()`. */
  datatype PostOutcome = Created | Rejected | Failed

  /** The result of one press of Confirm. */
  datatype BookingResult = NotSent(reason: Refusal) | Sent(outcome: PostOutcome)

  /** The text shown under the guest field: empty, or the maximum-guests message. */
  datatype GuestNotice = NoNotice | MaxGuestsNotice(limit: int)

  /** The component's state: its `useState` variables, with `maxGuests` the prop. */
  class BookingPanel {
    const maxGuests: int
    var dateFrom: Option<int>
    var dateTo: Option<int>
    var guests: int
    var showConfirm: bool
    var isBooking: bool
    var bookings: seq<Reservation>
    var guestNotice: GuestNotice

    constructor (maxGuests: int)
      ensures this.maxGuests == maxGuests
      ensures dateFrom == None && dateTo == None && guests == 1
      ensures !showConfirm && !isBooking && bookings == [] && guestNotice == NoNotice
    {
      this.maxGuests := maxGuests;
      dateFrom, dateTo, guests := None, None, 1;
      showConfirm, isBooking := false, false;
      bookings, guestNotice := [], NoNotice;
    }

    /** The venue's bookings arrive (the fetch itself is not modelled). */
    method BookingsLoaded(venueBookings: seq<Reservation>)
      modifies this
      ensures bookings == venueBookings
      ensures dateFrom == old(dateFrom) && dateTo == old(dateTo) && guests == old(guests)
      ensures showConfirm == old(showConfirm) && isBooking == old(isBooking)
      ensures guestNotice == old(guestNotice)
    {
      bookings := venueBookings;
    }

    /** The start picker's `onChange`. */
    method SelectDateFrom(date: Option<int>)
      modifies this
      ensures dateFrom == date
      ensures dateTo == old(dateTo) && guests == old(guests) && bookings == old(bookings)
      ensures showConfirm == old(showConfirm) && isBooking == old(isBooking)
      ensures guestNotice == old(guestNotice)
    {
      dateFrom := date;
    }

    /** The end picker's `onChange`. */
    method SelectDateTo(date: Option<int>)
      modifies this
      ensures dateTo == date
      ensures dateFrom == old(dateFrom) && guests == old(guests) && bookings == old(bookings)
      ensures showConfirm == old(showConfirm) && isBooking == old(isBooking)
      ensures guestNotice == old(guestNotice)
    {
      dateTo := date;
    }

    /** `handleGuestChange`: below 1 becomes 1, above the maximum becomes the
        maximum with a notice; with `maxGuests >= 1` the stored count is always
        in range. */
    method HandleGuestChange(value: int)
      modifies this
      ensures value < 1 ==> guests == 1 && guestNotice == NoNotice
      ensures 1 <= value && value > maxGuests ==>
        guests == maxGuests && guestNotice == MaxGuestsNotice(maxGuests)
      ensures 1 <= value <= maxGuests ==> guests == value && guestNotice == NoNotice
      ensures maxGuests >= 1 ==> 1 <= guests <= maxGuests
      ensures dateFrom == old(dateFrom) && dateTo == old(dateTo) && bookings == old(bookings)
      ensures showConfirm == old(showConfirm) && isBooking == old(isBooking)
    {
      if value < 1 {
        guests := 1;
        guestNotice := NoNotice;
      } else if value > maxGuests {
        guests := maxGuests;
        guestNotice := MaxGuestsNotice(maxGuests);
      } else {
        guests := value;
        guestNotice := NoNotice;
      }
    }

    /** "Book now" opens the confirmation. */
    method OpenConfirm()
      modifies this
      ensures showConfirm
      ensures dateFrom == old(dateFrom) && dateTo == old(dateTo) && guests == old(guests)
      ensures bookings == old(bookings) && isBooking == old(isBooking)
      ensures guestNotice == old(guestNotice)
    {
      showConfirm := true;
    }

    /** "Cancel" closes the confirmation. */
    method CancelConfirm()
      modifies this
      ensures !showConfirm
      ensures dateFrom == old(dateFrom) && dateTo == old(dateTo) && guests == old(guests)
      ensures bookings == old(bookings) && isBooking == old(isBooking)
      ensures guestNotice == old(guestNotice)
    {
      showConfirm := false;
    }

    /** `handleBooking`, with the POST replaced by its `outcome`. A refused
        request changes nothing; a sent one always ends with `isBooking` and
        `showConfirm` false, and a created booking resets the form. */
    method HandleBooking(outcome: PostOutcome) returns (result: BookingResult)
      modifies this
      ensures var refusal := Admission(old(guests), maxGuests, old(dateFrom), old(dateTo), old(bookings));
        if refusal.Some? then
          result == NotSent(refusal.value) &&
          dateFrom == old(dateFrom) && dateTo == old(dateTo) && guests == old(guests) &&
          guestNotice == old(guestNotice) && showConfirm == old(showConfirm) &&
          isBooking == old(isBooking)
        else
          result == Sent(outcome) && !isBooking && !showConfirm &&
          if outcome == Created then
            dateFrom == None && dateTo == None && guests == 1 && guestNotice == NoNotice
          else
            dateFrom == old(dateFrom) && dateTo == old(dateTo) && guests == old(guests) &&
            guestNotice == old(guestNotice)
      ensures bookings == old(bookings)
    {
      if guests < 1 {
        return NotSent(GuestsBelowMinimum);
      }
      if guests > maxGuests {
        return NotSent(GuestsExceedMaximum);
      }
      if !IsDateRangeValid(dateFrom, dateTo) {
        return NotSent(InvalidDateRange);
      }
      if IsOverlapping(dateFrom.value, dateTo.value, bookings) {
        return NotSent(DateRangeOverlap);
      }
      isBooking := true;
      if outcome == Created {
        dateFrom := None;
        dateTo := None;
        guests := 1;
        guestNotice := NoNotice;
      }
      isBooking := false;
      showConfirm := false;
      result := Sent(outcome);
    }
  }
}
