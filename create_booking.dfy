/** The booking form on the venue page (src/components/CreateBooking/index.jsx):
    the number of nights and the total cost, the days the date pickers disable,
    the guest cap and the guarded submission through the `onSubmitBooking` prop. */
module CreateBooking {
  import opened Js
  import opened Calendar
  import Bookings

  /** `Math.ceil(diff / DayMs)` for a difference of two timestamps. */
  function CeilDays(diff: int): (r: int)
    ensures (r - 1) * DayMs < diff <= r * DayMs
  {
    -((-diff) / DayMs)
  }

  /** `nights`: 0 unless both dates are chosen, otherwise the number of started
      days from `dateFrom` to `dateTo`. */
  function Nights(dateFrom: Option<int>, dateTo: Option<int>): (r: int)
    ensures dateFrom.None? || dateTo.None? ==> r == 0
    ensures dateFrom.Some? && dateTo.Some? ==>
      (r - 1) * DayMs < dateTo.value - dateFrom.value <= r * DayMs
  {
    if dateFrom.Some? && dateTo.Some? then CeilDays(dateTo.value - dateFrom.value) else 0
  }

  /** A stay of exactly `k` days counts `k` nights. */
  lemma WholeDayStay(dateFrom: int, k: int)
    ensures Nights(Some(dateFrom), Some(dateFrom + k * DayMs)) == k
  {
  }

  /** A started day counts as a whole night. */
  lemma PartDayRoundsUp(dateFrom: int, k: int, rest: int)
    requires 0 < rest < DayMs
    ensures Nights(Some(dateFrom), Some(dateFrom + k * DayMs + rest)) == k + 1
  {
  }

  /** The line "Total cost for n nights": shown only when `nights > 0`. */
  function TotalCost(nights: int, price: int): Option<int> {
    if nights > 0 then Some(nights * price) else None
  }

  /** The total is shown exactly when both dates are chosen and the end is
      after the start, and it is the nights times the nightly price. */
  lemma TotalCostShownIffForwardStay(dateFrom: Option<int>, dateTo: Option<int>, price: int)
    ensures TotalCost(Nights(dateFrom, dateTo), price).Some? <==>
      dateFrom.Some? && dateTo.Some? && dateFrom.value < dateTo.value
    ensures TotalCost(Nights(dateFrom, dateTo), price).Some? ==>
      TotalCost(Nights(dateFrom, dateTo), price).value == Nights(dateFrom, dateTo) * price
  {
    var n := Nights(dateFrom, dateTo);
    if dateFrom.Some? && dateTo.Some? {
      var diff := dateTo.value - dateFrom.value;
      assert (n - 1) * DayMs < diff <= n * DayMs;
      if n > 0 {
        assert (n - 1) * DayMs >= 0;
      }
    }
  }

  /** From 2025-06-01 to 2025-06-05 (midnight UTC) is four nights; at 100 a
      night the total is 400. */
  lemma FourNightExample()
    ensures Nights(Some(1748736000000), Some(1749081600000)) == 4
    ensures TotalCost(4, 100) == Some(400)
  {
    WholeDayStay(1748736000000, 4);
  }

  /** The days one booking disables: its start, then every day after it that is
      not past its end (the loop of `disabledDates`, stepping a day at a time). */
  function DaysOf(b: Reservation): seq<int> {
    if b.dateTo < b.dateFrom then []
    else seq((b.dateTo - b.dateFrom) / DayMs + 1, i => b.dateFrom + i * DayMs)
  }

  /** A booking ending before it starts disables nothing; otherwise the days
      rise one day apart from its start and none lies past its end. */
  lemma DaysOfShape(b: Reservation)
    ensures b.dateTo < b.dateFrom ==> DaysOf(b) == []
    ensures b.dateFrom <= b.dateTo ==> |DaysOf(b)| >= 1 && DaysOf(b)[0] == b.dateFrom
    ensures forall i :: 0 <= i < |DaysOf(b)| ==>
      DaysOf(b)[i] == b.dateFrom + i * DayMs && Within(DaysOf(b)[i], b.dateFrom, b.dateTo)
    ensures forall i :: 0 <= i < |DaysOf(b)| - 1 ==> DaysOf(b)[i] < DaysOf(b)[i + 1]
    ensures b.dateFrom <= b.dateTo ==> b.dateFrom + |DaysOf(b)| * DayMs > b.dateTo
  {
    if b.dateFrom <= b.dateTo {
      var n := (b.dateTo - b.dateFrom) / DayMs;
      assert n * DayMs <= b.dateTo - b.dateFrom;
      forall i | 0 <= i < |DaysOf(b)| ensures Within(DaysOf(b)[i], b.dateFrom, b.dateTo) {
        assert i <= n;
        assert i * DayMs <= n * DayMs;
      }
    }
  }

  /** A booking spanning `k` whole days after its start disables `k + 1` days. */
  lemma DaysOfWholeDays(dateFrom: int, k: nat)
    ensures |DaysOf(Reservation(dateFrom, dateFrom + k * DayMs))| == k + 1
  {
  }

  /** The days the loop produces for a booking: start with `b.dateFrom`, push
      the current day and advance it by a day while it is not past `b.dateTo`. */
  method DaysOfBooking(b: Reservation) returns (dates: seq<int>)
    ensures dates == DaysOf(b)
  {
    var end := b.dateTo;
    dates := [];
    var current := b.dateFrom;
    ghost var n := 0;
    while current <= end
      invariant 0 <= n && current == b.dateFrom + n * DayMs
      invariant dates == seq(n, i => b.dateFrom + i * DayMs)
      invariant n > 0 ==> current - DayMs <= end
      decreases end - current
    {
      dates := dates + [current];
      current := current + DayMs;
      n := n + 1;
    }
    if b.dateFrom <= end {
      assert (n - 1) * DayMs <= end - b.dateFrom < n * DayMs;
      assert (end - b.dateFrom) / DayMs == n - 1;
    }
  }

  /** `disabledDates`: the days of each booking, in booking order. */
  function DisabledDays(bookings: seq<Reservation>): seq<int> {
    if bookings == [] then [] else DaysOf(bookings[0]) + DisabledDays(bookings[1..])
  }

  lemma {:induction false} DisabledDaysAppend(bookings: seq<Reservation>, b: Reservation)
    ensures DisabledDays(bookings + [b]) == DisabledDays(bookings) + DaysOf(b)
  {
    if bookings == [] {
      assert [b][1..] == [];
    } else {
      assert (bookings + [b])[1..] == bookings[1..] + [b];
      DisabledDaysAppend(bookings[1..], b);
    }
  }

  /** A day is disabled exactly when it is one of the days of some booking. */
  lemma {:induction false} DisabledDaysMembers(bookings: seq<Reservation>, t: int)
    ensures t in DisabledDays(bookings) <==> exists k :: 0 <= k < |bookings| && t in DaysOf(bookings[k])
  {
    if bookings != [] {
      DisabledDaysMembers(bookings[1..], t);
      if exists k :: 0 <= k < |bookings| && t in DaysOf(bookings[k]) {
        var k :| 0 <= k < |bookings| && t in DaysOf(bookings[k]);
        if k > 0 {
          assert bookings[k] == bookings[1..][k - 1];
        }
      }
      if exists k :: 0 <= k < |bookings[1..]| && t in DaysOf(bookings[1..][k]) {
        var k :| 0 <= k < |bookings[1..]| && t in DaysOf(bookings[1..][k]);
        assert bookings[1..][k] == bookings[k + 1];
      }
    }
  }

  /** The `flatMap` over the bookings, each expanded by the day loop. */
  method DisabledDates(bookings: seq<Reservation>) returns (dates: seq<int>)
    ensures dates == DisabledDays(bookings)
  {
    dates := [];
    var k := 0;
    while k < |bookings|
      invariant 0 <= k <= |bookings|
      invariant dates == DisabledDays(bookings[..k])
    {
      var days := DaysOfBooking(bookings[k]);
      DisabledDaysAppend(bookings[..k], bookings[k]);
      assert bookings[..k + 1] == bookings[..k] + [bookings[k]];
      dates := dates + days;
      k := k + 1;
    }
    assert bookings[..k] == bookings;
  }

  /** The guard at the top of `handleBooking`. */
  predicate CanSubmit(dateFrom: Option<int>, dateTo: Option<int>, guests: int, maxGuests: int) {
    dateFrom.Some? && dateTo.Some? && 1 <= guests <= maxGuests
  }

  /** Whatever the venue page's booking panel would send, this form's guard lets
      through; the converse fails, because this guard checks neither the order of
      the dates nor the existing bookings. */
  lemma GuardWeakerThanAdmission(guests: int, maxGuests: int, dateFrom: Option<int>,
                                 dateTo: Option<int>, bookings: seq<Reservation>)
    ensures Bookings.Admission(guests, maxGuests, dateFrom, dateTo, bookings) == None ==>
      CanSubmit(dateFrom, dateTo, guests, maxGuests)
    ensures CanSubmit(Some(2 * DayMs), Some(DayMs), 1, 1) &&
      Bookings.Admission(1, 1, Some(2 * DayMs), Some(DayMs), []) == Some(Bookings.InvalidDateRange)
  {
  }

  /** `null` in a `>` comparison with a date: JavaScript converts it to 0. */
  function AsNumber(date: Option<int>): int {
    if date.Some? then date.value else 0
  }

  /** How the awaited `onSubmitBooking` call ended. */
  datatype SubmitOutcome = Resolved | Threw

  const FillInMessage: string := "Please fill in all fields correctly."
  const BookingErrorMessage: string := "An error occurred during booking."

  /** The component's state: its `useState` variables and the props it reads. */
  class BookingForm {
    const price: int
    const maxGuests: int
    const bookings: seq<Reservation>
    var dateFrom: Option<int>
    var dateTo: Option<int>
    var guests: int
    var isBooking: bool
    var success: bool
    var errorMessage: string
    var showConfirm: bool

    constructor (price: int, maxGuests: int, bookings: seq<Reservation>)
      ensures this.price == price && this.maxGuests == maxGuests && this.bookings == bookings
      ensures dateFrom == None && dateTo == None && guests == 1
      ensures !isBooking && !success && errorMessage == "" && !showConfirm
    {
      this.price, this.maxGuests, this.bookings := price, maxGuests, bookings;
      dateFrom, dateTo, guests := None, None, 1;
      isBooking, success, errorMessage, showConfirm := false, false, "", false;
    }

    /** The start picker's `onChange`: a start after the chosen end clears the
        end, so two chosen dates are never out of order afterwards. */
    method SelectDateFrom(date: Option<int>)
      modifies this
      ensures dateFrom == date
      ensures dateTo == if old(dateTo).Some? && AsNumber(date) > old(dateTo).value then None else old(dateTo)
      ensures date.Some? && dateTo.Some? ==> date.value <= dateTo.value
      ensures guests == old(guests) && isBooking == old(isBooking) && success == old(success)
      ensures errorMessage == old(errorMessage) && showConfirm == old(showConfirm)
    {
      dateFrom := date;
      if dateTo.Some? && AsNumber(date) > dateTo.value {
        dateTo := None;
      }
    }

    /** The end picker's `onChange`. */
    method SelectDateTo(date: Option<int>)
      modifies this
      ensures dateTo == date
      ensures dateFrom == old(dateFrom) && guests == old(guests) && isBooking == old(isBooking)
      ensures success == old(success) && errorMessage == old(errorMessage)
      ensures showConfirm == old(showConfirm)
    {
      dateTo := date;
    }

    /** `handleGuestChange`: the parsed value, capped at `maxGuests` and not
        raised to 1. */
    method HandleGuestChange(value: int)
      modifies this
      ensures guests == if value > maxGuests then maxGuests else value
      ensures guests <= maxGuests && (value <= maxGuests ==> guests == value)
      ensures dateFrom == old(dateFrom) && dateTo == old(dateTo) && isBooking == old(isBooking)
      ensures success == old(success) && errorMessage == old(errorMessage)
      ensures showConfirm == old(showConfirm)
    {
      guests := if value > maxGuests then maxGuests else value;
    }

    /** "Book now" opens the confirmation. */
    method OpenConfirm()
      modifies this
      ensures showConfirm
      ensures dateFrom == old(dateFrom) && dateTo == old(dateTo) && guests == old(guests)
      ensures isBooking == old(isBooking) && success == old(success)
      ensures errorMessage == old(errorMessage)
    {
      showConfirm := true;
    }

    /** "Cancel" closes the confirmation. */
    method CancelConfirm()
      modifies this
      ensures !showConfirm
      ensures dateFrom == old(dateFrom) && dateTo == old(dateTo) && guests == old(guests)
      ensures isBooking == old(isBooking) && success == old(success)
      ensures errorMessage == old(errorMessage)
    {
      showConfirm := false;
    }

    /** `handleBooking`, with the awaited `onSubmitBooking` replaced by its
        `outcome`. A failed guard only sets the message and submits nothing; a
        submission always ends with `isBooking` false. */
    method HandleBooking(outcome: SubmitOutcome) returns (submitted: bool)
      modifies this
      ensures submitted == CanSubmit(old(dateFrom), old(dateTo), old(guests), maxGuests)
      ensures !submitted ==>
        errorMessage == FillInMessage && isBooking == old(isBooking) &&
        success == old(success) && showConfirm == old(showConfirm)
      ensures submitted ==> !isBooking
      ensures submitted && outcome == Resolved ==> success && !showConfirm && errorMessage == ""
      ensures submitted && outcome == Threw ==>
        errorMessage == BookingErrorMessage && success == old(success) &&
        showConfirm == old(showConfirm)
      ensures dateFrom == old(dateFrom) && dateTo == old(dateTo) && guests == old(guests)
    {
      if dateFrom.None? || dateTo.None? || guests < 1 || guests > maxGuests {
        errorMessage := FillInMessage;
        return false;
      }
      isBooking := true;
      errorMessage := "";
      if outcome == Resolved {
        success := true;
        showConfirm := false;
      } else {
        errorMessage := BookingErrorMessage;
      }
      isBooking := false;
      submitted := true;
    }
  }
}
