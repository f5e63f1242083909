/** Dates as the booking forms compare them: a JavaScript `Date` is its
    millisecond timestamp, and an existing reservation is a pair of them. */
module Calendar {

  /** One day in milliseconds: `1000 * 60 * 60 * 24`. */
  const DayMs: int := 1000 * 60 * 60 * 24

  /** An existing booking of the venue, both ends inclusive. */
  datatype Reservation = Reservation(dateFrom: int, dateTo: int)

  /** The instant `t` lies between `from` and `to`, both included. */
  predicate Within(t: int, from: int, to: int) {
    from <= t <= to
  }

  /** A reservation whose end does not come before its start. */
  predicate WellFormed(r: Reservation) {
    r.dateFrom <= r.dateTo
  }
}
