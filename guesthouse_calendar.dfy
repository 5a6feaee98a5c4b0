/** The 31-day timeline: one row per room and one cell per day, with a cell's
    occupancy deciding whether a click on it starts a quick booking. A booking
    occupies the nights from its check-in day up to, not including, its check-out day. */
module GuesthouseCalendar {
  import opened Calendar
  import opened Seqs
  import opened Types
  import BookingModal

  /** `days`: the 31 consecutive days shown, from the timeline's start day. */
  function Days(start: Day): (r: seq<Day>)
    ensures |r| == 31
    ensures forall i :: 0 <= i < 31 ==> r[i] == start + i
  {
    seq(31, i requires 0 <= i < 31 => start + i)
  }

  /** `isWeekend`: Sunday or Saturday. */
  predicate IsWeekend(d: Day)
  {
    Weekday(d) == 0 || Weekday(d) == 6
  }

  /** Weekend days are the days that are not weekdays; in any range they make up the
      nights the dialog's meal pricing does not bill. */
  function WeekendDaysIn(start: Day, end: Day): nat
    decreases end - start
  {
    if end <= start then 0
    else WeekendDaysIn(start, end - 1) + (if IsWeekend(end - 1) then 1 else 0)
  }

  lemma {:induction false} WeekendsComplementWeekdays(start: Day, end: Day)
    ensures forall d :: IsWeekend(d) <==> !BookingModal.IsWeekday(d)
    ensures WeekendDaysIn(start, end) + BookingModal.WeekdaysIn(start, end) == BookingModal.DayDiff(start, end)
    decreases end - start
  {
    if end > start {
      WeekendsComplementWeekdays(start, end - 1);
    }
  }

  /** The cell test: a booking of this room whose stay includes the night of `d`. */
  predicate Covers(b: Booking, roomId: string, d: Day)
  {
    b.roomId == roomId && b.startDate <= d < b.endDate
  }

  /** Bookings store ISO date strings and the cell test compares them as strings;
      for four-digit years that comparison is the comparison of day numbers. */
  lemma StringCoverage(day: CivilDate, start: CivilDate, end: CivilDate)
    requires FourDigitDate(day) && FourDigitDate(start) && FourDigitDate(end)
    ensures var ds, ss, es := ToLocalISOString(day), ToLocalISOString(start), ToLocalISOString(end);
      (!StrLess(ds, ss) && StrLess(ds, es)) <==> DayOf(start) <= DayOf(day) < DayOf(end)
  {
    ISOOrder(day, start);
    ISOOrder(day, end);
    DayOfOrder(day, start);
    DayOfOrder(day, end);
  }

  datatype DayStatus = DayStatus(all: seq<Booking>, isCheckingIn: Option<Booking>, isCheckingOut: Option<Booking>)

  /** `getBookingsByDay`. */
  function GetBookingsByDay(bookings: seq<Booking>, roomId: string, d: Day): DayStatus
  {
    var dayBookings := Filter(bookings, (b: Booking) => Covers(b, roomId, d));
    DayStatus(dayBookings,
              Find(dayBookings, (b: Booking) => b.startDate == d),
              Find(dayBookings, (b: Booking) => b.endDate == d))
  }

  /** The day's list holds exactly the covering bookings. */
  lemma DayListSpec(bookings: seq<Booking>, roomId: string, d: Day)
    ensures var all := GetBookingsByDay(bookings, roomId, d).all;
      && (forall i :: 0 <= i < |all| ==> Covers(all[i], roomId, d) && all[i] in bookings)
      && (forall i :: 0 <= i < |bookings| && Covers(bookings[i], roomId, d) ==> bookings[i] in all)
  {
  }

  /** A check-in is reported exactly when a covering booking starts that day. */
  lemma CheckingInIff(bookings: seq<Booking>, roomId: string, d: Day)
    ensures GetBookingsByDay(bookings, roomId, d).isCheckingIn.Some?
        <==> exists i :: 0 <= i < |bookings| && Covers(bookings[i], roomId, d) && bookings[i].startDate == d
  {
    FindInFilter(bookings, (b: Booking) => Covers(b, roomId, d), (b: Booking) => b.startDate == d);
  }

  /** A check-out is never reported: every covering booking ends after the day. */
  lemma NeverCheckingOut(bookings: seq<Booking>, roomId: string, d: Day)
    ensures GetBookingsByDay(bookings, roomId, d).isCheckingOut == None
  {
    var all := GetBookingsByDay(bookings, roomId, d).all;
    assert forall i :: 0 <= i < |all| ==> all[i].endDate != d;
  }

  /** `isOccupied` for a cell. */
  predicate IsOccupied(bookings: seq<Booking>, roomId: string, d: Day)
  {
    GetBookingsByDay(bookings, roomId, d).isCheckingIn.Some?
    || Find(bookings, (b: Booking) => Covers(b, roomId, d)).Some?
  }

  /** A click starts a quick booking exactly when no booking of that room, whatever
      its status, covers the day. A cancelled booking therefore still blocks the
      cell, and a check-out day is free unless another booking covers it. */
  lemma QuickBookGate(bookings: seq<Booking>, roomId: string, d: Day)
    ensures !IsOccupied(bookings, roomId, d) <==> forall i :: 0 <= i < |bookings| ==> !Covers(bookings[i], roomId, d)
  {
    if GetBookingsByDay(bookings, roomId, d).isCheckingIn.Some? {
      CheckingInIff(bookings, roomId, d);
    }
  }

  /** `startDiff + duration < 0 || startDiff > 31` decides that a bar is not drawn. */
  predicate BarVisible(calendarStart: Day, b: Booking)
  {
    var startDiff := b.startDate - calendarStart;
    var duration := b.endDate - b.startDate;
    !(startDiff + duration < 0 || startDiff > 31)
  }

  /** A bar is drawn exactly when the booking ends no earlier than the first shown day
      and starts no later than the day after the last shown day. */
  lemma BarVisibleIff(calendarStart: Day, b: Booking)
    ensures BarVisible(calendarStart, b) <==> calendarStart <= b.endDate && b.startDate <= calendarStart + 31
  {
  }

  /** Every booking that occupies a shown cell gets a bar. */
  lemma OccupiedCellHasBar(calendarStart: Day, b: Booking, roomId: string, i: nat)
    requires i < 31 && Covers(b, roomId, Days(calendarStart)[i])
    ensures BarVisible(calendarStart, b)
  {
  }
}
