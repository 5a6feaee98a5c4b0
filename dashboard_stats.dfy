/** The dashboard: the bookings of the selected month (or all of them), the status
    counts and the list behind each count card, and the per-room occupancy chart. */
module Dashboard {
  import opened Calendar
  import opened Seqs
  import opened Types

  datatype FilterType = MonthFilter | AllFilter

  /** The count card whose list is open; `NoKpi` is the closed state. */
  datatype Kpi = NoKpi | TotalKpi | PendingKpi | ConfirmedKpi | CheckedInKpi

  /** A booking that starts or ends in month `m` (1 to 12) of year `y`. Bookings store
      ISO date strings, and `MonthPrefixIsInMonth` shows the `startsWith("YYYY-MM")` test
      the dashboard applies to them is this range test on the day number. */
  predicate TouchesMonth(b: Booking, y: int, m: int)
    requires 1 <= m <= 12
  {
    InMonth(b.startDate, y, m) || InMonth(b.endDate, y, m)
  }

  /** `displayBookings`. */
  function DisplayBookings(bookings: seq<Booking>, filter: FilterType, y: int, m: int): (r: seq<Booking>)
    requires 1 <= m <= 12
    ensures filter == AllFilter ==> r == bookings
    ensures filter == MonthFilter ==>
      && (forall i :: 0 <= i < |r| ==> r[i] in bookings && TouchesMonth(r[i], y, m))
      && (forall i :: 0 <= i < |bookings| && TouchesMonth(bookings[i], y, m) ==> bookings[i] in r)
  {
    if filter == AllFilter then bookings
    else Filter(bookings, (b: Booking) => TouchesMonth(b, y, m))
  }

  function WithStatus(bookings: seq<Booking>, s: BookingStatus): (r: seq<Booking>)
    ensures forall i :: 0 <= i < |r| ==> r[i].status == s && r[i] in bookings
    ensures forall i :: 0 <= i < |bookings| && bookings[i].status == s ==> bookings[i] in r
  {
    Filter(bookings, (b: Booking) => b.status == s)
  }

  datatype Stats = Stats(total: nat, pending: nat, confirmed: nat, checkedIn: nat)

  /** `stats`: the four count cards. The three status counts never add up to more
      than the total, since a booking has one status. */
  function ComputeStats(display: seq<Booking>): (st: Stats)
    ensures st.total == |display|
    ensures st.pending + st.confirmed + st.checkedIn <= st.total
  {
    FilterDisjointCounts(display, (b: Booking) => b.status == Pending, (b: Booking) => b.status == Confirmed,
                         (b: Booking) => b.status == CheckedIn);
    Stats(|display|, |WithStatus(display, Pending)|, |WithStatus(display, Confirmed)|, |WithStatus(display, CheckedIn)|)
  }

  /** `activeBookingList`: nothing when no card is open, everything for the total card,
      otherwise the bookings of the card's status. */
  function ActiveBookingList(kpi: Kpi, display: seq<Booking>): (r: seq<Booking>)
    ensures kpi == NoKpi ==> r == []
    ensures kpi == TotalKpi ==> r == display
    ensures kpi == PendingKpi ==> r == WithStatus(display, Pending)
    ensures kpi == ConfirmedKpi ==> r == WithStatus(display, Confirmed)
    ensures kpi == CheckedInKpi ==> r == WithStatus(display, CheckedIn)
  {
    match kpi
    case NoKpi => []
    case TotalKpi => display
    case PendingKpi => WithStatus(display, Pending)
    case ConfirmedKpi => WithStatus(display, Confirmed)
    case CheckedInKpi => WithStatus(display, CheckedIn)
  }

  /** The list a card opens has as many entries as the card shows. */
  lemma CardMatchesList(kpi: Kpi, display: seq<Booking>)
    requires kpi != NoKpi
    ensures var st := ComputeStats(display);
      |ActiveBookingList(kpi, display)| ==
        match kpi
        case TotalKpi => st.total
        case PendingKpi => st.pending
        case ConfirmedKpi => st.confirmed
        case CheckedInKpi => st.checkedIn
        case NoKpi => 0
  {
  }

  // ---------------------------------------------------------------------------
  // Occupancy

  /** The number of nights `d` in `[lo, hi)` with `start <= d < end`. */
  function CoveredNights(start: Day, end: Day, lo: Day, hi: Day): nat
    decreases hi - lo
  {
    if hi <= lo then 0
    else CoveredNights(start, end, lo, hi - 1) + (if start <= hi - 1 < end then 1 else 0)
  }

  /** A booking's nights clamped to the window `[lo, hi)`, never negative. */
  function ClampedNights(start: Day, end: Day, lo: Day, hi: Day): nat
  {
    var overlapStart := if start < lo then lo else start;
    var overlapEnd := if end > hi then hi else end;
    var diff := overlapEnd - overlapStart;
    if diff > 0 then diff else 0
  }

  /** Clamping counts exactly the booked nights inside the window. */
  lemma {:induction false} ClampedNightsCounts(start: Day, end: Day, lo: Day, hi: Day)
    ensures ClampedNights(start, end, lo, hi) == CoveredNights(start, end, lo, hi)
    decreases hi - lo
  {
    if hi > lo {
      ClampedNightsCounts(start, end, lo, hi - 1);
    }
  }

  /** The month-mode clamp as written: the window ends at the start of the month's
      last day, so that day's night is never counted. */
  function MonthNightsAsWritten(b: Booking, y: int, m: int): nat
    requires 1 <= m <= 12
  {
    ClampedNights(b.startDate, b.endDate, MonthStart(y, m), MonthStart(y, m) + DaysInMonth(y, m) - 1)
  }

  /** The month-mode clamp to the whole month: the window ends at the first day of the next month. */
  function MonthNights(b: Booking, y: int, m: int): (n: nat)
    requires 1 <= m <= 12
    ensures n <= DaysInMonth(y, m)
  {
    ClampedNights(b.startDate, b.endDate, MonthStart(y, m), MonthStart(y, m) + DaysInMonth(y, m))
  }

  /** A booking spanning the whole month occupies every night of it; the clamp as
      written reports one night less. */
  lemma FullMonthBooking(b: Booking, y: int, m: int)
    requires 1 <= m <= 12
    requires b.startDate <= MonthStart(y, m) && MonthStart(y, m) + DaysInMonth(y, m) <= b.endDate
    ensures MonthNights(b, y, m) == DaysInMonth(y, m)
    ensures MonthNightsAsWritten(b, y, m) == DaysInMonth(y, m) - 1
  {
  }

  /** Month-mode nights are exactly the booked nights of the month; the as-written
      clamp misses the last one whenever it is booked. */
  lemma MonthNightsMeaning(b: Booking, y: int, m: int)
    requires 1 <= m <= 12
    ensures MonthNights(b, y, m) == CoveredNights(b.startDate, b.endDate, MonthStart(y, m), MonthStart(y, m) + DaysInMonth(y, m))
    ensures var last := MonthStart(y, m) + DaysInMonth(y, m) - 1;
      MonthNightsAsWritten(b, y, m) + (if b.startDate <= last < b.endDate then 1 else 0) == MonthNights(b, y, m)
  {
    var first := MonthStart(y, m);
    var next := first + DaysInMonth(y, m);
    ClampedNightsCounts(b.startDate, b.endDate, first, next);
    ClampedNightsCounts(b.startDate, b.endDate, first, next - 1);
  }

  /** What one booking adds to its room's count when the month window is `[lo, hi)`:
      its nights inside the window, or in 'all' mode its whole length, which is not clamped. */
  function BookingNights(filter: FilterType, b: Booking, lo: Day, hi: Day): int
  {
    if filter == MonthFilter then ClampedNights(b.startDate, b.endDate, lo, hi) else b.endDate - b.startDate
  }

  /** A booking the chart counts for room `roomId`: its own, and not cancelled. */
  predicate Counted(b: Booking, roomId: string)
  {
    b.roomId == roomId && b.status != Cancelled
  }

  /** The `filter` of a room's counted bookings (`RoomBookingsSpec`, `RoomBookingsIsFilter`). */
  function RoomBookings(bookings: seq<Booking>, roomId: string): seq<Booking>
  {
    if bookings == [] then []
    else
      var last := bookings[|bookings| - 1];
      RoomBookings(bookings[..|bookings| - 1], roomId) + (if Counted(last, roomId) then [last] else [])
  }

  /** A room's chart counts exactly its own bookings that are not cancelled. */
  lemma {:induction false} RoomBookingsSpec(bookings: seq<Booking>, roomId: string)
    ensures var r := RoomBookings(bookings, roomId);
      && (forall i :: 0 <= i < |r| ==> Counted(r[i], roomId) && r[i] in bookings)
      && (forall i :: 0 <= i < |bookings| && Counted(bookings[i], roomId) ==> bookings[i] in r)
  {
    if bookings != [] {
      var init := bookings[..|bookings| - 1];
      var last := bookings[|bookings| - 1];
      RoomBookingsSpec(init, roomId);
      assert bookings == init + [last];
      var r := RoomBookings(bookings, roomId);
      var ri := RoomBookings(init, roomId);
      assert r == ri + (if Counted(last, roomId) then [last] else []);
      forall i | 0 <= i < |bookings| && Counted(bookings[i], roomId)
        ensures bookings[i] in r
      {
        if i < |init| {
          assert bookings[i] == init[i];
        }
      }
    }
  }

  /** A room's counted bookings are the `filter` of the list: same order, same multiplicity. */
  lemma {:induction false} RoomBookingsIsFilter(bookings: seq<Booking>, roomId: string)
    ensures RoomBookings(bookings, roomId) == Filter(bookings, (b: Booking) => Counted(b, roomId))
  {
    if bookings != [] {
      var init := bookings[..|bookings| - 1];
      var last := bookings[|bookings| - 1];
      var counted := (b: Booking) => Counted(b, roomId);
      RoomBookingsIsFilter(init, roomId);
      assert bookings == init + [last];
      FilterConcat(init, [last], counted);
      assert [last][1..] == [];
      assert Filter([last], counted) == if Counted(last, roomId) then [last] else [];
    }
  }

  /** A cancelled booking, or a booking of another room, leaves a room's count unchanged. */
  lemma IgnoredBooking(filter: FilterType, bookings: seq<Booking>, b: Booking, roomId: string, y: int, m: int)
    requires 1 <= m <= 12
    requires b.status == Cancelled || b.roomId != roomId
    ensures OccupiedNights(filter, bookings, roomId, y, m) == OccupiedNights(filter, bookings + [b], roomId, y, m)
  {
    assert (bookings + [b])[..|bookings|] == bookings;
    assert RoomBookings(bookings + [b], roomId) == RoomBookings(bookings, roomId);
  }

  function SumNights(filter: FilterType, bookings: seq<Booking>, lo: Day, hi: Day): int
  {
    if bookings == [] then 0
    else SumNights(filter, bookings[..|bookings| - 1], lo, hi) + BookingNights(filter, bookings[|bookings| - 1], lo, hi)
  }

  /** A room's occupied nights as the chart counts them. The month window runs from
      the first day of the month to the start of its last day, as written. */
  function OccupiedNights(filter: FilterType, bookings: seq<Booking>, roomId: string, y: int, m: int): int
    requires 1 <= m <= 12
  {
    SumNights(filter, RoomBookings(bookings, roomId), MonthStart(y, m), MonthStart(y, m) + DaysInMonth(y, m) - 1)
  }

  /** The same count with the whole-month window, up to the first day of the next month. */
  function IntendedOccupiedNights(filter: FilterType, bookings: seq<Booking>, roomId: string, y: int, m: int): int
    requires 1 <= m <= 12
  {
    SumNights(filter, RoomBookings(bookings, roomId), MonthStart(y, m), MonthStart(y, m) + DaysInMonth(y, m))
  }

  /** In month mode every booking adds a non-negative count. */
  lemma {:induction false} SumNightsNonNegative(bookings: seq<Booking>, lo: Day, hi: Day)
    ensures SumNights(MonthFilter, bookings, lo, hi) >= 0
  {
    if bookings != [] {
      SumNightsNonNegative(bookings[..|bookings| - 1], lo, hi);
    }
  }

  /** In month mode the sum is at least what any one of its bookings adds. */
  lemma {:induction false} SumNightsAtLeast(bookings: seq<Booking>, lo: Day, hi: Day, k: nat)
    requires k < |bookings|
    ensures SumNights(MonthFilter, bookings, lo, hi) >= BookingNights(MonthFilter, bookings[k], lo, hi)
  {
    var init := bookings[..|bookings| - 1];
    if k == |bookings| - 1 {
      SumNightsNonNegative(init, lo, hi);
    } else {
      SumNightsAtLeast(init, lo, hi, k);
    }
  }

  /** 'all' mode does not look at the window. */
  lemma {:induction false} AllModeIgnoresWindow(bookings: seq<Booking>, lo: Day, hi: Day, lo': Day, hi': Day)
    ensures SumNights(AllFilter, bookings, lo, hi) == SumNights(AllFilter, bookings, lo', hi')
  {
    if bookings != [] {
      AllModeIgnoresWindow(bookings[..|bookings| - 1], lo, hi, lo', hi');
    }
  }

  /** The bookings that cover night `d`. */
  function CoveringNight(bookings: seq<Booking>, d: Day): seq<Booking>
  {
    Filter(bookings, (b: Booking) => b.startDate <= d < b.endDate)
  }

  /** Widening a month-mode window by one night adds one for every booking that covers that night. */
  lemma {:induction false} WidenByOneNight(bookings: seq<Booking>, lo: Day, hi: Day)
    requires lo <= hi
    ensures SumNights(MonthFilter, bookings, lo, hi + 1) ==
      SumNights(MonthFilter, bookings, lo, hi) + |CoveringNight(bookings, hi)|
  {
    if bookings != [] {
      var init := bookings[..|bookings| - 1];
      var last := bookings[|bookings| - 1];
      WidenByOneNight(init, lo, hi);
      assert bookings == init + [last];
      FilterConcat(init, [last], (b: Booking) => b.startDate <= hi < b.endDate);
      ClampedNightsCounts(last.startDate, last.endDate, lo, hi + 1);
      ClampedNightsCounts(last.startDate, last.endDate, lo, hi);
    }
  }

  /** The window as written loses, per room, one night for each counted booking that
      covers the month's last night. */
  lemma CorrectedCountAddsLastNight(bookings: seq<Booking>, roomId: string, y: int, m: int)
    requires 1 <= m <= 12
    ensures var last := MonthStart(y, m) + DaysInMonth(y, m) - 1;
      IntendedOccupiedNights(MonthFilter, bookings, roomId, y, m) ==
        OccupiedNights(MonthFilter, bookings, roomId, y, m) + |CoveringNight(RoomBookings(bookings, roomId), last)|
  {
    var first := MonthStart(y, m);
    var last := first + DaysInMonth(y, m) - 1;
    var r := RoomBookings(bookings, roomId);
    assert first <= last;
    WidenByOneNight(r, first, last);
    assert IntendedOccupiedNights(MonthFilter, bookings, roomId, y, m) == SumNights(MonthFilter, r, first, last + 1);
    assert OccupiedNights(MonthFilter, bookings, roomId, y, m) == SumNights(MonthFilter, r, first, last);
  }

  /** In 'all' mode the window plays no part, so the two counts agree. */
  lemma AllModeCountsAgree(bookings: seq<Booking>, roomId: string, y: int, m: int)
    requires 1 <= m <= 12
    ensures IntendedOccupiedNights(AllFilter, bookings, roomId, y, m) == OccupiedNights(AllFilter, bookings, roomId, y, m)
  {
    var first := MonthStart(y, m);
    AllModeIgnoresWindow(RoomBookings(bookings, roomId), first, first + DaysInMonth(y, m), first, first + DaysInMonth(y, m) - 1);
  }

  /** `Math.round(x)` for `x = num / den` with `den > 0`: halves round up. */
  function RoundHalfUp(num: int, den: int): (r: int)
    requires den > 0
    ensures 2 * den * r <= 2 * num + den < 2 * den * (r + 1)
  {
    (2 * num + den) / (2 * den)
  }

  /** The chart value: in month mode the occupancy percentage, capped at 100; in
      'all' mode the raw night count. */
  function Rate(filter: FilterType, nights: int, daysInMonth: int): int
    requires daysInMonth > 0
  {
    if filter == MonthFilter then Min(100, RoundHalfUp(nights * 100, daysInMonth)) else nights
  }

  /** A month-mode rate is a percentage; a fully occupied month is 100, an empty one 0. */
  lemma RateBounds(nights: int, daysInMonth: int)
    requires daysInMonth > 0 && nights >= 0
    ensures 0 <= Rate(MonthFilter, nights, daysInMonth) <= 100
    ensures nights >= daysInMonth ==> Rate(MonthFilter, nights, daysInMonth) == 100
    ensures nights == 0 ==> Rate(MonthFilter, nights, daysInMonth) == 0
  {
    var r := RoundHalfUp(nights * 100, daysInMonth);
    if nights >= daysInMonth {
      assert nights * 100 >= daysInMonth * 100;
      assert 2 * daysInMonth * (r + 1) > 2 * daysInMonth * 100;
      MulCancel(2 * daysInMonth, r + 1, 100);
    } else if nights == 0 {
      assert 2 * daysInMonth * (r + 1) > 0;
      assert 2 * daysInMonth * r < 2 * daysInMonth;
      MulCancel(2 * daysInMonth, 1, r);
    }
    assert 2 * daysInMonth * (r + 1) > 0;
    MulCancel(2 * daysInMonth, r + 1, 0);
  }

  /** Cancelling a positive factor. */
  lemma MulCancel(k: int, a: int, b: int)
    requires k > 0 && k * a > k * b
    ensures a > b
  {
    assert k * a - k * b == k * (a - b);
  }

  datatype ChartEntry = ChartEntry(name: string, value: int, color: string)

  /** Adding one more booking of the list to the running sum. */
  lemma SumNightsStep(filter: FilterType, s: seq<Booking>, i: nat, lo: Day, hi: Day)
    requires i < |s|
    ensures SumNights(filter, s[..i + 1], lo, hi) == SumNights(filter, s[..i], lo, hi) + BookingNights(filter, s[i], lo, hi)
  {
    assert s[..i + 1][..i] == s[..i];
  }

  /** One room's occupied nights: its counted bookings, added up by `AddUpNights`. */
  method RoomOccupancy(filter: FilterType, bookings: seq<Booking>, roomId: string, rangeStart: Day, rangeEnd: Day)
    returns (nights: int)
    ensures nights == SumNights(filter, RoomBookings(bookings, roomId), rangeStart, rangeEnd)
  {
    var roomBookings := RoomBookings(bookings, roomId);
    nights := AddUpNights(filter, roomBookings, rangeStart, rangeEnd);
  }

  /** The `forEach` that adds up a room's bookings, in month mode clamped to the
      window `[rangeStart, rangeEnd)`. */
  method AddUpNights(filter: FilterType, roomBookings: seq<Booking>, rangeStart: Day, rangeEnd: Day) returns (nights: int)
    ensures nights == SumNights(filter, roomBookings, rangeStart, rangeEnd)
  {
    nights := 0;
    var i := 0;
    while i < |roomBookings|
      invariant 0 <= i <= |roomBookings|
      invariant nights == SumNights(filter, roomBookings[..i], rangeStart, rangeEnd)
    {
      var b := roomBookings[i];
      SumNightsStep(filter, roomBookings, i, rangeStart, rangeEnd);
      if filter == MonthFilter {
        var overlapStart := if b.startDate < rangeStart then rangeStart else b.startDate;
        var overlapEnd := if b.endDate > rangeEnd then rangeEnd else b.endDate;
        var diff := overlapEnd - overlapStart;
        if diff > 0 {
          nights := nights + diff;
        }
      } else {
        nights := nights + (b.endDate - b.startDate);
      }
      i := i + 1;
    }
    assert roomBookings[..i] == roomBookings;
  }

  /** `occupancyData`: one chart entry per room, in room order. The window runs from
      the first day of the month to `new Date(year, month + 1, 0)`, the start of its last day. */
  method OccupancyData(rooms: seq<Room>, bookings: seq<Booking>, filter: FilterType, y: int, m: int) returns (data: seq<ChartEntry>)
    requires 1 <= m <= 12
    ensures |data| == |rooms|
    ensures forall i :: 0 <= i < |rooms| ==>
      data[i] == ChartEntry(rooms[i].name, Rate(filter, OccupiedNights(filter, bookings, rooms[i].id, y, m), DaysInMonth(y, m)), rooms[i].color)
  {
    var rangeStart := MonthStart(y, m);
    var rangeEnd := rangeStart + DaysInMonth(y, m) - 1;
    var totalDays := DaysInMonth(y, m);
    data := [];
    var i := 0;
    while i < |rooms|
      invariant 0 <= i <= |rooms|
      invariant |data| == i
      invariant forall j :: 0 <= j < i ==>
        data[j] == ChartEntry(rooms[j].name, Rate(filter, OccupiedNights(filter, bookings, rooms[j].id, y, m), totalDays), rooms[j].color)
    {
      var nights := RoomOccupancy(filter, bookings, rooms[i].id, rangeStart, rangeEnd);
      assert nights == OccupiedNights(filter, bookings, rooms[i].id, y, m);
      data := data + [ChartEntry(rooms[i].name, Rate(filter, nights, totalDays), rooms[i].color)];
      i := i + 1;
    }
  }

  /** The chart with the whole-month window: one entry per room, in room order. */
  function IntendedOccupancyData(rooms: seq<Room>, bookings: seq<Booking>, filter: FilterType, y: int, m: int): (data: seq<ChartEntry>)
    requires 1 <= m <= 12
    ensures |data| == |rooms|
    ensures forall i :: 0 <= i < |rooms| ==> data[i].name == rooms[i].name && data[i].color == rooms[i].color
  {
    seq(|rooms|, i requires 0 <= i < |rooms| =>
      ChartEntry(rooms[i].name, Rate(filter, IntendedOccupiedNights(filter, bookings, rooms[i].id, y, m), DaysInMonth(y, m)), rooms[i].color))
  }

  /** A live booking over the whole month makes its room's whole-month count at least the month's length. */
  lemma FullMonthCounted(bookings: seq<Booking>, roomId: string, y: int, m: int, k: nat)
    requires 1 <= m <= 12 && k < |bookings|
    requires bookings[k].roomId == roomId && bookings[k].status != Cancelled
    requires bookings[k].startDate <= MonthStart(y, m) && MonthStart(y, m) + DaysInMonth(y, m) <= bookings[k].endDate
    ensures IntendedOccupiedNights(MonthFilter, bookings, roomId, y, m) >= DaysInMonth(y, m)
  {
    var r := RoomBookings(bookings, roomId);
    RoomBookingsSpec(bookings, roomId);
    assert bookings[k] in r;
    var j :| 0 <= j < |r| && r[j] == bookings[k];
    var lo := MonthStart(y, m);
    SumNightsAtLeast(r, lo, lo + DaysInMonth(y, m), j);
    FullMonthBooking(bookings[k], y, m);
  }

  /** With the whole-month window, a room with a live booking over the whole month shows 100%. */
  lemma IntendedChartFullMonth(rooms: seq<Room>, bookings: seq<Booking>, y: int, m: int, i: nat, k: nat)
    requires 1 <= m <= 12 && i < |rooms| && k < |bookings|
    requires bookings[k].roomId == rooms[i].id && bookings[k].status != Cancelled
    requires bookings[k].startDate <= MonthStart(y, m) && MonthStart(y, m) + DaysInMonth(y, m) <= bookings[k].endDate
    ensures IntendedOccupancyData(rooms, bookings, MonthFilter, y, m)[i].value == 100
  {
    FullMonthCounted(bookings, rooms[i].id, y, m, k);
    RateBounds(IntendedOccupiedNights(MonthFilter, bookings, rooms[i].id, y, m), DaysInMonth(y, m));
  }
}
