/** The month grid: six Sunday-first weeks of seven days covering the selected
    month, with each room's bookings drawn as segments in the day cells. Unlike
    the timeline, a booking is shown on its check-out day too. */
module SimpleGridCalendar {
  import opened Calendar
  import opened Seqs
  import opened Types
  import GuesthouseCalendar

  /** `calendarStart`: the 1st of the month stepped back by its weekday. */
  function CalendarStart(y: int, m: int): Day
    requires 1 <= m <= 12
  {
    MonthStart(y, m) - Weekday(MonthStart(y, m))
  }

  /** `calendarDays`: the 42 consecutive days from `calendarStart`. */
  function CalendarDays(y: int, m: int): (r: seq<Day>)
    requires 1 <= m <= 12
    ensures |r| == 42
    ensures forall i :: 0 <= i < 42 ==> r[i] == CalendarStart(y, m) + i
  {
    seq(42, i requires 0 <= i < 42 => CalendarStart(y, m) + i)
  }

  /** Stepping forward by `k` days moves the weekday forward by `k` modulo 7. */
  lemma {:induction false} WeekdayAdvance(n: Day, k: nat)
    ensures Weekday(n + k) == (Weekday(n) + k) % 7
  {
    if k > 0 {
      WeekdayAdvance(n, k - 1);
      WeekdayStep(n + k - 1);
    }
  }

  /** The grid starts on the Sunday on or before the 1st, and the 1st is in its first week. */
  lemma CalendarStartIsSunday(y: int, m: int)
    requires 1 <= m <= 12
    ensures Weekday(CalendarStart(y, m)) == 0
    ensures CalendarStart(y, m) <= MonthStart(y, m) < CalendarStart(y, m) + 7
  {
    var first := MonthStart(y, m);
    var w := Weekday(first);
    WeekdayAdvance(first - w, w);
    assert (Weekday(first - w) + w) % 7 == w;
  }

  /** Cell `i` of the grid sits in column `i % 7`, the column of its weekday. */
  lemma GridColumnsAreWeekdays(y: int, m: int)
    requires 1 <= m <= 12
    ensures forall i :: 0 <= i < 42 ==> Weekday(CalendarDays(y, m)[i]) == i % 7
  {
    CalendarStartIsSunday(y, m);
    forall i | 0 <= i < 42
      ensures Weekday(CalendarDays(y, m)[i]) == i % 7
    {
      WeekdayAdvance(CalendarStart(y, m), i);
    }
  }

  /** Every day of the month is a cell of the grid. */
  lemma GridContainsMonth(y: int, m: int)
    requires 1 <= m <= 12
    ensures forall d :: InMonth(d, y, m) ==> CalendarStart(y, m) <= d < CalendarStart(y, m) + 42
    ensures forall d :: InMonth(d, y, m) ==> d in CalendarDays(y, m)
  {
    CalendarStartIsSunday(y, m);
    assert DaysInMonth(y, m) <= 31;
    var start := CalendarStart(y, m);
    forall d | InMonth(d, y, m)
      ensures d in CalendarDays(y, m)
    {
      assert CalendarDays(y, m)[d - start] == d;
    }
  }

  /** `calendarDays.slice(weekIdx * 7, (weekIdx + 1) * 7)`. */
  function Week(days: seq<Day>, weekIdx: nat): seq<Day>
    requires weekIdx < 6 && |days| == 42
  {
    days[weekIdx * 7..(weekIdx + 1) * 7]
  }

  /** The six weeks, side by side, are the grid, and each starts on a Sunday. */
  lemma WeeksPartitionGrid(y: int, m: int)
    requires 1 <= m <= 12
    ensures var days := CalendarDays(y, m);
      && Week(days, 0) + Week(days, 1) + Week(days, 2) + Week(days, 3) + Week(days, 4) + Week(days, 5) == days
      && forall w :: 0 <= w < 6 ==> |Week(days, w)| == 7 && Weekday(Week(days, w)[0]) == 0
  {
    var days := CalendarDays(y, m);
    assert days == days[..7] + days[7..14] + days[14..21] + days[21..28] + days[28..35] + days[35..42];
    GridColumnsAreWeekdays(y, m);
    forall w | 0 <= w < 6
      ensures Weekday(Week(days, w)[0]) == 0
    {
      assert Week(days, w)[0] == days[w * 7];
    }
  }

  /** One booking as drawn in one cell. */
  datatype DayState = DayState(booking: Booking, isStart: bool, isEnd: bool)

  /** The grid's cell test: the check-out day is included. */
  predicate ShownOn(b: Booking, roomId: string, d: Day)
  {
    b.roomId == roomId && b.startDate <= d <= b.endDate
  }

  /** `getBookingStatesForDay`. */
  function GetBookingStatesForDay(bookings: seq<Booking>, roomId: string, d: Day): seq<DayState>
  {
    var shown := Filter(bookings, (b: Booking) => ShownOn(b, roomId, d));
    seq(|shown|, i requires 0 <= i < |shown| => DayState(shown[i], d == shown[i].startDate, d == shown[i].endDate))
  }

  /** A cell lists exactly the bookings of its room whose stay includes the day or
      ends on it, flagging the check-in and check-out days. */
  lemma BookingStatesSpec(bookings: seq<Booking>, roomId: string, d: Day)
    ensures var states := GetBookingStatesForDay(bookings, roomId, d);
      && (forall i :: 0 <= i < |states| ==>
            states[i].booking in bookings && ShownOn(states[i].booking, roomId, d)
            && (states[i].isStart <==> d == states[i].booking.startDate)
            && (states[i].isEnd <==> d == states[i].booking.endDate))
      && (forall i :: 0 <= i < |bookings| && ShownOn(bookings[i], roomId, d) ==>
            exists j :: 0 <= j < |states| && states[j].booking == bookings[i])
  {
    var shown := Filter(bookings, (b: Booking) => ShownOn(b, roomId, d));
    var states := GetBookingStatesForDay(bookings, roomId, d);
    forall i | 0 <= i < |bookings| && ShownOn(bookings[i], roomId, d)
      ensures exists j :: 0 <= j < |states| && states[j].booking == bookings[i]
    {
      var j :| 0 <= j < |shown| && shown[j] == bookings[i];
      assert states[j].booking == bookings[i];
    }
  }

  /** The grid shows a booking on the days the timeline shows it, and on its
      check-out day besides. */
  lemma GridAddsCheckoutDay(b: Booking, roomId: string, d: Day)
    requires b.startDate <= b.endDate
    ensures ShownOn(b, roomId, d) <==> GuesthouseCalendar.Covers(b, roomId, d) || (b.roomId == roomId && d == b.endDate)
  {
  }

  /** A segment's width and left offset, in percent of the cell, and whether the
      guest's name is drawn in it. */
  datatype Segment = Segment(widthPct: int, leftPct: int, showName: bool)

  /** The segment shape: a check-in fills the right half, a check-out the left half
      without a name, a same-day stay the centred 40%, any other day the whole cell. */
  function SegmentShape(isStart: bool, isEnd: bool): (s: Segment)
    ensures 0 <= s.leftPct && 0 < s.widthPct && s.leftPct + s.widthPct <= 100
    ensures s.widthPct == 100 <==> !isStart && !isEnd
    ensures !s.showName <==> !isStart && isEnd
    ensures isStart && !isEnd ==> s.leftPct + s.widthPct == 100
    ensures !isStart && isEnd ==> s.leftPct == 0
    ensures isStart && isEnd ==> s.leftPct == 100 - (s.leftPct + s.widthPct)
  {
    if isStart && !isEnd then Segment(50, 50, true)
    else if !isStart && isEnd then Segment(50, 0, false)
    else if isStart && isEnd then Segment(40, 30, true)
    else Segment(100, 0, true)
  }

  /** The text in a segment: the full name in a full-width segment, otherwise its first character. */
  function SegmentLabel(s: Segment, guestName: string): (text: string)
    ensures !s.showName ==> text == ""
    ensures s.showName && s.widthPct == 100 ==> text == guestName
    ensures s.showName && s.widthPct != 100 ==> text == guestName[..(if |guestName| > 0 then 1 else 0)]
  {
    if !s.showName then ""
    else if s.widthPct == 100 then guestName
    else if |guestName| > 0 then [guestName[0]] else ""
  }

  /** `getDurationText`: "N박 M일" with N nights and M = N + 1 days. */
  function DurationText(start: Day, end: Day): string
  {
    var nights := end - start;
    IntToString(nights) + "박 " + IntToString(nights + 1) + "일"
  }

  /** In digits followed by a non-digit, the first non-digit sits right after the digits. */
  lemma FirstNonDigit(a: string, x: string)
    requires forall i :: 0 <= i < |a| ==> IsDigit(a[i])
    requires |x| > 0 && !IsDigit(x[0])
    ensures forall i :: 0 <= i < |a| ==> IsDigit((a + x)[i])
    ensures !IsDigit((a + x)[|a|])
  {
  }

  /** A run of digits followed by a non-digit can be split off only one way. */
  lemma DigitPrefixUnique(a: string, x: string, c: string, y: string)
    requires forall i :: 0 <= i < |a| ==> IsDigit(a[i])
    requires forall i :: 0 <= i < |c| ==> IsDigit(c[i])
    requires |x| > 0 && !IsDigit(x[0]) && |y| > 0 && !IsDigit(y[0])
    requires a + x == c + y
    ensures a == c
  {
    FirstNonDigit(a, x);
    FirstNonDigit(c, y);
    assert |a| == |c|;
    assert a == (a + x)[..|a|] && c == (c + y)[..|c|];
  }

  /** The duration text, split after the night count. */
  lemma DurationTextSplit(start: Day, end: Day)
    requires start <= end
    ensures var rest := "박 " + IntToString(end - start + 1) + "일";
      DurationText(start, end) == NatToString(end - start) + rest && !IsDigit(rest[0])
  {
  }

  /** Two stays have the same duration text exactly when they have the same number of nights. */
  lemma DurationTextDeterminesNights(s1: Day, e1: Day, s2: Day, e2: Day)
    requires s1 <= e1 && s2 <= e2
    ensures DurationText(s1, e1) == DurationText(s2, e2) <==> e1 - s1 == e2 - s2
  {
    var n1, n2 := e1 - s1, e2 - s2;
    if DurationText(s1, e1) == DurationText(s2, e2) {
      NatToStringRoundTrip(n1);
      NatToStringRoundTrip(n2);
      DurationTextSplit(s1, e1);
      DurationTextSplit(s2, e2);
      DigitPrefixUnique(NatToString(n1), "박 " + IntToString(n1 + 1) + "일",
                        NatToString(n2), "박 " + IntToString(n2 + 1) + "일");
    }
  }
}
