/** Calendar arithmetic shared by every screen: dates are whole day numbers,
    civil dates are proleptic Gregorian (as JavaScript's Date is), and the
    "YYYY-MM-DD" strings the components compare and filter by prefix. */
module Calendar {

  /** A date as a day number; day 0 is 1970-01-01. */
  type Day = int

  /** Day of the week as `Date.getDay` reports it: 0 is Sunday, 6 is Saturday.
      Day 0 (1970-01-01) was a Thursday. */
  function Weekday(n: Day): (w: nat)
    ensures w < 7
  {
    (n + 4) % 7
  }

  /** Weekdays repeat every seven days and advance by one each day. */
  lemma WeekdayStep(n: Day)
    ensures Weekday(n + 7) == Weekday(n)
    ensures Weekday(n + 1) == if Weekday(n) == 6 then 0 else Weekday(n) + 1
  {
  }

  lemma EpochIsThursday()
    ensures Weekday(0) == 4
  {
  }

  // ---------------------------------------------------------------------------
  // Civil dates

  datatype CivilDate = CivilDate(year: int, month: int, day: int)

  predicate IsLeap(y: int)
  {
    y % 4 == 0 && (y % 100 != 0 || y % 400 == 0)
  }

  function DaysInYear(y: int): nat
  {
    if IsLeap(y) then 366 else 365
  }

  /** Number of days of month `m` (1 = January) of year `y`. */
  function DaysInMonth(y: int, m: int): nat
    requires 1 <= m <= 12
  {
    if m == 2 then (if IsLeap(y) then 29 else 28)
    else if m == 4 || m == 6 || m == 9 || m == 11 then 30
    else 31
  }

  /** Days of a common year before month `m`; month 13 stands for the whole year. */
  function CommonDaysBefore(m: int): nat
    requires 1 <= m <= 13
  {
    if m == 1 then 0 else if m == 2 then 31 else if m == 3 then 59
    else if m == 4 then 90 else if m == 5 then 120 else if m == 6 then 151
    else if m == 7 then 181 else if m == 8 then 212 else if m == 9 then 243
    else if m == 10 then 273 else if m == 11 then 304 else if m == 12 then 334
    else 365
  }

  function DaysBeforeMonth(y: int, m: int): nat
    requires 1 <= m <= 13
  {
    CommonDaysBefore(m) + (if m > 2 && IsLeap(y) then 1 else 0)
  }

  /** Leap years in the years before `y` (counted from year 1, extended to all integers). */
  function LeapYearsBefore(y: int): int
  {
    (y - 1) / 4 - (y - 1) / 100 + (y - 1) / 400
  }

  /** Day number of January 1st of year `y`. */
  function YearStart(y: int): Day
  {
    365 * (y - 1970) + LeapYearsBefore(y) - LeapYearsBefore(1970)
  }

  /** Day number of the 1st of month `m` of year `y`. */
  function MonthStart(y: int, m: int): Day
    requires 1 <= m <= 12
  {
    YearStart(y) + DaysBeforeMonth(y, m)
  }

  predicate ValidDate(c: CivilDate)
  {
    1 <= c.month <= 12 && 1 <= c.day <= DaysInMonth(c.year, c.month)
  }

  /** The day number of a civil date. */
  function DayOf(c: CivilDate): Day
    requires 1 <= c.month <= 12
  {
    MonthStart(c.year, c.month) + c.day - 1
  }

  /** Chronological order of civil dates: year, then month, then day. */
  predicate DateBefore(a: CivilDate, b: CivilDate)
  {
    a.year < b.year
    || (a.year == b.year && a.month < b.month)
    || (a.year == b.year && a.month == b.month && a.day < b.day)
  }

  /** `y / k` steps up from `(y - 1) / k` exactly when `k` divides `y`. */
  lemma DivStep(y: int, k: int)
    requires k == 4 || k == 100 || k == 400
    ensures y / k - (y - 1) / k == if y % k == 0 then 1 else 0
  {
    var q, r := (y - 1) / k, (y - 1) % k;
    assert y - 1 == k * q + r && 0 <= r < k;
    if r == k - 1 {
      assert y == k * (q + 1);
    } else {
      assert y == k * q + (r + 1) && 0 < r + 1 < k;
    }
  }

  lemma MultipleOf100(t: int)
    ensures (100 * t) % 100 == 0
  {
  }

  lemma MultipleOf4(t: int)
    ensures (4 * t) % 4 == 0
  {
  }

  /** 400 is a multiple of 100, and 100 of 4. */
  lemma DivisorChain(y: int)
    ensures y % 400 == 0 ==> y % 100 == 0
    ensures y % 100 == 0 ==> y % 4 == 0
  {
    if y % 400 == 0 {
      var t := y / 400;
      assert y == 100 * (4 * t);
      MultipleOf100(4 * t);
    }
    if y % 100 == 0 {
      var t := y / 100;
      assert y == 4 * (25 * t);
      MultipleOf4(25 * t);
    }
  }

  /** Year `y` adds one to `LeapYearsBefore` exactly when it is a leap year. */
  lemma LeapYearsStep(y: int)
    ensures LeapYearsBefore(y + 1) - LeapYearsBefore(y) == if IsLeap(y) then 1 else 0
  {
    DivStep(y, 4);
    DivStep(y, 100);
    DivStep(y, 400);
    DivisorChain(y);
    var a, b, c := y / 4 - (y - 1) / 4, y / 100 - (y - 1) / 100, y / 400 - (y - 1) / 400;
    assert LeapYearsBefore(y + 1) - LeapYearsBefore(y) == a - b + c;
  }

  lemma YearStartStep(y: int)
    ensures YearStart(y + 1) == YearStart(y) + DaysInYear(y)
  {
    LeapYearsStep(y);
  }

  lemma {:induction false} YearStartIncreasing(a: int, b: int)
    requires a < b
    ensures YearStart(a) + DaysInYear(a) <= YearStart(b)
    decreases b - a
  {
    YearStartStep(a);
    if a + 1 < b {
      YearStartIncreasing(a + 1, b);
    }
  }

  lemma DaysBeforeMonthStep(y: int, m: int)
    requires 1 <= m <= 12
    ensures DaysBeforeMonth(y, m + 1) == DaysBeforeMonth(y, m) + DaysInMonth(y, m)
  {
  }

  lemma DaysBeforeMonthIncreasing(y: int, m1: int, m2: int)
    requires 1 <= m1 < m2 <= 13
    ensures DaysBeforeMonth(y, m1) + DaysInMonth(y, m1) <= DaysBeforeMonth(y, m2)
  {
  }

  /** A valid date lies in its own year. */
  lemma DayOfInYear(c: CivilDate)
    requires ValidDate(c)
    ensures YearStart(c.year) <= DayOf(c) < YearStart(c.year) + DaysInYear(c.year)
  {
    DaysBeforeMonthStep(c.year, c.month);
  }

  /** Day numbers order valid civil dates chronologically, and tell them apart. */
  lemma DayOfOrder(a: CivilDate, b: CivilDate)
    requires ValidDate(a) && ValidDate(b)
    ensures DateBefore(a, b) <==> DayOf(a) < DayOf(b)
    ensures a == b <==> DayOf(a) == DayOf(b)
  {
    DayOfInYear(a);
    DayOfInYear(b);
    if a.year < b.year {
      YearStartIncreasing(a.year, b.year);
    } else if b.year < a.year {
      YearStartIncreasing(b.year, a.year);
    } else if a.month < b.month {
      DaysBeforeMonthIncreasing(a.year, a.month, b.month);
    } else if b.month < a.month {
      DaysBeforeMonthIncreasing(a.year, b.month, a.month);
    }
  }

  /** Day `d` falls in month `m` of year `y`. */
  predicate InMonth(d: Day, y: int, m: int)
    requires 1 <= m <= 12
  {
    MonthStart(y, m) <= d < MonthStart(y, m) + DaysInMonth(y, m)
  }

  /** The range test of InMonth picks exactly the dates of that year and month. */
  lemma InMonthIff(c: CivilDate, y: int, m: int)
    requires ValidDate(c) && 1 <= m <= 12
    ensures InMonth(DayOf(c), y, m) <==> c.year == y && c.month == m
  {
    var first := CivilDate(y, m, 1);
    var last := CivilDate(y, m, DaysInMonth(y, m));
    DayOfOrder(c, first);
    DayOfOrder(last, c);
  }

  // ---------------------------------------------------------------------------
  // Strings

  function DigitChar(d: int): char
    requires 0 <= d <= 9
  {
    ('0' as int + d) as char
  }

  /** `String(n)` for a non-negative integer. */
  function NatToString(n: nat): (s: string)
    ensures |s| >= 1
  {
    if n < 10 then [DigitChar(n)] else NatToString(n / 10) + [DigitChar(n % 10)]
  }

  predicate IsDigit(c: char)
  {
    '0' <= c <= '9'
  }

  /** The value of a string of decimal digits. */
  function ParseDigits(s: string): nat
    requires forall i :: 0 <= i < |s| ==> IsDigit(s[i])
  {
    if s == [] then 0
    else
      assert IsDigit(s[|s| - 1]);
      ParseDigits(s[..|s| - 1]) * 10 + (s[|s| - 1] as int - '0' as int)
  }

  /** `String(n)` writes decimal digits only, and reading them back gives `n`. */
  lemma {:induction false} NatToStringRoundTrip(n: nat)
    ensures forall i :: 0 <= i < |NatToString(n)| ==> IsDigit(NatToString(n)[i])
    ensures ParseDigits(NatToString(n)) == n
  {
    var s := NatToString(n);
    if n >= 10 {
      NatToStringRoundTrip(n / 10);
      assert s[..|s| - 1] == NatToString(n / 10);
    }
  }

  /** `String(i)` for any integer. */
  function IntToString(i: int): string
  {
    if i < 0 then "-" + NatToString(-i) else NatToString(i)
  }

  /** `s.padStart(2, '0')`. */
  function PadStart2(s: string): string
  {
    if |s| >= 2 then s else seq(2 - |s|, _ => '0') + s
  }

  /** `toLocalISOString`: year, zero-padded month and zero-padded day, joined by '-'. */
  function ToLocalISOString(c: CivilDate): string
  {
    IntToString(c.year) + ("-" + (PadStart2(IntToString(c.month)) + ("-" + PadStart2(IntToString(c.day)))))
  }

  /** The `YYYY-MM` key the dashboard filters by. */
  function MonthPrefix(y: int, m: int): string
  {
    IntToString(y) + ("-" + PadStart2(IntToString(m)))
  }

  predicate StartsWith(s: string, p: string)
  {
    |p| <= |s| && s[..|p|] == p
  }

  /** JavaScript's `<` on strings: lexicographic by character code. */
  predicate StrLess(a: string, b: string)
  {
    if |a| == 0 then |b| > 0
    else if |b| == 0 then false
    else if a[0] != b[0] then a[0] < b[0]
    else StrLess(a[1..], b[1..])
  }

  function Pow10(w: nat): (p: nat)
    ensures p >= 1
  {
    if w == 0 then 1 else 10 * Pow10(w - 1)
  }

  /** The last `w` decimal digits of `n`, zero-padded. */
  function Digits(n: nat, w: nat): (s: string)
    ensures |s| == w
  {
    if w == 0 then "" else Digits(n / 10, w - 1) + [DigitChar(n % 10)]
  }

  lemma {:induction false} NatToStringIsDigits(n: nat, w: nat)
    requires 1 <= w && Pow10(w - 1) <= n < Pow10(w)
    ensures NatToString(n) == Digits(n, w)
  {
    if w == 1 {
      assert Digits(n / 10, 0) == "";
    } else {
      assert Pow10(w) == 10 * Pow10(w - 1);
      assert Pow10(w - 1) == 10 * Pow10(w - 2);
      NatToStringIsDigits(n / 10, w - 1);
    }
  }

  lemma PaddedIsDigits(m: int)
    requires 0 <= m < 100
    ensures PadStart2(IntToString(m)) == Digits(m, 2)
  {
    if m < 10 {
      assert Digits(m, 2) == Digits(0, 1) + [DigitChar(m)];
      assert Digits(0, 1) == Digits(0, 0) + [DigitChar(0)];
    } else {
      NatToStringIsDigits(m, 2);
    }
  }

  lemma FourDigitYear(y: int)
    requires 1000 <= y <= 9999
    ensures IntToString(y) == Digits(y, 4)
  {
    assert Pow10(3) == 1000 && Pow10(4) == 10000;
    NatToStringIsDigits(y, 4);
  }

  lemma {:induction false} StrLessConcat(a: string, b: string, c: string, d: string)
    requires |a| == |c|
    ensures StrLess(a + b, c + d) <==> StrLess(a, c) || (a == c && StrLess(b, d))
    decreases |a|
  {
    if |a| == 0 {
      assert a + b == b && c + d == d;
    } else {
      assert (a + b)[0] == a[0] && (c + d)[0] == c[0];
      assert (a + b)[1..] == a[1..] + b && (c + d)[1..] == c[1..] + d;
      StrLessConcat(a[1..], b, c[1..], d);
      if a[0] == c[0] {
        assert a == c <==> a[1..] == c[1..] by {
          if a[1..] == c[1..] { assert a == [a[0]] + a[1..] && c == [c[0]] + c[1..]; }
        }
      }
    }
  }

  lemma ConcatEq(a: string, b: string, c: string, d: string)
    requires |a| == |c|
    ensures a + b == c + d <==> a == c && b == d
  {
    if a + b == c + d {
      assert a == (a + b)[..|a|] && c == (c + d)[..|c|];
      assert b == (a + b)[|a|..] && d == (c + d)[|c|..];
    }
  }

  /** Fixed-width digit strings compare like the numbers they spell. */
  lemma {:induction false} DigitsOrder(x: nat, y: nat, w: nat)
    requires x < Pow10(w) && y < Pow10(w)
    ensures StrLess(Digits(x, w), Digits(y, w)) <==> x < y
    ensures Digits(x, w) == Digits(y, w) <==> x == y
  {
    if w == 0 {
    } else {
      assert Pow10(w) == 10 * Pow10(w - 1);
      DigitsOrder(x / 10, y / 10, w - 1);
      StrLessConcat(Digits(x / 10, w - 1), [DigitChar(x % 10)], Digits(y / 10, w - 1), [DigitChar(y % 10)]);
      ConcatEq(Digits(x / 10, w - 1), [DigitChar(x % 10)], Digits(y / 10, w - 1), [DigitChar(y % 10)]);
      assert x == 10 * (x / 10) + x % 10 && y == 10 * (y / 10) + y % 10;
    }
  }

  /** A civil date whose year has four digits, as all the application's dates do. */
  predicate FourDigitDate(c: CivilDate)
  {
    ValidDate(c) && 1000 <= c.year <= 9999
  }

  lemma ISOShape(c: CivilDate)
    requires FourDigitDate(c)
    ensures ToLocalISOString(c) == Digits(c.year, 4) + ("-" + (Digits(c.month, 2) + ("-" + Digits(c.day, 2))))
    ensures MonthPrefix(c.year, c.month) == Digits(c.year, 4) + ("-" + Digits(c.month, 2))
  {
    FourDigitYear(c.year);
    PaddedIsDigits(c.month);
    PaddedIsDigits(c.day);
  }

  /** For four-digit years the ISO strings compare exactly as the dates do, which
      is what the string comparisons of the calendars rely on. */
  lemma ISOOrder(a: CivilDate, b: CivilDate)
    requires FourDigitDate(a) && FourDigitDate(b)
    ensures StrLess(ToLocalISOString(a), ToLocalISOString(b)) <==> DateBefore(a, b)
    ensures ToLocalISOString(a) == ToLocalISOString(b) <==> a == b
  {
    ISOShape(a);
    ISOShape(b);
    var ya, yb := Digits(a.year, 4), Digits(b.year, 4);
    var ma, mb := Digits(a.month, 2), Digits(b.month, 2);
    var da, db := Digits(a.day, 2), Digits(b.day, 2);
    assert Pow10(2) == 100 && Pow10(4) == 10000;
    DigitsOrder(a.year, b.year, 4);
    DigitsOrder(a.month, b.month, 2);
    DigitsOrder(a.day, b.day, 2);
    StrLessConcat(ya, "-" + (ma + ("-" + da)), yb, "-" + (mb + ("-" + db)));
    ConcatEq(ya, "-" + (ma + ("-" + da)), yb, "-" + (mb + ("-" + db)));
    StrLessConcat("-", ma + ("-" + da), "-", mb + ("-" + db));
    ConcatEq("-", ma + ("-" + da), "-", mb + ("-" + db));
    StrLessConcat(ma, "-" + da, mb, "-" + db);
    ConcatEq(ma, "-" + da, mb, "-" + db);
    StrLessConcat("-", da, "-", db);
    ConcatEq("-", da, "-", db);
    assert !StrLess("-", "-");
  }

  /** A `Y-M-D` string of fixed-width fields starts with a `Y-M` key of the same widths
      exactly when the year and month fields agree. */
  lemma KeyPrefix(yc: string, mc: string, rest: string, yp: string, mp: string)
    requires |yc| == |yp| && |mc| == |mp|
    ensures StartsWith(yc + ("-" + (mc + rest)), yp + ("-" + mp)) <==> yc == yp && mc == mp
  {
    var key := yc + ("-" + mc);
    assert yc + ("-" + (mc + rest)) == key + rest;
    assert (key + rest)[..|key|] == key;
    ConcatEq(yc, "-" + mc, yp, "-" + mp);
    ConcatEq("-", mc, "-", mp);
  }

  /** The ISO string of a date starts with a month key exactly when the date is in that month. */
  lemma ISOMonthPrefix(c: CivilDate, y: int, m: int)
    requires FourDigitDate(c) && 1000 <= y <= 9999 && 1 <= m <= 12
    ensures StartsWith(ToLocalISOString(c), MonthPrefix(y, m)) <==> c.year == y && c.month == m
  {
    ISOShape(c);
    FourDigitYear(y);
    PaddedIsDigits(m);
    KeyPrefix(Digits(c.year, 4), Digits(c.month, 2), "-" + Digits(c.day, 2), Digits(y, 4), Digits(m, 2));
    assert Pow10(2) == 100 && Pow10(4) == 10000;
    DigitsOrder(c.year, y, 4);
    DigitsOrder(c.month, m, 2);
  }

  /** The dashboard's prefix test and the model's InMonth agree on every four-digit date. */
  lemma MonthPrefixIsInMonth(c: CivilDate, y: int, m: int)
    requires FourDigitDate(c) && 1000 <= y <= 9999 && 1 <= m <= 12
    ensures StartsWith(ToLocalISOString(c), MonthPrefix(y, m)) <==> InMonth(DayOf(c), y, m)
  {
    ISOMonthPrefix(c, y, m);
    InMonthIff(c, y, m);
  }
}
