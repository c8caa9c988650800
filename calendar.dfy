/**
 * The calendar arithmetic the scheduling screen gets from JavaScript's `Date`
 * for local dates at midnight: Gregorian month lengths, day numbers, weekdays,
 * month arithmetic with year roll-over, and the `YYYY-MM-DD` day strings.
 * Months are numbered from 0 (January), as `Date` numbers them.
 */
module Calendar {
  import opened Wrappers
  import opened JsText

  predicate IsLeapYear(y: int)
  {
    y % 4 == 0 && (y % 100 != 0 || y % 400 == 0)
  }

  predicate ValidMonth(m: int)
  {
    0 <= m < 12
  }

  /** The number of days of month `m` of year `y` in the Gregorian calendar. */
  function DaysInMonth(y: int, m: int): (n: int)
    requires ValidMonth(m)
    ensures 28 <= n <= 31
    ensures m == 1 ==> (n == 29 <==> IsLeapYear(y))
    ensures m != 1 ==> (n == 30 <==> m in {3, 5, 8, 10})
  {
    if m == 1 then (if IsLeapYear(y) then 29 else 28)
    else if m == 3 || m == 5 || m == 8 || m == 10 then 30
    else 31
  }

  /** Days from 1 January of year 1 to 1 January of year `y` (proleptic Gregorian). */
  function DaysBeforeYear(y: int): int
  {
    var p := y - 1;
    365 * p + p / 4 - p / 100 + p / 400
  }

  /** Days from 1 January of year `y` to the first day of month `m`. */
  function DaysBeforeMonth(y: int, m: int): int
    requires 0 <= m <= 12
  {
    if m == 0 then 0 else DaysBeforeMonth(y, m - 1) + DaysInMonth(y, m - 1)
  }

  /** The day number of a calendar date; 1 January of year 1 is day 0. */
  function DayNumber(y: int, m: int, d: int): int
    requires ValidMonth(m)
  {
    DaysBeforeYear(y) + DaysBeforeMonth(y, m) + d - 1
  }

  /** `getDay()`: 0 is Sunday, 1 is Monday, ..., 6 is Saturday.
      Day 0, 1 January of year 1, was a Monday. */
  function Weekday(dayNumber: int): (w: int)
    ensures 0 <= w < 7
  {
    (dayNumber + 1) % 7
  }

  /** `new Date(y, ...)` reads a year from 0 to 99 as 1900 to 1999. */
  function DateYear(y: int): int
  {
    if 0 <= y <= 99 then 1900 + y else y
  }

  /** The day number of `new Date(y, m, d)`: a month outside 0..11 moves the year,
      and a day outside the month moves into the neighbouring months. */
  function NewDate(y: int, m: int, d: int): int
  {
    var year := DateYear(y) + m / 12;
    DayNumber(year, m % 12, 1) + d - 1
  }

  /** A (year, month) pair: the month the calendar shows. */
  datatype MonthView = MonthView(year: int, month: int)
  {
    predicate Valid() { ValidMonth(month) }
  }

  /** The month shown after `new Date(year, month + delta, 1)`. */
  function ShiftMonth(v: MonthView, delta: int): (r: MonthView)
    ensures r.Valid()
  {
    var m := v.month + delta;
    MonthView(DateYear(v.year) + m / 12, m % 12)
  }

  function NextMonth(v: MonthView): MonthView
  {
    ShiftMonth(v, 1)
  }

  function PrevMonth(v: MonthView): MonthView
  {
    ShiftMonth(v, -1)
  }

  /** The number of empty cells before day 1 in a grid whose weeks start on Monday. */
  function FirstDayOffset(v: MonthView): (offset: int)
    ensures 0 <= offset < 7
  {
    (Weekday(NewDate(v.year, v.month, 1)) + 6) % 7
  }

  /** `String(n).padStart(2, '0')`. */
  function TwoDigits(n: nat): string
  {
    PadStart(NatToString(n), 2, '0')
  }

  /** The `YYYY-MM-DD` string of day `d` of month `m` (0-based) of year `y`. */
  function DateString(y: int, m: int, d: nat): string
    requires ValidMonth(m)
  {
    IntToString(y) + "-" + TwoDigits(m + 1) + "-" + TwoDigits(d)
  }

  /** `dateStr.split('-').map(Number)` read into `new Date(year, month - 1, day)`;
      `None` is an Invalid Date (a missing or non-numeric part). */
  function ParseDateString(dateStr: string): (r: Option<int>)
  {
    var parts := Split(dateStr, '-');
    if |parts| < 3 then None
    else
      var year, month, day := Number(parts[0]), Number(parts[1]), Number(parts[2]);
      if year.None? || month.None? || day.None? then None
      else Some(NewDate(year.value, month.value - 1, day.value))
  }

  // ---------------------------------------------------------------------------
  // Month lengths and day numbers

  lemma YearLength(y: int)
    ensures DaysBeforeYear(y + 1) - DaysBeforeYear(y) == if IsLeapYear(y) then 366 else 365
    ensures DaysBeforeMonth(y, 12) == if IsLeapYear(y) then 366 else 365
  {
    LeapDivisions(y - 1);
    MonthsMakeYear(y);
  }

  /** The twelve months add up to the length of the year. */
  lemma MonthsMakeYear(y: int)
    ensures DaysBeforeMonth(y, 12) == if IsLeapYear(y) then 366 else 365
  {
    var feb := DaysInMonth(y, 1);
    assert DaysBeforeMonth(y, 1) == 31;
    assert DaysBeforeMonth(y, 2) == 31 + feb;
    assert DaysBeforeMonth(y, 3) == 62 + feb;
    assert DaysBeforeMonth(y, 4) == 92 + feb;
    assert DaysBeforeMonth(y, 5) == 123 + feb;
    assert DaysBeforeMonth(y, 6) == 153 + feb;
    assert DaysBeforeMonth(y, 7) == 184 + feb;
    assert DaysBeforeMonth(y, 8) == 215 + feb;
    assert DaysBeforeMonth(y, 9) == 245 + feb;
    assert DaysBeforeMonth(y, 10) == 276 + feb;
    assert DaysBeforeMonth(y, 11) == 306 + feb;
  }

  /** How the floor divisions of the leap-year count change from one year to the next. */
  lemma LeapDivisions(p: int)
    ensures (p + 1) / 4 - p / 4 == if (p + 1) % 4 == 0 then 1 else 0
    ensures (p + 1) / 100 - p / 100 == if (p + 1) % 100 == 0 then 1 else 0
    ensures (p + 1) / 400 - p / 400 == if (p + 1) % 400 == 0 then 1 else 0
  {
  }

  /** `new Date(y, m + 1, 0)` is the last day of month `m`: the day before the
      first of the following month, in the same year or, after December, the next. */
  lemma DayZeroIsLastDayOfMonth(y: int, m: int)
    requires ValidMonth(m) && !(0 <= y <= 99)
    ensures NewDate(y, m + 1, 0) == DayNumber(y, m, DaysInMonth(y, m))
  {
    if m == 11 {
      YearLength(y);
    }
  }

  /** Consecutive days of a month have consecutive day numbers, and the day after
      the last day of December is 1 January of the next year. */
  lemma NewYearFollowsDecember(y: int)
    ensures DayNumber(y, 11, 31) + 1 == DayNumber(y + 1, 0, 1)
  {
    YearLength(y);
  }

  /** For an ordinary year and a day inside the month, `new Date` is the plain day number. */
  lemma NewDateInRange(y: int, m: int, d: int)
    requires ValidMonth(m) && !(0 <= y <= 99)
    ensures NewDate(y, m, d) == DayNumber(y, m, d)
  {
  }

  // ---------------------------------------------------------------------------
  // The month grid

  /** The offset is 0 exactly when the month starts on a Monday, and the grid
      never needs more than 37 cells. */
  lemma OffsetIsZeroOnMonday(v: MonthView)
    requires v.Valid()
    ensures FirstDayOffset(v) == 0 <==> Weekday(NewDate(v.year, v.month, 1)) == 1
    ensures FirstDayOffset(v) + DaysInMonth(v.year, v.month) <= 37
  {
    MondayFirst(Weekday(NewDate(v.year, v.month, 1)));
  }

  /** Moving from Sunday-first to Monday-first numbering sends Monday to 0. */
  lemma MondayFirst(w: int)
    requires 0 <= w < 7
    ensures (w + 6) % 7 == 0 <==> w == 1
  {
  }

  /** Day `d` sits in grid column (offset + d - 1) % 7, which is its Monday-first weekday. */
  lemma GridColumnIsWeekday(v: MonthView, d: int)
    requires v.Valid() && 1 <= d <= DaysInMonth(v.year, v.month)
    ensures (FirstDayOffset(v) + d - 1) % 7 == (Weekday(NewDate(v.year, v.month, d)) + 6) % 7
  {
    NewDateOfDay(v.year, v.month, d);
    WeekdayColumn(NewDate(v.year, v.month, 1), d);
  }

  /** Day `d` of a month is `d - 1` days after its first day. */
  lemma NewDateOfDay(y: int, m: int, d: int)
    ensures NewDate(y, m, d) == NewDate(y, m, 1) + d - 1
  {
  }

  /** Counting `d - 1` days on from a day moves its Monday-first weekday by `d - 1`. */
  lemma WeekdayColumn(first: int, d: int)
    ensures ((Weekday(first) + 6) % 7 + d - 1) % 7 == (Weekday(first + d - 1) + 6) % 7
  {
    ModSevenShift(first + 1, d - 1);
  }

  lemma ModSevenShift(x: int, k: int)
    ensures ((x % 7 + 6) % 7 + k) % 7 == ((x + k) % 7 + 6) % 7
  {
    ModSevenAdd(x % 7 + 6, k);
    ModSevenAdd(x, 6 + k);
    ModSevenAdd(x + k, 6);
  }

  /** Reducing the left summand modulo 7 first does not change the sum modulo 7. */
  lemma ModSevenAdd(a: int, b: int)
    ensures (a % 7 + b) % 7 == (a + b) % 7
  {
    var q := a / 7;
    assert a == 7 * q + a % 7;
    ModSevenCancel(a % 7 + b, q);
  }

  lemma ModSevenCancel(a: int, q: int)
    ensures (a + 7 * q) % 7 == a % 7
  {
    var r := a % 7;
    assert a == 7 * (a / 7) + r;
    assert a + 7 * q == 7 * (a / 7 + q) + r;
  }

  // ---------------------------------------------------------------------------
  // Month navigation

  /** "Next" from December shows January of the following year. */
  lemma NextFromDecember(y: int)
    requires !(0 <= y <= 99)
    ensures NextMonth(MonthView(y, 11)) == MonthView(y + 1, 0)
  {
  }

  /** "Previous" from January shows December of the preceding year. */
  lemma PrevFromJanuary(y: int)
    requires !(0 <= y <= 99)
    ensures PrevMonth(MonthView(y, 0)) == MonthView(y - 1, 11)
  {
  }

  /** Any other month moves by one within its year. */
  lemma ShiftWithinYear(v: MonthView)
    requires v.Valid() && !(0 <= v.year <= 99)
    ensures v.month < 11 ==> NextMonth(v) == MonthView(v.year, v.month + 1)
    ensures v.month > 0 ==> PrevMonth(v) == MonthView(v.year, v.month - 1)
  {
  }

  /** "Next" then "previous" shows the same month again, and so does
      "previous" then "next" (for years past 100, where `Date` reads years literally). */
  lemma NavigationRoundTrip(v: MonthView)
    requires v.Valid() && v.year > 100
    ensures PrevMonth(NextMonth(v)) == v
    ensures NextMonth(PrevMonth(v)) == v
  {
  }

  /** At year 100 the round trip breaks: December of year 99 is shown, and
      `new Date(99, 12, 1)` reads year 99 as 1999. */
  lemma NavigationAtYearHundred()
    ensures PrevMonth(MonthView(100, 0)) == MonthView(99, 11)
    ensures NextMonth(PrevMonth(MonthView(100, 0))) == MonthView(2000, 0)
  {
  }

  // ---------------------------------------------------------------------------
  // Day strings

  lemma {:induction false} LeadingZeroValue(s: string)
    requires AllDigits(s)
    ensures AllDigits("0" + s) && DigitsValue("0" + s) == DigitsValue(s)
  {
    if |s| > 0 {
      var init := s[..|s| - 1];
      LeadingZeroValue(init);
      assert ("0" + s)[..|s|] == "0" + init;
    }
  }

  /** A two-digit field holds only digits (no '-') and `Number` reads it back. */
  lemma TwoDigitsRoundTrip(n: nat)
    requires n < 100
    ensures AllDigits(TwoDigits(n)) && '-' !in TwoDigits(n)
    ensures Number(TwoDigits(n)) == Some(n)
  {
    var s := NatToString(n);
    var t := TwoDigits(n);
    if |s| < 2 {
      assert t == "0" + s;
      LeadingZeroValue(s);
    } else {
      assert t == s;
    }
    assert !IsSpace(t[0]) && !IsSpace(t[|t| - 1]);
    assert TrimStart(t) == t;
    assert TrimEnd(t) == t;
  }

  /** Three fields without '-' joined by '-' split back into the three fields. */
  lemma SplitThree(a: string, b: string, c: string)
    requires '-' !in a && '-' !in b && '-' !in c
    ensures Split(a + "-" + b + "-" + c, '-') == [a, b, c]
  {
    assert a + "-" + b + "-" + c == a + ['-'] + (b + ['-'] + c);
    SplitAtSeparator(a, '-', b + ['-'] + c);
    SplitAtSeparator(b, '-', c);
    SplitWithoutSeparator(c, '-');
  }

  /** Splitting a day string on '-' and reading each part with `Number` gives back
      the year, the 1-based month and the day. */
  lemma DateStringRoundTrip(y: nat, m: int, d: nat)
    requires ValidMonth(m) && d < 100
    ensures Split(DateString(y, m, d), '-') == [NatToString(y), TwoDigits(m + 1), TwoDigits(d)]
    ensures Number(NatToString(y)) == Some(y)
    ensures Number(TwoDigits(m + 1)) == Some(m + 1)
    ensures Number(TwoDigits(d)) == Some(d)
  {
    var ys := NatToString(y);
    TwoDigitsRoundTrip(m + 1);
    TwoDigitsRoundTrip(d);
    NumberOfNatString(y);
    assert '-' !in ys by {
      assert forall i :: 0 <= i < |ys| ==> IsDigit(ys[i]);
    }
    SplitThree(ys, TwoDigits(m + 1), TwoDigits(d));
  }

  lemma ParseDateStringOfParts(ds: string, y: nat, month: nat, d: nat)
    requires |Split(ds, '-')| >= 3
    requires Number(Split(ds, '-')[0]) == Some(y)
    requires Number(Split(ds, '-')[1]) == Some(month)
    requires Number(Split(ds, '-')[2]) == Some(d)
    ensures ParseDateString(ds) == Some(NewDate(y, month - 1, d))
  {
  }

  /** A day string parses to the `new Date` of its year, month and day. */
  lemma ParseDateStringOfDate(y: nat, m: int, d: nat)
    requires ValidMonth(m) && d < 100
    ensures ParseDateString(DateString(y, m, d)) == Some(NewDate(y, m, d))
  {
    var ds := DateString(y, m, d);
    DateStringRoundTrip(y, m, d);
    ParseDateStringOfParts(ds, y, m + 1, d);
  }

  /** A day string of the grid parses to the day it names. */
  lemma ParseDateStringOfGridDay(y: int, m: int, d: int)
    requires y > 99 && ValidMonth(m) && 1 <= d <= DaysInMonth(y, m)
    ensures ParseDateString(DateString(y, m, d)) == Some(DayNumber(y, m, d))
  {
    ParseDateStringOfDate(y, m, d);
    NewDateInRange(y, m, d);
  }
}
