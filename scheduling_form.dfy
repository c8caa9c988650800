/**
 * The pickup-date screen: which days can be picked, the month grid, the month
 * cursor, the selected day and the "pick a date first" error.
 */
module SchedulingForm {
  import opened Wrappers
  import opened JsText
  import opened Calendar

  /** `isDateBlocked(dateStr)`, with the midnight of "today" given as a day number:
      a day on or before today, a Sunday, or a day on the block list. */
  function IsDateBlocked(dateStr: string, today: int, blockedDates: seq<string>): (blocked: bool)
    ensures dateStr in blockedDates ==> blocked
  {
    var date := ParseDateString(dateStr);
    if date.Some? && date.value <= today then true
    else if date.Some? && Weekday(date.value) == 0 then true
    else dateStr in blockedDates
  }

  /** The number of day buttons in the grid of a month:
      `new Date(year, month + 1, 0).getDate()`. */
  function GridDays(v: MonthView): (n: int)
    requires v.Valid()
    ensures 28 <= n <= 31
  {
    DaysInMonth(DateYear(v.year), v.month)
  }

  /** The cells of the month grid: `None` for each leading empty cell, then the days. */
  function Cells(v: MonthView): (cells: seq<Option<int>>)
    requires v.Valid()
  {
    seq(FirstDayOffset(v), _ => None) + seq(GridDays(v), i => Some(i + 1))
  }

  /** The message shown when the user goes on without picking a day. */
  const NoDateError: string := "Vă rugăm selectați o dată pentru colectare."

  // ---------------------------------------------------------------------------
  // Properties of the blocked-day rule and the grid

  /** For a day of the grid, blocked means: not after today, a Sunday, or listed. */
  lemma GridDayBlocked(y: int, m: int, d: int, today: int, blockedDates: seq<string>)
    requires y > 99 && ValidMonth(m) && 1 <= d <= DaysInMonth(y, m)
    ensures IsDateBlocked(DateString(y, m, d), today, blockedDates) <==>
      || DayNumber(y, m, d) <= today
      || Weekday(DayNumber(y, m, d)) == 0
      || DateString(y, m, d) in blockedDates
  {
    ParseDateStringOfGridDay(y, m, d);
  }

  /** Today itself can never be picked, nor any earlier day. */
  lemma TodayIsBlocked(y: int, m: int, d: int, today: int, blockedDates: seq<string>)
    requires y > 99 && ValidMonth(m) && 1 <= d <= DaysInMonth(y, m)
    requires DayNumber(y, m, d) <= today
    ensures IsDateBlocked(DateString(y, m, d), today, blockedDates)
  {
    GridDayBlocked(y, m, d, today, blockedDates);
  }

  /** A string that is not a date is blocked exactly when it is on the block list. */
  lemma UnreadableDateBlockedOnlyIfListed(dateStr: string, today: int, blockedDates: seq<string>)
    requires ParseDateString(dateStr).None?
    ensures IsDateBlocked(dateStr, today, blockedDates) <==> dateStr in blockedDates
  {
  }

  /** With today 2025-06-10 (a Tuesday) and "2025-06-20" on the block list: today,
      Sunday the 15th and the listed 20th are blocked, Thursday the 12th is not. */
  lemma JuneExample()
    ensures var today := DayNumber(2025, 5, 10);
      && IsDateBlocked(DateString(2025, 5, 10), today, ["2025-06-20"])
      && IsDateBlocked(DateString(2025, 5, 15), today, ["2025-06-20"])
      && IsDateBlocked("2025-06-20", today, ["2025-06-20"])
      && !IsDateBlocked(DateString(2025, 5, 12), today, ["2025-06-20"])
  {
    JuneSundayBlocked();
    JuneThursdayOpen();
    TodayIsBlocked(2025, 5, 10, DayNumber(2025, 5, 10), ["2025-06-20"]);
  }

  lemma JuneSundayBlocked()
    ensures IsDateBlocked(DateString(2025, 5, 15), DayNumber(2025, 5, 10), ["2025-06-20"])
  {
    JuneWeekdays();
    GridDayBlocked(2025, 5, 15, DayNumber(2025, 5, 10), ["2025-06-20"]);
  }

  lemma JuneThursdayOpen()
    ensures !IsDateBlocked(DateString(2025, 5, 12), DayNumber(2025, 5, 10), ["2025-06-20"])
  {
    JuneWeekdays();
    JuneTwelfthNotListed();
    GridDayBlocked(2025, 5, 12, DayNumber(2025, 5, 10), ["2025-06-20"]);
  }

  lemma JuneWeekdays()
    ensures DayNumber(2025, 5, 10) < DayNumber(2025, 5, 12)
    ensures Weekday(DayNumber(2025, 5, 12)) == 4 && Weekday(DayNumber(2025, 5, 15)) == 0
  {
    assert DayNumber(2025, 5, 12) == DayNumber(2025, 5, 10) + 2;
  }

  lemma JuneTwelfthNotListed()
    ensures DateString(2025, 5, 12) !in ["2025-06-20"]
  {
    var day := TwoDigits(12);
    assert day == "12" by {
      assert NatToString(1) == "1";
      assert NatToString(12) == NatToString(1) + [DigitChar(2)];
    }
    var twelfth := DateString(2025, 5, 12);
    assert twelfth == (IntToString(2025) + "-" + TwoDigits(6) + "-") + day;
    assert twelfth[|twelfth| - 1] == day[1];
    assert twelfth != "2025-06-20";
  }

  /** The grid has the leading empty cells, then day `d` at index offset + d - 1,
      at most 37 cells in all, and day `d` falls in its Monday-first weekday column. */
  lemma CellsLayout(v: MonthView, d: int)
    requires v.Valid() && 1 <= d <= GridDays(v)
    ensures |Cells(v)| == FirstDayOffset(v) + GridDays(v) <= 37
    ensures forall i :: 0 <= i < FirstDayOffset(v) ==> Cells(v)[i] == None
    ensures Cells(v)[FirstDayOffset(v) + d - 1] == Some(d)
    ensures !(0 <= v.year <= 99) ==>
      (FirstDayOffset(v) + d - 1) % 7 == (Weekday(NewDate(v.year, v.month, d)) + 6) % 7
  {
    CellsShape(v, d);
    if !(0 <= v.year <= 99) {
      GridColumnIsWeekday(v, d);
    }
  }

  lemma CellsShape(v: MonthView, d: int)
    requires v.Valid() && 1 <= d <= GridDays(v)
    ensures |Cells(v)| == FirstDayOffset(v) + GridDays(v) <= 37
    ensures forall i :: 0 <= i < FirstDayOffset(v) ==> Cells(v)[i] == None
    ensures Cells(v)[FirstDayOffset(v) + d - 1] == Some(d)
  {
    var lead: seq<Option<int>> := seq(FirstDayOffset(v), _ => None);
    var days: seq<Option<int>> := seq(GridDays(v), i => Some(i + 1));
    assert Cells(v) == lead + days;
    assert days[d - 1] == Some(d);
  }

  // ---------------------------------------------------------------------------
  // The screen's state

  class SchedulingForm {
    /** Midnight of the day the screen is shown, as a day number. */
    const today: int
    const blockedDates: seq<string>
    var selectedDate: string
    var view: MonthView
    var error: Option<string>

    /** The shown month is a real month, and the selected day, if any, is selectable. */
    ghost predicate Valid()
      reads this
    {
      && view.Valid()
      && (selectedDate == "" || !IsDateBlocked(selectedDate, today, blockedDates))
    }

    /** The screen opens on the current month with nothing selected and no error. */
    constructor (year: int, month: int, day: int, blockedDates: seq<string>)
      requires ValidMonth(month) && 1 <= day <= DaysInMonth(year, month)
      ensures Valid()
      ensures this.today == DayNumber(year, month, day) && this.blockedDates == blockedDates
      ensures view == MonthView(year, month) && selectedDate == "" && error == None
    {
      today := DayNumber(year, month, day);
      this.blockedDates := blockedDates;
      view := MonthView(year, month);
      selectedDate := "";
      error := None;
    }

    /** `handlePrevMonth`: only the shown month changes. */
    method ShowPrevMonth()
      requires Valid()
      modifies this
      ensures Valid()
      ensures view == PrevMonth(old(view))
      ensures selectedDate == old(selectedDate) && error == old(error)
    {
      view := PrevMonth(view);
    }

    /** `handleNextMonth`: only the shown month changes. */
    method ShowNextMonth()
      requires Valid()
      modifies this
      ensures Valid()
      ensures view == NextMonth(old(view))
      ensures selectedDate == old(selectedDate) && error == old(error)
    {
      view := NextMonth(view);
    }

    /** A click on day `day` of the grid. A blocked day's button is disabled and
        nothing changes; otherwise the day is selected and the error cleared. */
    method ClickDay(day: int)
      requires Valid() && 1 <= day <= GridDays(view)
      modifies this
      ensures Valid() && view == old(view)
      ensures var dateString := DateString(view.year, view.month, day);
        if IsDateBlocked(dateString, today, blockedDates)
        then selectedDate == old(selectedDate) && error == old(error)
        else selectedDate == dateString && error == None
    {
      var dateString := DateString(view.year, view.month, day);
      if !IsDateBlocked(dateString, today, blockedDates) {
        selectedDate := dateString;
        error := None;
      }
    }

    /** `handleNextClick`: without a selected day the error is set and nothing is
        passed on; otherwise the selected day is passed on unchanged. */
    method ClickNext() returns (next: Option<string>)
      requires Valid()
      modifies this
      ensures Valid() && view == old(view) && selectedDate == old(selectedDate)
      ensures selectedDate == "" ==> next == None && error == Some(NoDateError)
      ensures selectedDate != "" ==> next == Some(selectedDate) && error == old(error)
      ensures next.Some? ==> !IsDateBlocked(next.value, today, blockedDates)
    {
      if selectedDate == "" {
        error := Some(NoDateError);
        return None;
      }
      next := Some(selectedDate);
    }
  }
}
