/**
 * The admin month calendar of shifts: the 42-cell grid of the month shown,
 * the shifts listed under a day number, the two-name preview of a cell, month
 * navigation, and the CSV text of the export.
 */
module ScheduleOverview {
  import opened Text
  import opened Calendar
  import opened Clock
  import opened Seqs
  import opened Roster

  /** One cell of the grid: its day number and how it is drawn. */
  datatype DayCell = DayCell(date: int, isCurrentMonth: bool, isToday: bool)

  /**
   * Cell `p` of a grid of month `month` of `year` whose leading cells end on
   * day `lastBefore`: one cell per weekday before the 1st, the days of the
   * month, then numbered cells up to 42.
   */
  function Cell(year: int, month: int, today: Date, lastBefore: int, p: int): DayCell
    requires 0 <= month < 12
  {
    var s := Weekday(Date(year, month, 1));
    var n := DaysInMonth(year, month);
    if p < s then DayCell(lastBefore - s + 1 + p, false, false)
    else if p < s + n then DayCell(p - s + 1, true, today == Date(year, month, p - s + 1))
    else DayCell(p - s - n + 1, false, false)
  }

  /**
   * Cell `p` of the grid as `getDaysInMonth` builds it. The leading cells
   * end on the last day of the month two before the one shown, because the
   * code asks for day 0 of month `month - 1`.
   */
  function GridCell(year: int, month: int, today: Date, p: int): DayCell
    requires 0 <= month < 12
  {
    Cell(year, month, today, DaysInMonth(year, month - 2), p)
  }

  function MonthGrid(year: int, month: int, today: Date): seq<DayCell>
    requires 0 <= month < 12
  {
    seq(42, p => GridCell(year, month, today, p))
  }

  /**
   * `getDaysInMonth`: three loops that push the leading, current and
   * trailing cells.
   */
  method GetDaysInMonth(year: int, month: int, today: Date) returns (days: seq<DayCell>)
    requires 0 <= month < 12
    ensures days == MonthGrid(year, month, today)
  {
    var s := Weekday(Date(year, month, 1));
    var n := DaysInMonth(year, month);
    var last := DaysInMonth(year, month - 2);
    days := [];
    var i := s - 1;
    while i >= 0
      invariant -1 <= i <= s - 1
      invariant |days| == s - 1 - i
      invariant forall p :: 0 <= p < |days| ==> days[p] == GridCell(year, month, today, p)
    {
      days := days + [DayCell(last - i, false, false)];
      i := i - 1;
    }
    var day := 1;
    while day <= n
      invariant 1 <= day <= n + 1
      invariant |days| == s + day - 1
      invariant forall p :: 0 <= p < |days| ==> days[p] == GridCell(year, month, today, p)
    {
      days := days + [DayCell(day, true, today == Date(year, month, day))];
      day := day + 1;
    }
    var remaining := 42 - |days|;
    day := 1;
    while day <= remaining
      invariant 1 <= day <= remaining + 1
      invariant |days| == s + n + day - 1
      invariant forall p :: 0 <= p < |days| ==> days[p] == GridCell(year, month, today, p)
    {
      days := days + [DayCell(day, false, false)];
      day := day + 1;
    }
  }

  /**
   * Forty-two cells: as many leading cells as the weekday of the 1st, ending
   * on the last day of the month two before the one shown; then the month's
   * days from 1, flagged current; then at least five trailing cells from 1.
   */
  lemma MonthGridShape(year: int, month: int, today: Date)
    requires 0 <= month < 12
    ensures var g, s, n := MonthGrid(year, month, today), Weekday(Date(year, month, 1)), DaysInMonth(year, month);
      && |g| == 42
      && 42 - s - n >= 5
      && (forall p :: 0 <= p < s ==> !g[p].isCurrentMonth && !g[p].isToday)
      && (s > 0 ==> g[s - 1].date == DaysInMonth(year, month - 2))
      && (forall p :: 0 < p < s ==> g[p].date == g[p - 1].date + 1)
      && (forall p :: s <= p < s + n ==> g[p].isCurrentMonth && g[p].date == p - s + 1)
      && (forall p :: s + n <= p < 42 ==> !g[p].isCurrentMonth && !g[p].isToday && g[p].date == p - s - n + 1)
  {
  }

  /** At most one cell of a grid is flagged today: the cell of today's day in today's month. */
  lemma AtMostOneToday(year: int, month: int, today: Date, i: int, j: int)
    requires 0 <= month < 12
    requires 0 <= i < 42 && 0 <= j < 42
    requires MonthGrid(year, month, today)[i].isToday && MonthGrid(year, month, today)[j].isToday
    ensures i == j
    ensures MonthGrid(year, month, today)[i].isCurrentMonth
    ensures today == Date(year, month, MonthGrid(year, month, today)[i].date)
  {
  }

  /** Cell `p` of the grid as meant: the leading cells end on the last day of the previous month. */
  function IntendedGridCell(year: int, month: int, today: Date, p: int): DayCell
    requires 0 <= month < 12
  {
    Cell(year, month, today, DaysInMonth(year, month - 1), p)
  }

  function IntendedMonthGrid(year: int, month: int, today: Date): seq<DayCell>
    requires 0 <= month < 12
  {
    seq(42, p => IntendedGridCell(year, month, today, p))
  }

  /** A leading cell of the intended grid is a real day of the previous month, `s - p` days before the 1st. */
  lemma IntendedLeadingCell(year: int, month: int, today: Date, p: int)
    requires 0 <= month < 12 && 0 <= p < Weekday(Date(year, month, 1))
    ensures var d := IntendedGridCell(year, month, today, p).date;
      && 1 <= d <= DaysInMonth(year, month - 1)
      && CivilDayNumber(Date(year, month - 1, d)) == DayNumber(Date(year, month, 1)) + p - Weekday(Date(year, month, 1))
  {
    var last := DaysInMonth(year, month - 1);
    PreviousMonthEnd(year, month);
    CivilDayNumberOfDay(Date(year, month - 1, last));
    CivilDayNumberOfDay(Date(year, month - 1, IntendedGridCell(year, month, today, p).date));
  }

  /** A trailing cell of the intended grid is a real day of the next month, counted on from the month's end. */
  lemma IntendedTrailingCell(year: int, month: int, today: Date, p: int)
    requires 0 <= month < 12 && Weekday(Date(year, month, 1)) + DaysInMonth(year, month) <= p < 42
    ensures var d := IntendedGridCell(year, month, today, p).date;
      && 1 <= d <= DaysInMonth(year, month + 1)
      && CivilDayNumber(Date(year, month + 1, d)) == DayNumber(Date(year, month, 1)) + p - Weekday(Date(year, month, 1))
  {
    NextMonthStart(year, month);
    CivilDayNumberOfDay(Date(year, month + 1, IntendedGridCell(year, month, today, p).date));
  }

  /** A cell of the month shown is the day `p - s` days from its 1st. */
  lemma IntendedCurrentCell(year: int, month: int, today: Date, p: int)
    requires 0 <= month < 12
    requires Weekday(Date(year, month, 1)) <= p < Weekday(Date(year, month, 1)) + DaysInMonth(year, month)
    ensures var d := IntendedGridCell(year, month, today, p).date;
      && 1 <= d <= DaysInMonth(year, month)
      && CivilDayNumber(Date(year, month, d)) == DayNumber(Date(year, month, 1)) + p - Weekday(Date(year, month, 1))
  {
    DayNumberOfDay(Date(year, month, IntendedGridCell(year, month, today, p).date));
  }

  /**
   * The intended grid shows 42 consecutive days: cell `p` is the day
   * `p - s` days from the 1st of the month shown (`s` the weekday of the
   * 1st), each a real day of the previous, the shown or the next month.
   */
  lemma IntendedGridIsConsecutive(year: int, month: int, today: Date)
    requires 0 <= month < 12
    ensures var g, s, n, first := IntendedMonthGrid(year, month, today), Weekday(Date(year, month, 1)),
        DaysInMonth(year, month), DayNumber(Date(year, month, 1));
      && (forall p :: 0 <= p < s ==>
            1 <= g[p].date <= DaysInMonth(year, month - 1)
            && CivilDayNumber(Date(year, month - 1, g[p].date)) == first + p - s)
      && (forall p :: s <= p < s + n ==>
            1 <= g[p].date <= n && CivilDayNumber(Date(year, month, g[p].date)) == first + p - s)
      && (forall p :: s + n <= p < 42 ==>
            1 <= g[p].date <= DaysInMonth(year, month + 1)
            && CivilDayNumber(Date(year, month + 1, g[p].date)) == first + p - s)
  {
    var g, s, n, first := IntendedMonthGrid(year, month, today), Weekday(Date(year, month, 1)),
      DaysInMonth(year, month), DayNumber(Date(year, month, 1));
    forall p | 0 <= p < s
      ensures 1 <= g[p].date <= DaysInMonth(year, month - 1)
        && CivilDayNumber(Date(year, month - 1, g[p].date)) == first + p - s
    {
      IntendedLeadingCell(year, month, today, p);
    }
    forall p | s <= p < s + n
      ensures 1 <= g[p].date <= n && CivilDayNumber(Date(year, month, g[p].date)) == first + p - s
    {
      IntendedCurrentCell(year, month, today, p);
    }
    forall p | s + n <= p < 42
      ensures 1 <= g[p].date <= DaysInMonth(year, month + 1)
        && CivilDayNumber(Date(year, month + 1, g[p].date)) == first + p - s
    {
      IntendedTrailingCell(year, month, today, p);
    }
  }

  /**
   * The grid as built and the grid as meant differ exactly when the month
   * starts after a Sunday and the months one and two before it differ in
   * length.
   */
  lemma GridDiffersFromIntended(year: int, month: int, today: Date)
    requires 0 <= month < 12
    ensures MonthGrid(year, month, today) == IntendedMonthGrid(year, month, today) <==>
            Weekday(Date(year, month, 1)) == 0 || DaysInMonth(year, month - 2) == DaysInMonth(year, month - 1)
  {
    var s := Weekday(Date(year, month, 1));
    if s > 0 && DaysInMonth(year, month - 2) != DaysInMonth(year, month - 1) {
      assert MonthGrid(year, month, today)[s - 1] != IntendedMonthGrid(year, month, today)[s - 1];
    }
  }

  /**
   * March 2024 starts on a Friday; the cell just before 1 March reads 31,
   * while February 2024 has 29 days.
   */
  lemma March2024LeadingCell(today: Date)
    ensures Weekday(Date(2024, 2, 1)) == 5
    ensures MonthGrid(2024, 2, today)[4].date == 31 && !MonthGrid(2024, 2, today)[4].isCurrentMonth
    ensures DaysInMonth(2024, 1) == 29
    ensures IntendedMonthGrid(2024, 2, today)[4].date == 29
  {
    assert DayNumber(Date(2024, 2, 1)) == 19783;
  }

  /** `getSchedulesForDate(date)`: the shifts on day number `date` of month `shownMonth`, of any year. */
  function SchedulesForDate(schedules: seq<Schedule>, date: int, shownMonth: int): (r: seq<Schedule>)
    ensures forall i :: 0 <= i < |r| ==> r[i].shiftDate.day == date && r[i].shiftDate.month == shownMonth
    ensures multiset(r) <= multiset(schedules)
  {
    Filter(schedules, (sc: Schedule) => sc.shiftDate.day == date && sc.shiftDate.month == shownMonth)
  }

  /** Every shift on that day and month is listed, whatever its year. */
  lemma SchedulesForDateKeeps(schedules: seq<Schedule>, date: int, shownMonth: int, i: int)
    requires 0 <= i < |schedules|
    requires schedules[i].shiftDate.day == date && schedules[i].shiftDate.month == shownMonth
    ensures schedules[i] in SchedulesForDate(schedules, date, shownMonth)
  {
    FilterKeeps(schedules, (sc: Schedule) => sc.shiftDate.day == date && sc.shiftDate.month == shownMonth, i);
  }

  /** What a current-month cell lists: up to two names, and "+n more" for the rest. */
  datatype Preview = Preview(names: seq<string>, more: Option<int>)

  /** The name a preview line shows for a shift. */
  function PreviewName(sc: Schedule): string {
    StaffFirstName(sc) + " " + StaffLastName(sc)
  }

  /** The preview of a cell; only cells of the month shown, with at least one shift, have one. */
  function CellPreview(cell: DayCell, daySchedules: seq<Schedule>): (r: Option<Preview>)
    ensures r.Some? <==> cell.isCurrentMonth && |daySchedules| > 0
    ensures r.Some? ==> |r.value.names| == (if |daySchedules| < 2 then |daySchedules| else 2)
    ensures r.Some? ==> forall i :: 0 <= i < |r.value.names| ==> r.value.names[i] == PreviewName(daySchedules[i])
    ensures r.Some? ==> (r.value.more.Some? <==> |daySchedules| > 2)
    ensures r.Some? && r.value.more.Some? ==> |r.value.names| + r.value.more.value == |daySchedules|
  {
    if cell.isCurrentMonth && |daySchedules| > 0 then
      var shown := if |daySchedules| < 2 then daySchedules else daySchedules[..2];
      var names := seq(|shown|, i requires 0 <= i < |shown| => PreviewName(shown[i]));
      Some(Preview(names, if |daySchedules| > 2 then Some(|daySchedules| - 2) else None))
    else None
  }

  const CsvHeaders: seq<string> :=
    ["Staff Name", "Role", "Department", "Date", "Start Time", "End Time", "Shift Type", "Status", "Notes"]

  /**
   * The nine fields of a shift's row. `formatDate` stands for the browser's
   * long `en-US` date text.
   */
  function CsvRow(sc: Schedule, formatDate: Date -> string): (row: seq<string>)
    ensures |row| == |CsvHeaders|
  {
    [Trim(StaffFirstName(sc) + " " + StaffLastName(sc)),
     StaffRole(sc),
     DepartmentName(sc),
     formatDate(sc.shiftDate),
     FormatTime(sc.startTime),
     FormatTime(sc.endTime),
     sc.shiftType,
     sc.status,
     OrElse(sc.notes, "")]
  }

  /** A data field wrapped in double quotes; quotes inside it are left as they are. */
  function Quote(field: string): string {
    "\"" + field + "\""
  }

  function CsvLine(row: seq<string>): string {
    Join(seq(|row|, i requires 0 <= i < |row| => Quote(row[i])), ",")
  }

  /** The data lines of the export, one per shift, in list order. */
  function DataLines(schedules: seq<Schedule>, formatDate: Date -> string): (lines: seq<string>)
    ensures |lines| == |schedules|
  {
    seq(|schedules|, i requires 0 <= i < |schedules| => CsvLine(CsvRow(schedules[i], formatDate)))
  }

  function CsvContent(schedules: seq<Schedule>, formatDate: Date -> string): string {
    Join([Join(CsvHeaders, ",")] + DataLines(schedules, formatDate), "\n")
  }

  /** `handleExport`: nothing for an empty list, else the CSV text. */
  function Export(schedules: seq<Schedule>, formatDate: Date -> string): (r: Option<string>)
    ensures r.None? <==> schedules == []
  {
    if |schedules| == 0 then None else Some(CsvContent(schedules, formatDate))
  }

  /** The header line splits at its commas into the nine column names. */
  lemma HeaderColumns()
    ensures Split(Join(CsvHeaders, ","), ',') == CsvHeaders
    ensures |CsvHeaders| == 9
  {
    forall k | 0 <= k < |CsvHeaders| ensures ',' !in CsvHeaders[k] {
    }
    JoinSplit(CsvHeaders, ',');
  }

  /** A row whose fields hold no comma splits at its commas into the quoted fields. */
  lemma {:induction false} CsvLineFields(row: seq<string>)
    requires |row| >= 1
    requires forall k :: 0 <= k < |row| ==> ',' !in row[k]
    ensures Split(CsvLine(row), ',') == seq(|row|, i requires 0 <= i < |row| => Quote(row[i]))
  {
    var quoted := seq(|row|, i requires 0 <= i < |row| => Quote(row[i]));
    forall k | 0 <= k < |quoted| ensures ',' !in quoted[k] {
      assert quoted[k] == "\"" + row[k] + "\"";
    }
    JoinSplit(quoted, ',');
  }

  /** A row whose fields hold no line feed gives a line without one. */
  lemma CsvLineOneLine(row: seq<string>)
    requires forall k :: 0 <= k < |row| ==> '\n' !in row[k]
    ensures '\n' !in CsvLine(row)
  {
    var quoted := seq(|row|, j requires 0 <= j < |row| => Quote(row[j]));
    forall k | 0 <= k < |quoted| ensures '\n' !in quoted[k] {
      assert quoted[k] == "\"" + row[k] + "\"";
    }
    JoinAvoids(quoted, ",", '\n');
  }

  lemma HeaderOneLine()
    ensures '\n' !in Join(CsvHeaders, ",")
  {
    forall k | 0 <= k < |CsvHeaders| ensures '\n' !in CsvHeaders[k] {
    }
    JoinAvoids(CsvHeaders, ",", '\n');
  }

  /**
   * When no field holds a line feed, the export has one line per shift after
   * the header, each the quoted row of that shift, in list order.
   */
  lemma {:induction false} CsvLines(schedules: seq<Schedule>, formatDate: Date -> string)
    requires forall i, k :: 0 <= i < |schedules| && 0 <= k < 9 ==> '\n' !in CsvRow(schedules[i], formatDate)[k]
    ensures var lines := Split(CsvContent(schedules, formatDate), '\n');
      && |lines| == |schedules| + 1
      && lines[0] == Join(CsvHeaders, ",")
      && forall i :: 0 <= i < |schedules| ==> lines[i + 1] == CsvLine(CsvRow(schedules[i], formatDate))
  {
    var rows := DataLines(schedules, formatDate);
    var lines := [Join(CsvHeaders, ",")] + rows;
    HeaderOneLine();
    forall i | 0 <= i < |rows| ensures '\n' !in rows[i] {
      CsvLineOneLine(CsvRow(schedules[i], formatDate));
    }
    forall k | 0 <= k < |lines| ensures '\n' !in lines[k] {
      if k > 0 { assert lines[k] == rows[k - 1]; }
    }
    JoinSplit(lines, '\n');
    assert Split(CsvContent(schedules, formatDate), '\n') == lines;
  }

  /** The month the calendar shows; the day of the shown date is not modelled. */
  class MonthView {
    var year: int
    var month: int

    ghost predicate Valid()
      reads this
    {
      0 <= month < 12
    }

    constructor (today: Date)
      requires 0 <= today.month < 12
      ensures Valid() && year == today.year && month == today.month
    {
      year := today.year;
      month := today.month;
    }

    /** `navigateMonth`: one month back or forward, across a year boundary when needed. */
    method NavigateMonth(forward: bool)
      requires Valid()
      modifies this
      ensures Valid()
      ensures 12 * year + month == 12 * old(year) + old(month) + (if forward then 1 else -1)
    {
      var next := if forward then NextMonth(year, month) else PreviousMonth(year, month);
      year, month := next.0, next.1;
    }

    /** `goToToday`: show today's month. */
    method GoToToday(today: Date)
      requires 0 <= today.month < 12
      modifies this
      ensures Valid() && year == today.year && month == today.month
    {
      year, month := today.year, today.month;
    }
  }
}
