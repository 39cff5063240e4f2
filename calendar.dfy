/** Civil (proleptic Gregorian, local-time) dates as the calendar screens use them,
    with JavaScript's month numbering 0..11, and the 42-cell month grid both calendar
    screens draw: the tail of the previous month up to the first weekday, every day
    of the shown month, then the start of the next month. */
module Calendar {
  import opened Seqs

  /** A date: `getFullYear()`, `getMonth()` (0 = January) and `getDate()`. */
  datatype CivilDate = CivilDate(year: int, month: int, day: int)

  /** A moment: a date plus the milliseconds elapsed since its local midnight. */
  datatype DateTime = DateTime(date: CivilDate, msOfDay: int)

  const MsPerDay: int := 86400000

  predicate IsLeapYear(y: int)
  {
    y % 4 == 0 && (y % 100 != 0 || y % 400 == 0)
  }

  /** `new Date(y, m + 1, 0).getDate()`: the number of days of month `m` of year `y`. */
  function DaysInMonth(y: int, m: int): (r: int)
    requires 0 <= m < 12
    ensures 28 <= r <= 31
    ensures m == 1 ==> (r == 29 <==> IsLeapYear(y))
  {
    if m == 1 then (if IsLeapYear(y) then 29 else 28)
    else if m == 3 || m == 5 || m == 8 || m == 10 then 30
    else 31
  }

  predicate ValidDate(d: CivilDate)
  {
    0 <= d.month < 12 && 1 <= d.day <= DaysInMonth(d.year, d.month)
  }

  predicate ValidDateTime(t: DateTime)
  {
    ValidDate(t.date) && 0 <= t.msOfDay < MsPerDay
  }

  /** Months counted from year 0, so that adjacent months differ by one. */
  function MonthIndex(d: CivilDate): int
  {
    d.year * 12 + d.month
  }

  /** Days since 1 January 1970 (days before it are negative). Like the `Date`
      constructor, a month outside 0..11 carries into the year and a day outside the
      month carries into the neighbouring months. */
  function DayNumber(d: CivilDate): int
  {
    var year := d.year + d.month / 12;
    var m := d.month % 12 + 1;
    var y := if m <= 2 then year - 1 else year;
    var era := y / 400;
    var yoe := y - era * 400;
    var mp := if m > 2 then m - 3 else m + 9;
    var doy := (153 * mp + 2) / 5 + d.day - 1;
    var doe := yoe * 365 + yoe / 4 - yoe / 100 + doy;
    era * 146097 + doe - 719468
  }

  /** `getDay()`: 0 = Sunday .. 6 = Saturday. */
  function Weekday(d: CivilDate): (r: int)
    ensures 0 <= r < 7
  {
    (DayNumber(d) + 4) % 7
  }

  /** The day numbering starts on 1 January 1970, a Thursday. */
  lemma EpochIsThursday()
    ensures DayNumber(CivilDate(1970, 0, 1)) == 0
    ensures Weekday(CivilDate(1970, 0, 1)) == 4
  {
    assert DayNumber(CivilDate(1970, 0, 1)) == 4 * 146097 + (369 * 365 + 92 - 3 + 306) - 719468;
  }

  /** Within a month the day number grows one per day. */
  lemma DayNumberWithinMonth(y: int, m: int, d: int)
    requires 0 <= m < 12
    ensures DayNumber(CivilDate(y, m, d)) == DayNumber(CivilDate(y, m, 1)) + d - 1
  {
  }

  /** `Date.getTime()` of a local moment, with no time-zone offset. */
  function Stamp(t: DateTime): int
  {
    DayNumber(t.date) * MsPerDay + t.msOfDay
  }

  /** `t.setDate(t.getDate() + n)`: the same time of day `n` days later (earlier for
      a negative `n`), the day carrying into the neighbouring months. */
  function ShiftDays(t: DateTime, n: int): DateTime
  {
    DateTime(CivilDate(t.date.year, t.date.month, t.date.day + n), t.msOfDay)
  }

  /** Shifting by `n` days moves the timestamp by exactly `n` days of milliseconds. */
  lemma ShiftDaysStamp(t: DateTime, n: int)
    ensures Stamp(ShiftDays(t, n)) == Stamp(t) + n * MsPerDay
  {
  }

  /** `setHours(0, 0, 0, 0)`: the same date at midnight. */
  function Midnight(t: DateTime): (r: DateTime)
    ensures r.date == t.date && r.msOfDay == 0
  {
    DateTime(t.date, 0)
  }

  /** Two moments are at the same midnight exactly when they fall on the same date. */
  lemma MidnightSameIffSameDate(t: DateTime, d: CivilDate)
    ensures Midnight(t) == DateTime(d, 0) <==> t.date == d
  {
  }

  /** `new Date(d.getFullYear(), d.getMonth() - 1, 1)`. */
  function FirstOfPrevMonth(d: CivilDate): (r: CivilDate)
    requires 0 <= d.month < 12
    ensures ValidDate(r) && r.day == 1
    ensures MonthIndex(r) == MonthIndex(d) - 1
  {
    if d.month == 0 then CivilDate(d.year - 1, 11, 1) else CivilDate(d.year, d.month - 1, 1)
  }

  /** `new Date(d.getFullYear(), d.getMonth() + 1, 1)`. */
  function FirstOfNextMonth(d: CivilDate): (r: CivilDate)
    requires 0 <= d.month < 12
    ensures ValidDate(r) && r.day == 1
    ensures MonthIndex(r) == MonthIndex(d) + 1
  {
    if d.month == 11 then CivilDate(d.year + 1, 0, 1) else CivilDate(d.year, d.month + 1, 1)
  }

  /** Month index and day determine a date in range. */
  lemma MonthIndexDetermines(a: CivilDate, b: CivilDate)
    requires 0 <= a.month < 12 && 0 <= b.month < 12
    requires MonthIndex(a) == MonthIndex(b) && a.day == b.day
    ensures a == b
  {
  }

  /** Going back a month and forward again lands on the first of the month started from. */
  lemma PrevNextMonthRoundTrip(d: CivilDate)
    requires 0 <= d.month < 12
    ensures FirstOfNextMonth(FirstOfPrevMonth(d)) == CivilDate(d.year, d.month, 1)
    ensures FirstOfPrevMonth(FirstOfNextMonth(d)) == CivilDate(d.year, d.month, 1)
  {
    MonthIndexDetermines(FirstOfNextMonth(FirstOfPrevMonth(d)), CivilDate(d.year, d.month, 1));
    MonthIndexDetermines(FirstOfPrevMonth(FirstOfNextMonth(d)), CivilDate(d.year, d.month, 1));
  }

  /** `new Date(y, m, 1 - i)` for `1 <= i <= 28`: the i-th last day of the previous month. */
  function DayBeforeFirst(y: int, m: int, i: int): (r: CivilDate)
    requires 0 <= m < 12 && 1 <= i <= 28
    ensures ValidDate(r)
  {
    var p := FirstOfPrevMonth(CivilDate(y, m, 1));
    CivilDate(p.year, p.month, DaysInMonth(p.year, p.month) + 1 - i)
  }

  /** `new Date(y, m + 1, i)` for `1 <= i <= 28`. */
  function DayOfNextMonth(y: int, m: int, i: int): (r: CivilDate)
    requires 0 <= m < 12 && 1 <= i <= 28
    ensures ValidDate(r)
  {
    var n := FirstOfNextMonth(CivilDate(y, m, 1));
    CivilDate(n.year, n.month, i)
  }

  /** `d.setDate(d.getDate() + 1)`: the following day, rolling over the month and year. */
  function NextDay(d: CivilDate): (r: CivilDate)
    requires ValidDate(d)
    ensures ValidDate(r)
    ensures d.day < DaysInMonth(d.year, d.month) ==> r == CivilDate(d.year, d.month, d.day + 1)
    ensures d.day == DaysInMonth(d.year, d.month) ==> r == FirstOfNextMonth(d)
  {
    if d.day < DaysInMonth(d.year, d.month) then CivilDate(d.year, d.month, d.day + 1)
    else FirstOfNextMonth(d)
  }

  /** One cell of the month grid. */
  datatype CalendarDay<E> = CalendarDay(
    date: CivilDate,
    dayOfMonth: int,
    isCurrentMonth: bool,
    isToday: bool,
    events: seq<E>)

  /** Selects the records whose due date is `d`. */
  function DueOn<E>(due: E -> CivilDate, d: CivilDate): E -> bool
  {
    e => due(e) == d
  }

  /** The events a day cell of the shown month lists: those due on that date, in list order. */
  function EventsOn<E(==,!new)>(events: seq<E>, due: E -> CivilDate, d: CivilDate): seq<E>
  {
    Filter(events, DueOn(due, d))
  }

  /** Number of leading cells: `new Date(y, m, 1).getDay()`. */
  function LeadCount(y: int, m: int): (r: int)
    requires 0 <= m < 12
    ensures 0 <= r <= 6
  {
    Weekday(CivilDate(y, m, 1))
  }

  /** Cell `k` of a well-formed grid for month `m` of year `y`. */
  predicate GridCellOk<E(==,!new)>(c: CalendarDay<E>, k: int, y: int, m: int, today: CivilDate,
                                  events: seq<E>, due: E -> CivilDate)
    requires 0 <= m < 12
  {
    var lead := LeadCount(y, m);
    var n := DaysInMonth(y, m);
    var p := FirstOfPrevMonth(CivilDate(y, m, 1));
    var q := FirstOfNextMonth(CivilDate(y, m, 1));
    if k < lead then
      c == CalendarDay(CivilDate(p.year, p.month, DaysInMonth(p.year, p.month) - lead + k + 1),
                       DaysInMonth(p.year, p.month) - lead + k + 1, false, false, [])
    else if k < lead + n then
      c == CalendarDay(CivilDate(y, m, k - lead + 1), k - lead + 1, true,
                       CivilDate(y, m, k - lead + 1) == today,
                       EventsOn(events, due, CivilDate(y, m, k - lead + 1)))
    else
      c == CalendarDay(CivilDate(q.year, q.month, k - lead - n + 1), k - lead - n + 1, false, false, [])
  }

  /** The grid both calendar screens promise: 42 cells; the last `lead` days of the
      previous month, the days 1..n of the shown month with their events and the
      today flag, then the next month's days from 1, with no events. */
  predicate IsMonthGrid<E(==,!new)>(g: seq<CalendarDay<E>>, y: int, m: int, today: CivilDate,
                                   events: seq<E>, due: E -> CivilDate)
    requires 0 <= m < 12
  {
    |g| == 42 && CellsOk(g, y, m, today, events, due)
  }

  /** Every cell built so far fits its place in the grid. */
  predicate CellsOk<E(==,!new)>(g: seq<CalendarDay<E>>, y: int, m: int, today: CivilDate,
                                events: seq<E>, due: E -> CivilDate)
    requires 0 <= m < 12
  {
    forall k :: 0 <= k < |g| ==> GridCellOk(g[k], k, y, m, today, events, due)
  }

  /** Appending a cell that fits the next place keeps every cell fitting. */
  lemma CellsOkAppend<E(!new)>(g: seq<CalendarDay<E>>, c: CalendarDay<E>, y: int, m: int, today: CivilDate,
                               events: seq<E>, due: E -> CivilDate)
    requires 0 <= m < 12 && CellsOk(g, y, m, today, events, due) && GridCellOk(c, |g|, y, m, today, events, due)
    ensures CellsOk(g + [c], y, m, today, events, due)
  {
    forall k | 0 <= k < |g| + 1 ensures GridCellOk((g + [c])[k], k, y, m, today, events, due) {
      if k < |g| {
        assert (g + [c])[k] == g[k];
      }
    }
  }

  /** A cell that fits its place in the grid holds a real date and shows its day. */
  lemma CellDateValid<E(!new)>(c: CalendarDay<E>, k: int, y: int, m: int, today: CivilDate,
                                  events: seq<E>, due: E -> CivilDate)
    requires 0 <= m < 12 && 0 <= k < 42 && GridCellOk(c, k, y, m, today, events, due)
    ensures ValidDate(c.date) && c.dayOfMonth == c.date.day
  {
  }

  /** Leading cell `lead - i` holds `new Date(y, m, 1 - i)`. */
  lemma LeadingCellOk<E(!new)>(y: int, m: int, i: int, today: CivilDate, events: seq<E>, due: E -> CivilDate)
    requires 0 <= m < 12 && 1 <= i <= LeadCount(y, m)
    ensures GridCellOk(CalendarDay(DayBeforeFirst(y, m, i), DayBeforeFirst(y, m, i).day, false, false, []),
                       LeadCount(y, m) - i, y, m, today, events, due)
  {
  }

  /** The cell of day `i` of the shown month. */
  lemma MonthCellOk<E(!new)>(y: int, m: int, i: int, today: CivilDate, events: seq<E>, due: E -> CivilDate)
    requires 0 <= m < 12 && 1 <= i <= DaysInMonth(y, m)
    ensures GridCellOk(CalendarDay(CivilDate(y, m, i), i, true, CivilDate(y, m, i) == today,
                                   EventsOn(events, due, CivilDate(y, m, i))),
                       LeadCount(y, m) + i - 1, y, m, today, events, due)
  {
  }

  /** After the shown month, each cell holds the day after the cell before it. */
  lemma TrailingCellOk<E(!new)>(y: int, m: int, k: int, prev: CalendarDay<E>, today: CivilDate,
                                   events: seq<E>, due: E -> CivilDate)
    requires 0 <= m < 12 && LeadCount(y, m) + DaysInMonth(y, m) <= k < 42
    requires GridCellOk(prev, k - 1, y, m, today, events, due)
    ensures ValidDate(prev.date)
    ensures GridCellOk(CalendarDay(NextDay(prev.date), NextDay(prev.date).day, false, false, []),
                       k, y, m, today, events, due)
  {
    CellDateValid(prev, k - 1, y, m, today, events, due);
  }

  /** Trailing cell `i` holds `new Date(y, m + 1, i)`. */
  lemma NextMonthCellOk<E(!new)>(y: int, m: int, i: int, today: CivilDate, events: seq<E>, due: E -> CivilDate)
    requires 0 <= m < 12 && 1 <= i <= 42 - LeadCount(y, m) - DaysInMonth(y, m)
    ensures GridCellOk(CalendarDay(DayOfNextMonth(y, m, i), i, false, false, []),
                       LeadCount(y, m) + DaysInMonth(y, m) + i - 1, y, m, today, events, due)
  {
  }

  /** Every cell of a month grid holds a real date and shows that date's day number. */
  lemma GridDatesValid<E(!new)>(g: seq<CalendarDay<E>>, y: int, m: int, today: CivilDate,
                                events: seq<E>, due: E -> CivilDate, k: int)
    requires 0 <= m < 12 && IsMonthGrid(g, y, m, today, events, due) && 0 <= k < 42
    ensures ValidDate(g[k].date) && g[k].dayOfMonth == g[k].date.day
  {
    assert CellsOk(g, y, m, today, events, due);
    assert GridCellOk(g[k], k, y, m, today, events, due);
  }

  lemma ModShift(a: int, b: int)
    ensures (a % 7 + b) % 7 == (a + b) % 7
  {
  }

  /** The days of the shown month sit in the column (cell index modulo 7) of their
      weekday, which is what the leading cells are for. */
  lemma GridColumnIsWeekday<E(!new)>(g: seq<CalendarDay<E>>, y: int, m: int, today: CivilDate,
                                     events: seq<E>, due: E -> CivilDate, k: int)
    requires 0 <= m < 12 && IsMonthGrid(g, y, m, today, events, due) && 0 <= k < 42
    requires g[k].isCurrentMonth
    ensures Weekday(g[k].date) == k % 7
  {
    assert GridCellOk(g[k], k, y, m, today, events, due);
    var lead := LeadCount(y, m);
    var d := k - lead + 1;
    assert g[k].date == CivilDate(y, m, d);
    var first := DayNumber(CivilDate(y, m, 1));
    DayNumberWithinMonth(y, m, d);
    assert lead == (first + 4) % 7;
    ModShift(first + 4, d - 1);
  }

  /** An event due on a day of the shown month is listed in that day's cell, at index
      `lead + day - 1`, and in no other cell. */
  lemma {:induction false} EventInExactlyOneCell<E(!new)>(g: seq<CalendarDay<E>>, y: int, m: int,
      today: CivilDate, events: seq<E>, due: E -> CivilDate, e: E)
    requires 0 <= m < 12 && IsMonthGrid(g, y, m, today, events, due)
    requires e in events && ValidDate(due(e)) && due(e).year == y && due(e).month == m
    ensures e in g[LeadCount(y, m) + due(e).day - 1].events
    ensures forall k :: 0 <= k < 42 && k != LeadCount(y, m) + due(e).day - 1 ==> e !in g[k].events
  {
    var lead := LeadCount(y, m);
    var home := lead + due(e).day - 1;
    assert GridCellOk(g[home], home, y, m, today, events, due);
    assert CivilDate(y, m, home - lead + 1) == due(e);
    forall k | 0 <= k < 42 && k != home ensures e !in g[k].events {
      assert GridCellOk(g[k], k, y, m, today, events, due);
      if lead <= k < lead + DaysInMonth(y, m) {
        assert CivilDate(y, m, k - lead + 1) != due(e);
      }
    }
  }
}
