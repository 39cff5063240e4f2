/** The tax dashboard: KPI cards over tax events with a liability amount (open and
    overdue counts, the open liability, a whole-percent compliance score), a 42-cell
    month grid of every event, the most urgent deadlines and the latest filed events. */
module TaxDashboard {
  import opened Seqs
  import opened Calendar
  import opened Ratios
  import TaxCalendar

  type EventStatus = TaxCalendar.EventStatus

  datatype LiabilityType = Payroll | Corporate | Expense

  datatype DashboardEvent = DashboardEvent(
    id: int,
    formName: string,
    jurisdiction: string,
    dueDate: DateTime,
    status: EventStatus,
    liabilityType: LiabilityType,
    amount: int)

  function HasStatus(s: EventStatus): DashboardEvent -> bool
  {
    (e: DashboardEvent) => e.status == s
  }

  /** `upcomingCount` and `overdueCount`, and the filed count of `complianceScore`. */
  function CountStatus(events: seq<DashboardEvent>, s: EventStatus): (r: nat)
    ensures r <= |events|
  {
    |Filter(events, HasStatus(s))|
  }

  /** Every event is counted under exactly one of the three statuses. */
  lemma {:induction false} StatusCountsPartition(events: seq<DashboardEvent>)
    ensures CountStatus(events, TaxCalendar.Filed) + CountStatus(events, TaxCalendar.Upcoming)
          + CountStatus(events, TaxCalendar.Overdue) == |events|
  {
    if events != [] {
      StatusCountsPartition(events[1..]);
    }
  }

  function Amount(e: DashboardEvent): int
  {
    e.amount
  }

  /** `estimatedLiability`: the amounts of the events not yet filed, added up. */
  function EstimatedLiability(events: seq<DashboardEvent>): int
  {
    SumOf(Filter(events, Not(HasStatus(TaxCalendar.Filed))), Amount)
  }

  /** The open liability and the filed amounts add up to the total of all amounts, and
      with no negative amounts the open liability is itself never negative. */
  lemma LiabilitySplitsTotal(events: seq<DashboardEvent>)
    ensures EstimatedLiability(events) + SumOf(Filter(events, HasStatus(TaxCalendar.Filed)), Amount)
         == SumOf(events, Amount)
    ensures (forall e :: e in events ==> e.amount >= 0) ==> EstimatedLiability(events) >= 0
  {
    SumOfPartition(events, HasStatus(TaxCalendar.Filed), Amount);
    if forall e :: e in events ==> e.amount >= 0 {
      SumOfNonNegative(Filter(events, Not(HasStatus(TaxCalendar.Filed))), Amount);
    }
  }

  /** `complianceScore`: filed events over filed and overdue events as a whole
      percentage, rounded half up, and 100 when there are neither. */
  function ComplianceScore(events: seq<DashboardEvent>): (r: int)
    ensures 0 <= r <= 100
    ensures CountStatus(events, TaxCalendar.Overdue) == 0 ==> r == 100
    ensures CountStatus(events, TaxCalendar.Filed) == 0 && CountStatus(events, TaxCalendar.Overdue) > 0 ==> r == 0
  {
    var filed := CountStatus(events, TaxCalendar.Filed);
    ShareOrFull(filed, filed + CountStatus(events, TaxCalendar.Overdue), 100)
  }

  /** The score is the filed share of filed and overdue events in whole percent,
      rounded half up. */
  lemma ComplianceScoreRounds(events: seq<DashboardEvent>)
    ensures var filed, total := CountStatus(events, TaxCalendar.Filed),
                                CountStatus(events, TaxCalendar.Filed) + CountStatus(events, TaxCalendar.Overdue);
            total > 0 ==> RoundedShare(ComplianceScore(events), filed, total, 100)
  {
    var filed, overdue := CountStatus(events, TaxCalendar.Filed), CountStatus(events, TaxCalendar.Overdue);
    ComplianceScoreOfCounts(events, filed, overdue);
    if filed + overdue > 0 {
      ShareOrFullRounds(filed, filed + overdue, 100, ComplianceScore(events));
    }
  }

  lemma ComplianceScoreOfCounts(events: seq<DashboardEvent>, filed: nat, overdue: nat)
    requires filed == CountStatus(events, TaxCalendar.Filed) && overdue == CountStatus(events, TaxCalendar.Overdue)
    ensures ComplianceScore(events) == ShareOrFull(filed, filed + overdue, 100)
  {
  }

  function DueDate(e: DashboardEvent): CivilDate
  {
    e.dueDate.date
  }

  /** `calendarGrid` over all events: the leading days from `new Date(y, m, 1 - i)`,
      the month's days with the events whose due moment truncated to midnight is that
      day's midnight, then `42 - length` days `new Date(y, m + 1, i)`. */
  method CalendarGrid(y: int, m: int, today: CivilDate, events: seq<DashboardEvent>)
    returns (grid: seq<CalendarDay<DashboardEvent>>)
    requires 0 <= m < 12
    ensures IsMonthGrid(grid, y, m, today, events, DueDate)
  {
    var firstDayOfWeek := Weekday(CivilDate(y, m, 1));
    var lastDateOfMonth := DaysInMonth(y, m);
    grid := [];
    var i := firstDayOfWeek;
    while i > 0
      invariant 0 <= i <= firstDayOfWeek
      invariant |grid| == firstDayOfWeek - i
      invariant CellsOk(grid, y, m, today, events, DueDate)
    {
      var prevMonthDate := DayBeforeFirst(y, m, i);
      LeadingCellOk(y, m, i, today, events, DueDate);
      var cell := CalendarDay(prevMonthDate, prevMonthDate.day, false, false, []);
      CellsOkAppend(grid, cell, y, m, today, events, DueDate);
      grid := grid + [cell];
      i := i - 1;
    }
    i := 1;
    while i <= lastDateOfMonth
      invariant 1 <= i <= lastDateOfMonth + 1
      invariant |grid| == firstDayOfWeek + i - 1
      invariant CellsOk(grid, y, m, today, events, DueDate)
    {
      var currentDate := DateTime(CivilDate(y, m, i), 0);
      var isToday := currentDate == DateTime(today, 0);
      var dayEvents := Filter(events, (e: DashboardEvent) => Midnight(e.dueDate) == currentDate);
      MidnightIsDueOn(events, CivilDate(y, m, i));
      MonthCellOk(y, m, i, today, events, DueDate);
      var cell := CalendarDay(currentDate.date, i, true, isToday, dayEvents);
      CellsOkAppend(grid, cell, y, m, today, events, DueDate);
      grid := grid + [cell];
      i := i + 1;
    }
    var nextMonthDays := 42 - |grid|;
    i := 1;
    while i <= nextMonthDays
      invariant 1 <= i <= nextMonthDays + 1
      invariant |grid| == firstDayOfWeek + lastDateOfMonth + i - 1
      invariant CellsOk(grid, y, m, today, events, DueDate)
    {
      var nextMonthDate := DayOfNextMonth(y, m, i);
      NextMonthCellOk(y, m, i, today, events, DueDate);
      var cell := CalendarDay(nextMonthDate, nextMonthDate.day, false, false, []);
      CellsOkAppend(grid, cell, y, m, today, events, DueDate);
      grid := grid + [cell];
      i := i + 1;
    }
  }

  /** Comparing midnights selects the events due on that date. */
  lemma MidnightIsDueOn(events: seq<DashboardEvent>, d: CivilDate)
    ensures Filter(events, (e: DashboardEvent) => Midnight(e.dueDate) == DateTime(d, 0))
         == EventsOn(events, DueDate, d)
  {
    var same := (e: DashboardEvent) => Midnight(e.dueDate) == DateTime(d, 0);
    forall e | e in events ensures same(e) == DueOn(DueDate, d)(e) {
      MidnightSameIffSameDate(e.dueDate, d);
      assert DueOn(DueDate, d)(e) == (DueDate(e) == d);
    }
    FilterCongruent(events, same, DueOn(DueDate, d));
  }

  predicate IsOpen(e: DashboardEvent)
  {
    e.status == TaxCalendar.Upcoming || e.status == TaxCalendar.Overdue
  }

  /** The key of `(a, b) => a.dueDate.getTime() - b.dueDate.getTime()`. */
  function EarliestDueFirst(e: DashboardEvent): int
  {
    Stamp(e.dueDate)
  }

  /** `urgentDeadlines`: four open (upcoming or overdue) events (fewer when there are
      fewer), each shown no more often than it is stored, earliest due first. */
  function UrgentDeadlines(events: seq<DashboardEvent>): (r: seq<DashboardEvent>)
    ensures |r| == Min(4, |Filter(events, IsOpen)|)
    ensures multiset(r) <= multiset(events)
    ensures forall e :: e in r ==> e in events && IsOpen(e)
    ensures forall i, j :: 0 <= i < j < |r| ==> Stamp(r[i].dueDate) <= Stamp(r[j].dueDate)
  {
    FirstByKey(events, IsOpen, EarliestDueFirst, 4)
  }

  /** They are the most urgent: an open event left out is due no earlier than each one
      shown, and only when four are shown. */
  lemma UrgentDeadlinesAreEarliest(events: seq<DashboardEvent>, e: DashboardEvent)
    requires e in events && IsOpen(e) && e !in UrgentDeadlines(events)
    ensures |UrgentDeadlines(events)| == 4
    ensures forall i :: 0 <= i < 4 ==> Stamp(UrgentDeadlines(events)[i].dueDate) <= Stamp(e.dueDate)
  {
    FirstByKeyAreFirst(events, IsOpen, EarliestDueFirst, 4, e);
  }

  /** The key of `(a, b) => b.dueDate.getTime() - a.dueDate.getTime()`. */
  function LatestDueFirst(e: DashboardEvent): int
  {
    -Stamp(e.dueDate)
  }

  /** `recentActivity`: five filed events (fewer when there are fewer), each shown no
      more often than it is stored, latest due date first. */
  function RecentActivity(events: seq<DashboardEvent>): (r: seq<DashboardEvent>)
    ensures |r| == Min(5, |Filter(events, HasStatus(TaxCalendar.Filed))|)
    ensures multiset(r) <= multiset(events)
    ensures forall e :: e in r ==> e in events && e.status == TaxCalendar.Filed
    ensures forall i, j :: 0 <= i < j < |r| ==> Stamp(r[i].dueDate) >= Stamp(r[j].dueDate)
  {
    FirstByKey(events, HasStatus(TaxCalendar.Filed), LatestDueFirst, 5)
  }

  /** They are the latest: a filed event left out was due no later than each one shown,
      and only when five are shown. */
  lemma RecentActivityIsLatest(events: seq<DashboardEvent>, e: DashboardEvent)
    requires e in events && e.status == TaxCalendar.Filed && e !in RecentActivity(events)
    ensures |RecentActivity(events)| == 5
    ensures forall i :: 0 <= i < 5 ==> Stamp(e.dueDate) <= Stamp(RecentActivity(events)[i].dueDate)
  {
    FirstByKeyAreFirst(events, HasStatus(TaxCalendar.Filed), LatestDueFirst, 5, e);
  }

  /** The mock events; two are dated from the clock: one due five days after `now`,
      one due the day before. */
  function MockEvents(inFiveDays: DateTime, yesterday: DateTime): seq<DashboardEvent>
  {
    [ DashboardEvent(1, "Form 941", "Federal", DateTime(CivilDate(2024, 6, 31), 0), TaxCalendar.Upcoming, Payroll, 45000),
      DashboardEvent(2, "CA Sales Tax", "California", DateTime(CivilDate(2024, 6, 20), 0), TaxCalendar.Upcoming, Expense, 12500),
      DashboardEvent(3, "Form W-2", "Federal", DateTime(CivilDate(2024, 5, 28), 0), TaxCalendar.Filed, Payroll, 0),
      DashboardEvent(4, "VAT Return Q2", "UK", DateTime(CivilDate(2024, 7, 7), 0), TaxCalendar.Upcoming, Corporate, 18000),
      DashboardEvent(5, "Form 1120", "Federal", DateTime(CivilDate(2024, 3, 15), 0), TaxCalendar.Filed, Corporate, 0),
      DashboardEvent(6, "TX Franchise Tax", "Texas", DateTime(CivilDate(2024, 4, 15), 0), TaxCalendar.Overdue, Corporate, 5000),
      DashboardEvent(7, "Q1 Payroll Tax", "Federal", DateTime(CivilDate(2024, 3, 30), 0), TaxCalendar.Filed, Payroll, 0),
      DashboardEvent(8, "DE Franchise Tax", "Delaware", inFiveDays, TaxCalendar.Upcoming, Corporate, 350),
      DashboardEvent(9, "Local Business Tax", "City", DateTime(CivilDate(2024, 4, 1), 0), TaxCalendar.Overdue, Corporate, 800),
      DashboardEvent(10, "Form 941", "Federal", yesterday, TaxCalendar.Overdue, Payroll, 45000) ]
  }

  /** The dashboard's state: the shown month and the selected day. */
  class TaxDashboardScreen {
    var currentDate: DateTime
    var selectedDay: Option<CalendarDay<DashboardEvent>>
    var taxEvents: seq<DashboardEvent>

    ghost predicate Valid()
      reads this
    {
      0 <= currentDate.date.month < 12
    }

    /** `now` is the clock when the screen is built; `inFiveDays` and `yesterday` are
        the two mock due dates computed from it, normalised into real dates. */
    constructor (now: DateTime, inFiveDays: DateTime, yesterday: DateTime)
      requires ValidDateTime(now) && ValidDateTime(inFiveDays) && ValidDateTime(yesterday)
      requires Stamp(inFiveDays) == Stamp(now) + 5 * MsPerDay
      requires Stamp(yesterday) == Stamp(now) - MsPerDay
      ensures Valid()
      ensures currentDate == now && selectedDay == None && taxEvents == MockEvents(inFiveDays, yesterday)
    {
      currentDate := now;
      selectedDay := None;
      taxEvents := MockEvents(inFiveDays, yesterday);
    }

    /** `calendarGrid` of the shown month. */
    method Grid(today: CivilDate) returns (grid: seq<CalendarDay<DashboardEvent>>)
      requires Valid()
      ensures IsMonthGrid(grid, currentDate.date.year, currentDate.date.month, today, taxEvents, DueDate)
    {
      grid := CalendarGrid(currentDate.date.year, currentDate.date.month, today, taxEvents);
    }

    method PreviousMonth()
      requires Valid()
      modifies this
      ensures Valid()
      ensures currentDate == DateTime(FirstOfPrevMonth(old(currentDate).date), 0)
      ensures MonthIndex(currentDate.date) == MonthIndex(old(currentDate).date) - 1
      ensures selectedDay == None && taxEvents == old(taxEvents)
    {
      currentDate := DateTime(FirstOfPrevMonth(currentDate.date), 0);
      selectedDay := None;
    }

    method NextMonth()
      requires Valid()
      modifies this
      ensures Valid()
      ensures currentDate == DateTime(FirstOfNextMonth(old(currentDate).date), 0)
      ensures MonthIndex(currentDate.date) == MonthIndex(old(currentDate).date) + 1
      ensures selectedDay == None && taxEvents == old(taxEvents)
    {
      currentDate := DateTime(FirstOfNextMonth(currentDate.date), 0);
      selectedDay := None;
    }

    /** Only a day of the shown month that has events can be selected. */
    method SelectDay(day: CalendarDay<DashboardEvent>)
      modifies this
      ensures selectedDay == (if day.isCurrentMonth && |day.events| > 0 then Some(day) else old(selectedDay))
      ensures currentDate == old(currentDate) && taxEvents == old(taxEvents)
    {
      if day.isCurrentMonth && |day.events| > 0 {
        selectedDay := Some(day);
      }
    }
  }
}
