/** The tax calendar: tax events with due and filing dates, the status counts and
    compliance rate of its cards, a 42-cell month grid of the events the status
    filters let through, the latest filings, the month's open deadlines, and the
    actions that add an event, mark one as filed and move between months. */
module TaxCalendar {
  import opened Seqs
  import opened Calendar
  import opened Ratios

  datatype EventStatus = Filed | Upcoming | Overdue

  /** The statuses the calendar's filter buttons switch on and off. */
  type FilterStatus = s: EventStatus | s != Filed witness Upcoming

  datatype TaxEvent = TaxEvent(
    id: int,
    formName: string,
    jurisdiction: string,
    dueDate: DateTime,
    filedDate: Option<DateTime>,
    status: EventStatus,
    description: Option<string>)

  function HasStatus(s: EventStatus): TaxEvent -> bool
  {
    (e: TaxEvent) => e.status == s
  }

  /** The number of events with status `s`: `upcomingCount`, `overdueCount`, and the
      filed count inside `complianceRate`. */
  function CountStatus(events: seq<TaxEvent>, s: EventStatus): (r: nat)
    ensures r <= |events|
  {
    |Filter(events, HasStatus(s))|
  }

  /** Counting the first event, then the rest. */
  lemma CountStatusCons(events: seq<TaxEvent>)
    requires events != []
    ensures forall s :: CountStatus(events, s) == (if events[0].status == s then 1 else 0) + CountStatus(events[1..], s)
  {
  }

  /** Every event is counted under exactly one of the three statuses. */
  lemma {:induction false} StatusCountsPartition(events: seq<TaxEvent>)
    ensures CountStatus(events, Filed) + CountStatus(events, Upcoming) + CountStatus(events, Overdue) == |events|
  {
    if events != [] {
      StatusCountsPartition(events[1..]);
      CountStatusCons(events);
    }
  }

  /** The cut-off of `filingsLast30DaysCount`: now, thirty days earlier. */
  function ThirtyDaysAgo(now: DateTime): DateTime
  {
    ShiftDays(now, -30)
  }

  /** The events filed (with a filing date) strictly after the cut-off. */
  function RecentlyFiled(events: seq<TaxEvent>, now: DateTime): (r: seq<TaxEvent>)
    ensures forall e :: e in r <==>
      e in events && e.status == Filed && e.filedDate.Some? && Stamp(e.filedDate.value) > Stamp(now) - 30 * MsPerDay
  {
    ShiftDaysStamp(now, -30);
    Filter(events, (e: TaxEvent) => e.status == Filed && e.filedDate.Some?
                                    && Stamp(e.filedDate.value) > Stamp(ThirtyDaysAgo(now)))
  }

  /** `filingsLast30DaysCount` never exceeds the number of filed events. */
  lemma FilingsLast30DaysBounded(events: seq<TaxEvent>, now: DateTime)
    ensures |RecentlyFiled(events, now)| <= CountStatus(events, Filed)
  {
    FilterLengthMonotone(events, (e: TaxEvent) => e.status == Filed && e.filedDate.Some?
                                                  && Stamp(e.filedDate.value) > Stamp(ThirtyDaysAgo(now)),
                         HasStatus(Filed));
  }

  /** `complianceRate`, in tenths of a percent: filed events over filed and overdue
      events, rounded to one decimal, and 100.0 when there are neither. */
  function ComplianceRate(events: seq<TaxEvent>): (r: int)
    ensures 0 <= r <= 1000
    ensures CountStatus(events, Overdue) == 0 ==> r == 1000
    ensures CountStatus(events, Filed) == 0 && CountStatus(events, Overdue) > 0 ==> r == 0
  {
    var filed := CountStatus(events, Filed);
    ShareOrFull(filed, filed + CountStatus(events, Overdue), 1000)
  }

  /** The rate is the filed share of filed and overdue events in tenths of a percent,
      rounded to the nearest tenth. */
  lemma ComplianceRateRounds(events: seq<TaxEvent>)
    ensures var filed, total := CountStatus(events, Filed), CountStatus(events, Filed) + CountStatus(events, Overdue);
            total > 0 ==> RoundedShare(ComplianceRate(events), filed, total, 1000)
  {
    var filed, overdue := CountStatus(events, Filed), CountStatus(events, Overdue);
    ComplianceRateOfCounts(events, filed, overdue);
    if filed + overdue > 0 {
      ShareOrFullRounds(filed, filed + overdue, 1000, ComplianceRate(events));
    }
  }

  /** More filed events against the same number of overdue ones never lower the rate. */
  lemma ComplianceRateMonotone(a: seq<TaxEvent>, b: seq<TaxEvent>)
    requires CountStatus(a, Filed) <= CountStatus(b, Filed)
    requires CountStatus(b, Overdue) <= CountStatus(a, Overdue)
    ensures ComplianceRate(a) <= ComplianceRate(b)
  {
    var fa, oa := CountStatus(a, Filed), CountStatus(a, Overdue);
    var fb, ob := CountStatus(b, Filed), CountStatus(b, Overdue);
    ComplianceRateOfCounts(a, fa, oa);
    ComplianceRateOfCounts(b, fb, ob);
    ShareMonotone(fa, oa, fb, ob, 1000);
  }

  lemma ComplianceRateOfCounts(events: seq<TaxEvent>, filed: nat, overdue: nat)
    requires filed == CountStatus(events, Filed) && overdue == CountStatus(events, Overdue)
    ensures ComplianceRate(events) == ShareOrFull(filed, filed + overdue, 1000)
  {
  }

  /** The compliance rate depends on the filed and overdue counts alone. */
  lemma ComplianceRateByCounts(a: seq<TaxEvent>, b: seq<TaxEvent>)
    requires CountStatus(a, Filed) == CountStatus(b, Filed)
    requires CountStatus(a, Overdue) == CountStatus(b, Overdue)
    ensures ComplianceRate(a) == ComplianceRate(b)
  {
    ComplianceRateMonotone(a, b);
    ComplianceRateMonotone(b, a);
  }

  /** `filteredEvents`: filed events always, the others when their status filter is on. */
  function FilteredEvents(events: seq<TaxEvent>, filters: seq<FilterStatus>): (r: seq<TaxEvent>)
    ensures IsSubseq(r, events)
    ensures forall e :: e in r <==> e in events && (e.status == Filed || e.status in filters)
  {
    var keep := (e: TaxEvent) => e.status == Filed || e.status in filters;
    FilterIsSubseq(events, keep);
    Filter(events, keep)
  }

  /** The date a cell compares an event's due date with. */
  function DueDate(e: TaxEvent): CivilDate
  {
    e.dueDate.date
  }

  /** `calendarGrid` for month `m` of year `y`, `today` being the date of the clock
      reading truncated to midnight. The leading days come from `new Date(y, m, 1 - i)`,
      the month's days from `new Date(y, m, i)`, and the trailing days by stepping
      one day on from the last cell until there are 42. */
  method CalendarGrid(y: int, m: int, today: CivilDate, events: seq<TaxEvent>)
    returns (grid: seq<CalendarDay<TaxEvent>>)
    requires 0 <= m < 12
    ensures IsMonthGrid(grid, y, m, today, events, DueDate)
  {
    var firstDayOfWeek := Weekday(CivilDate(y, m, 1));
    var lastDateOfMonth := DaysInMonth(y, m);
    grid := [];
    var i := firstDayOfWeek;
    while i > 0
      invariant 0 <= i <= firstDayOfWeek
      invariant |grid| == firstDayOfWeek - i
      invariant CellsOk(grid, y, m, today, events, DueDate)
    {
      var prevMonthDate := DayBeforeFirst(y, m, i);
      LeadingCellOk(y, m, i, today, events, DueDate);
      var cell := CalendarDay(prevMonthDate, prevMonthDate.day, false, false, []);
      CellsOkAppend(grid, cell, y, m, today, events, DueDate);
      grid := grid + [cell];
      i := i - 1;
    }
    i := 1;
    while i <= lastDateOfMonth
      invariant 1 <= i <= lastDateOfMonth + 1
      invariant |grid| == firstDayOfWeek + i - 1
      invariant CellsOk(grid, y, m, today, events, DueDate)
    {
      var currentDate := CivilDate(y, m, i);
      var isToday := currentDate == today;
      var sameDay := (e: TaxEvent) => e.dueDate.date.year == y && e.dueDate.date.month == m && e.dueDate.date.day == i;
      var dayEvents := Filter(events, sameDay);
      SameDayIsDueOn(events, y, m, i);
      MonthCellOk(y, m, i, today, events, DueDate);
      var cell := CalendarDay(currentDate, i, true, isToday, dayEvents);
      CellsOkAppend(grid, cell, y, m, today, events, DueDate);
      grid := grid + [cell];
      i := i + 1;
    }
    while |grid| < 42
      invariant firstDayOfWeek + lastDateOfMonth <= |grid| <= 42
      invariant CellsOk(grid, y, m, today, events, DueDate)
      decreases 42 - |grid|
    {
      TrailingCellOk(y, m, |grid|, grid[|grid| - 1], today, events, DueDate);
      var lastDayInGrid := grid[|grid| - 1].date;
      var nextDay := NextDay(lastDayInGrid);
      var cell := CalendarDay(nextDay, nextDay.day, false, false, []);
      CellsOkAppend(grid, cell, y, m, today, events, DueDate);
      grid := grid + [cell];
    }
  }

  /** The day filter of the grid, written out on year, month and day, selects the
      events due on that date. */
  lemma SameDayIsDueOn(events: seq<TaxEvent>, y: int, m: int, i: int)
    ensures Filter(events, (e: TaxEvent) => e.dueDate.date.year == y && e.dueDate.date.month == m && e.dueDate.date.day == i)
         == EventsOn(events, DueDate, CivilDate(y, m, i))
  {
    var sameDay := (e: TaxEvent) => e.dueDate.date.year == y && e.dueDate.date.month == m && e.dueDate.date.day == i;
    forall e | e in events ensures sameDay(e) == DueOn(DueDate, CivilDate(y, m, i))(e) {
      assert DueOn(DueDate, CivilDate(y, m, i))(e) == (DueDate(e) == CivilDate(y, m, i));
    }
    FilterCongruent(events, sameDay, DueOn(DueDate, CivilDate(y, m, i)));
  }

  /** The filing moment, where there is one. */
  function FiledAt(e: TaxEvent): int
  {
    if e.filedDate.Some? then Stamp(e.filedDate.value) else 0
  }

  /** The key of `(a, b) => b.filedDate!.getTime() - a.filedDate!.getTime()`. */
  function LatestFiledFirst(e: TaxEvent): int
  {
    -FiledAt(e)
  }

  predicate FiledWithDate(e: TaxEvent)
  {
    e.status == Filed && e.filedDate.Some?
  }

  /** `recentFilings`: five filed events with a filing date (fewer when there are
      fewer), each shown no more often than it is stored, latest filing first. */
  function RecentFilings(events: seq<TaxEvent>): (r: seq<TaxEvent>)
    ensures |r| == Min(5, |Filter(events, FiledWithDate)|)
    ensures multiset(r) <= multiset(events)
    ensures forall e :: e in r ==> e in events && FiledWithDate(e)
    ensures forall i, j :: 0 <= i < j < |r| ==> FiledAt(r[i]) >= FiledAt(r[j])
  {
    FirstByKey(events, FiledWithDate, LatestFiledFirst, 5)
  }

  /** They are the latest filings: a filed event left out was filed no later than
      each one shown, and only when five are shown. */
  lemma RecentFilingsAreLatest(events: seq<TaxEvent>, e: TaxEvent)
    requires e in events && FiledWithDate(e) && e !in RecentFilings(events)
    ensures |RecentFilings(events)| == 5
    ensures forall i :: 0 <= i < 5 ==> FiledAt(e) <= FiledAt(RecentFilings(events)[i])
  {
    FirstByKeyAreFirst(events, FiledWithDate, LatestFiledFirst, 5, e);
  }

  /** The key of `(a, b) => a.dueDate.getTime() - b.dueDate.getTime()`. */
  function EarliestDueFirst(e: TaxEvent): int
  {
    Stamp(e.dueDate)
  }

  /** An open (not yet filed) event due in month `m` of year `y`. */
  predicate OpenInMonth(e: TaxEvent, y: int, m: int)
  {
    e.status != Filed && e.dueDate.date.year == y && e.dueDate.date.month == m
  }

  /** `upcomingForMonth`: exactly the open events due in the shown month, each as
      often as stored, earliest due first. */
  function UpcomingForMonth(events: seq<TaxEvent>, y: int, m: int): (r: seq<TaxEvent>)
    ensures forall e :: multiset(r)[e] == (if OpenInMonth(e, y, m) then multiset(events)[e] else 0)
    ensures forall i, j :: 0 <= i < j < |r| ==> Stamp(r[i].dueDate) <= Stamp(r[j].dueDate)
  {
    SortByKey(Filter(events, (e: TaxEvent) => OpenInMonth(e, y, m)), EarliestDueFirst)
  }

  /** `toggleFilter`: through a `Set`, so each filter is listed once; a listed filter
      is deleted, a missing one is added at the end. */
  function ToggleFilter(filters: seq<FilterStatus>, f: FilterStatus): (r: seq<FilterStatus>)
    ensures f in r <==> f !in filters
    ensures forall g: FilterStatus :: g != f ==> (g in r <==> g in filters)
    ensures forall g: FilterStatus :: multiset(r)[g] <= 1
  {
    var distinct := Distinct(filters);
    assert forall g :: g in distinct <==> g in multiset(distinct);
    if f in distinct then Filter(distinct, (g: FilterStatus) => g != f) else distinct + [f]
  }

  /** Toggling the same filter twice gives back the same set of filters. */
  lemma ToggleFilterTwice(filters: seq<FilterStatus>, f: FilterStatus)
    ensures forall g: FilterStatus :: g in ToggleFilter(ToggleFilter(filters, f), f) <==> g in filters
  {
  }

  /** The filed copy of an event: `{...event, status: 'Filed', filedDate: now}`. */
  function FiledCopy(e: TaxEvent, now: DateTime): (r: TaxEvent)
    ensures r.status == Filed && r.filedDate == Some(now)
    ensures r.(status := e.status, filedDate := e.filedDate) == e
  {
    e.(status := Filed, filedDate := Some(now))
  }

  /** `markAsFiled` on a list of events: those with the id become filed now, the others
      stay as they are, and the list keeps its length and order. */
  function MarkFiled(events: seq<TaxEvent>, eventId: int, now: DateTime): (r: seq<TaxEvent>)
    ensures |r| == |events|
    ensures forall i :: 0 <= i < |events| ==> r[i] == if events[i].id == eventId then FiledCopy(events[i], now) else events[i]
  {
    UpdateWhere(events, (e: TaxEvent) => e.id == eventId, (e: TaxEvent) => FiledCopy(e, now))
  }

  /** Marking as filed never lowers the filed count, and the grid positions (ids and
      due dates) are untouched. */
  lemma {:induction false} MarkFiledCounts(events: seq<TaxEvent>, eventId: int, now: DateTime)
    ensures CountStatus(MarkFiled(events, eventId, now), Filed) >= CountStatus(events, Filed)
    ensures CountStatus(MarkFiled(events, eventId, now), Overdue) <= CountStatus(events, Overdue)
  {
    if events != [] {
      MarkFiledCounts(events[1..], eventId, now);
      var marked := MarkFiled(events, eventId, now);
      assert marked[1..] == MarkFiled(events[1..], eventId, now);
      CountStatusCons(events);
      CountStatusCons(marked);
    }
  }

  /** Marking an event filed, overdue or not, raises the compliance rate or keeps it. */
  lemma MarkFiledRaisesCompliance(events: seq<TaxEvent>, eventId: int, now: DateTime)
    ensures ComplianceRate(MarkFiled(events, eventId, now)) >= ComplianceRate(events)
  {
    MarkFiledCounts(events, eventId, now);
    ComplianceRateMonotone(events, MarkFiled(events, eventId, now));
  }

  /** When no overdue event carries the id, the overdue count is unchanged. */
  lemma {:induction false} MarkFiledKeepsOverdue(events: seq<TaxEvent>, eventId: int, now: DateTime)
    requires forall e :: e in events && e.id == eventId ==> e.status != Overdue
    ensures CountStatus(MarkFiled(events, eventId, now), Overdue) == CountStatus(events, Overdue)
  {
    if events != [] {
      MarkFiledKeepsOverdue(events[1..], eventId, now);
      var marked := MarkFiled(events, eventId, now);
      assert marked[1..] == MarkFiled(events[1..], eventId, now);
      CountStatusCons(events);
      CountStatusCons(marked);
    }
  }

  /** The add-event form; a cleared control reads as `None`. */
  datatype AddEventForm = AddEventForm(
    formName: Option<string>,
    jurisdiction: Option<string>,
    dueDate: Option<string>,
    description: Option<string>)

  function EmptyEventForm(): AddEventForm
  {
    AddEventForm(Some(""), Some(""), Some(""), Some(""))
  }

  /** The validators: name, jurisdiction and due date required. */
  predicate EventFormValid(f: AddEventForm)
  {
    && f.formName.Some? && f.formName.value != ""
    && f.jurisdiction.Some? && f.jurisdiction.value != ""
    && f.dueDate.Some? && f.dueDate.value != ""
  }

  /** The event a valid form adds: id from the clock, due date as parsed from the
      form's text, status Upcoming, and a description that is '' when left empty. */
  function NewEvent(f: AddEventForm, id: int, parsedDueDate: DateTime): (r: TaxEvent)
    requires EventFormValid(f)
    ensures r.status == Upcoming && r.filedDate == None && r.description.Some?
    ensures r.formName == f.formName.value && r.jurisdiction == f.jurisdiction.value
    ensures r.dueDate == parsedDueDate && r.id == id
  {
    TaxEvent(id, f.formName.value, f.jurisdiction.value, parsedDueDate, None, Upcoming,
             Some(if f.description.Some? then f.description.value else ""))
  }

  /** Appending one event adds one to the count of its own status only. */
  lemma CountAppendOne(events: seq<TaxEvent>, e: TaxEvent, s: EventStatus)
    ensures CountStatus(events + [e], s) == CountStatus(events, s) + (if e.status == s then 1 else 0)
  {
    FilterAppend(events, [e], HasStatus(s));
    assert Filter([e], HasStatus(s)) == if e.status == s then [e] else [];
  }

  /** Adding an upcoming event, as the add form does, adds one to the upcoming count
      and leaves the filed and overdue counts, and so the compliance rate, as they were. */
  lemma AddEventCounts(events: seq<TaxEvent>, e: TaxEvent)
    requires e.status == Upcoming
    ensures CountStatus(events + [e], Upcoming) == CountStatus(events, Upcoming) + 1
    ensures CountStatus(events + [e], Filed) == CountStatus(events, Filed)
    ensures CountStatus(events + [e], Overdue) == CountStatus(events, Overdue)
    ensures ComplianceRate(events + [e]) == ComplianceRate(events)
  {
    CountAppendOne(events, e, Upcoming);
    CountAppendOne(events, e, Filed);
    CountAppendOne(events, e, Overdue);
    ComplianceRateByCounts(events + [e], events);
  }

  /** The mock events; two of them are dated from the clock: one due `now`, one due
      and filed fifteen days earlier. */
  function MockEvents(now: DateTime, fifteenDaysAgo: DateTime): seq<TaxEvent>
  {
    [ TaxEvent(1, "Form 941", "Federal", DateTime(CivilDate(2024, 6, 31), 0), None, Upcoming, Some("Quarterly Federal Tax Return")),
      TaxEvent(2, "CA Sales Tax", "California", DateTime(CivilDate(2024, 6, 20), 0), None, Upcoming, Some("Q2 Sales & Use Tax")),
      TaxEvent(3, "Form W-2", "Federal", DateTime(CivilDate(2024, 5, 28), 0), Some(DateTime(CivilDate(2024, 5, 25), 0)), Filed,
               Some("Annual Wage and Tax Statement")),
      TaxEvent(4, "VAT Return Q2", "United Kingdom", DateTime(CivilDate(2024, 7, 7), 0), None, Upcoming, None),
      TaxEvent(5, "Corporate Tax Est.", "Federal", DateTime(CivilDate(2024, 8, 15), 0), None, Upcoming, None),
      TaxEvent(6, "NY IT-204-LL", "New York", DateTime(CivilDate(2024, 2, 15), 0), Some(DateTime(CivilDate(2024, 2, 12), 0)), Filed, None),
      TaxEvent(7, "TX Franchise Tax", "Texas", DateTime(CivilDate(2024, 4, 15), 0), None, Overdue, Some("Annual franchise tax report.")),
      TaxEvent(8, "Q1 Payroll Tax", "Federal", DateTime(CivilDate(2024, 3, 30), 0), Some(DateTime(CivilDate(2024, 3, 28), 0)), Filed, None),
      TaxEvent(9, "Form 1120", "Federal", DateTime(CivilDate(2024, 3, 15), 0), Some(DateTime(CivilDate(2024, 3, 10), 0)), Filed, None),
      TaxEvent(10, "DE Franchise Tax", "Delaware", now, None, Upcoming, None),
      TaxEvent(11, "Monthly Payroll", "Federal", fifteenDaysAgo, Some(fifteenDaysAgo), Filed, None),
      TaxEvent(12, "Local Business Tax", "City", DateTime(CivilDate(2024, 4, 1), 0), None, Overdue, None) ]
  }

  /** The calendar's state. */
  class TaxCalendarScreen {
    var currentDate: DateTime
    var selectedDay: Option<CalendarDay<TaxEvent>>
    var activeFilters: seq<FilterStatus>
    var isAddEventModalOpen: bool
    var addEventForm: AddEventForm
    var taxEvents: seq<TaxEvent>

    /** The shown month is a real calendar month. */
    ghost predicate Valid()
      reads this
    {
      0 <= currentDate.date.month < 12
    }

    /** `now` is the clock when the screen is built and `fifteenDaysAgo` the same
        moment fifteen days earlier, both already normalised into real dates. */
    constructor (now: DateTime, fifteenDaysAgo: DateTime)
      requires ValidDateTime(now) && ValidDateTime(fifteenDaysAgo)
      requires Stamp(fifteenDaysAgo) == Stamp(now) - 15 * MsPerDay
      ensures Valid()
      ensures currentDate == now && selectedDay == None && activeFilters == [Upcoming, Overdue]
      ensures !isAddEventModalOpen && addEventForm == EmptyEventForm()
      ensures taxEvents == MockEvents(now, fifteenDaysAgo)
    {
      currentDate := now;
      selectedDay := None;
      activeFilters := [Upcoming, Overdue];
      isAddEventModalOpen := false;
      addEventForm := EmptyEventForm();
      taxEvents := MockEvents(now, fifteenDaysAgo);
    }

    function Filtered(): seq<TaxEvent>
      reads this
    {
      FilteredEvents(taxEvents, activeFilters)
    }

    /** `calendarGrid` of the shown month. */
    method Grid(today: CivilDate) returns (grid: seq<CalendarDay<TaxEvent>>)
      requires Valid()
      ensures IsMonthGrid(grid, currentDate.date.year, currentDate.date.month, today, Filtered(), DueDate)
    {
      grid := CalendarGrid(currentDate.date.year, currentDate.date.month, today, Filtered());
    }

    method PreviousMonth()
      requires Valid()
      modifies this
      ensures Valid()
      ensures currentDate == DateTime(FirstOfPrevMonth(old(currentDate).date), 0)
      ensures MonthIndex(currentDate.date) == MonthIndex(old(currentDate).date) - 1
      ensures selectedDay == None
      ensures activeFilters == old(activeFilters) && taxEvents == old(taxEvents)
      ensures isAddEventModalOpen == old(isAddEventModalOpen) && addEventForm == old(addEventForm)
    {
      currentDate := DateTime(FirstOfPrevMonth(currentDate.date), 0);
      selectedDay := None;
    }

    method NextMonth()
      requires Valid()
      modifies this
      ensures Valid()
      ensures currentDate == DateTime(FirstOfNextMonth(old(currentDate).date), 0)
      ensures MonthIndex(currentDate.date) == MonthIndex(old(currentDate).date) + 1
      ensures selectedDay == None
      ensures activeFilters == old(activeFilters) && taxEvents == old(taxEvents)
      ensures isAddEventModalOpen == old(isAddEventModalOpen) && addEventForm == old(addEventForm)
    {
      currentDate := DateTime(FirstOfNextMonth(currentDate.date), 0);
      selectedDay := None;
    }

    /** Only a day of the shown month that has events can be selected. */
    method SelectDay(day: CalendarDay<TaxEvent>)
      modifies this
      ensures selectedDay == (if day.isCurrentMonth && |day.events| > 0 then Some(day) else old(selectedDay))
      ensures currentDate == old(currentDate) && activeFilters == old(activeFilters) && taxEvents == old(taxEvents)
      ensures isAddEventModalOpen == old(isAddEventModalOpen) && addEventForm == old(addEventForm)
    {
      if day.isCurrentMonth && |day.events| > 0 {
        selectedDay := Some(day);
      }
    }

    method ToggleFilterButton(f: FilterStatus)
      modifies this
      ensures activeFilters == ToggleFilter(old(activeFilters), f)
      ensures currentDate == old(currentDate) && selectedDay == old(selectedDay) && taxEvents == old(taxEvents)
      ensures isAddEventModalOpen == old(isAddEventModalOpen) && addEventForm == old(addEventForm)
    {
      activeFilters := ToggleFilter(activeFilters, f);
    }

    method CloseModals()
      modifies this
      ensures !isAddEventModalOpen
      ensures currentDate == old(currentDate) && selectedDay == old(selectedDay) && taxEvents == old(taxEvents)
      ensures activeFilters == old(activeFilters) && addEventForm == old(addEventForm)
    {
      isAddEventModalOpen := false;
    }

    /** An invalid form changes nothing. A valid one appends its event (id `newId`,
        the reading of `Date.now()`; due date `parsedDueDate`, what `new Date` makes
        of the form's text), clears the form and closes the modal. */
    method OnAddEventSubmit(newId: int, parsedDueDate: DateTime)
      modifies this
      ensures !EventFormValid(old(addEventForm)) ==>
        taxEvents == old(taxEvents) && addEventForm == old(addEventForm) && isAddEventModalOpen == old(isAddEventModalOpen)
      ensures EventFormValid(old(addEventForm)) ==>
        && taxEvents == old(taxEvents) + [NewEvent(old(addEventForm), newId, parsedDueDate)]
        && addEventForm == AddEventForm(None, None, None, None)
        && !isAddEventModalOpen
      ensures currentDate == old(currentDate) && selectedDay == old(selectedDay) && activeFilters == old(activeFilters)
    {
      if !EventFormValid(addEventForm) {
        return;
      }
      var newEvent := NewEvent(addEventForm, newId, parsedDueDate);
      taxEvents := taxEvents + [newEvent];
      addEventForm := AddEventForm(None, None, None, None);
      CloseModals();
    }

    /** Marks the events with the id as filed at `now`, in the store and in the copy of
        the selected day. */
    method MarkAsFiled(eventId: int, now: DateTime)
      modifies this
      ensures taxEvents == MarkFiled(old(taxEvents), eventId, now)
      ensures old(selectedDay) == None ==> selectedDay == None
      ensures old(selectedDay) != None ==>
        selectedDay == Some(old(selectedDay).value.(events := MarkFiled(old(selectedDay).value.events, eventId, now)))
      ensures currentDate == old(currentDate) && activeFilters == old(activeFilters)
      ensures isAddEventModalOpen == old(isAddEventModalOpen) && addEventForm == old(addEventForm)
    {
      taxEvents := MarkFiled(taxEvents, eventId, now);
      if selectedDay.Some? {
        var day := selectedDay.value;
        selectedDay := Some(day.(events := MarkFiled(day.events, eventId, now)));
      }
    }
  }
}
