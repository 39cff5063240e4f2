/** The payslip history screen: one employee's payslips, narrowed by year, month and a
    search term, shown six to a page. */
module PayslipHistory {
  import opened Seqs
  import opened Text
  import opened Paging

  datatype PayslipStatus = Paid | Processing

  /** A payslip; net pay is a whole, non-negative amount. */
  datatype Payslip = Payslip(
    id: int,
    employeeId: int,
    payPeriod: string,
    paymentDate: string,
    netPayAmount: nat,
    status: PayslipStatus,
    documentURL: string)

  const ItemsPerPage: nat := 6

  /** The search rule for an already lower-cased term: empty, or found in the lower-cased
      pay period, or found in the decimal digits of the net amount. */
  predicate TermMatches(p: Payslip, term: string)
  {
    term == "" || Contains(ToLower(p.payPeriod), term) || Contains(DecimalString(p.netPayAmount), term)
  }

  /** All four filters at once; 'All' switches the year or month filter off. */
  predicate PayslipMatches(p: Payslip, term: string, year: string, month: string, employeeId: int)
  {
    && p.employeeId == employeeId
    && (year == "All" || Contains(p.payPeriod, year))
    && (month == "All" || StartsWith(p.payPeriod, month))
    && TermMatches(p, term)
  }

  /** `filteredPayslips`: the payslips passing every filter, in store order. */
  function FilteredPayslips(payslips: seq<Payslip>, searchTerm: string, year: string, month: string,
                            employeeId: int): (r: seq<Payslip>)
    ensures IsSubseq(r, payslips)
    ensures forall p :: p in r <==> p in payslips && PayslipMatches(p, ToLower(searchTerm), year, month, employeeId)
  {
    var term := ToLower(searchTerm);
    var keep := (p: Payslip) => PayslipMatches(p, term, year, month, employeeId);
    FilterIsSubseq(payslips, keep);
    Filter(payslips, keep)
  }

  /** The search is case-insensitive: terms that lower-case alike select alike. */
  lemma SearchIgnoresCase(payslips: seq<Payslip>, t1: string, t2: string, year: string, month: string,
                          employeeId: int)
    requires ToLower(t1) == ToLower(t2)
    ensures FilteredPayslips(payslips, t1, year, month, employeeId)
         == FilteredPayslips(payslips, t2, year, month, employeeId)
  {
  }

  /** Reading the pages of six in order gives back the filtered list, each page holding
      at most six payslips. */
  lemma PaginationPartitions(filtered: seq<Payslip>)
    ensures PagesUpTo(filtered, ItemsPerPage, TotalPages(|filtered|, ItemsPerPage)) == filtered
    ensures forall page: nat :: |Page(filtered, page, ItemsPerPage)| <= ItemsPerPage
  {
    PagesCoverList(filtered, ItemsPerPage);
  }

  function MockPayslips(): seq<Payslip>
  {
    [ Payslip(1, 1, "Mar 2025", "31 Mar 2025", 75500, Paid, "#"),
      Payslip(2, 1, "Feb 2025", "28 Feb 2025", 75500, Paid, "#"),
      Payslip(3, 1, "Jan 2025", "31 Jan 2025", 75500, Paid, "#"),
      Payslip(4, 1, "Dec 2024", "31 Dec 2024", 74950, Paid, "#"),
      Payslip(5, 1, "Nov 2024", "30 Nov 2024", 74950, Paid, "#"),
      Payslip(6, 1, "Oct 2024", "31 Oct 2024", 74950, Paid, "#"),
      Payslip(7, 2, "Mar 2025", "31 Mar 2025", 82000, Paid, "#"),
      Payslip(8, 2, "Feb 2025", "28 Feb 2025", 82000, Paid, "#"),
      Payslip(9, 2, "Jan 2025", "31 Jan 2025", 81500, Paid, "#"),
      Payslip(10, 3, "Mar 2025", "31 Mar 2025", 68000, Paid, "#"),
      Payslip(11, 3, "Feb 2025", "28 Feb 2025", 68000, Paid, "#"),
      Payslip(12, 1, "Apr 2024", "30 Apr 2024", 73800, Processing, "#") ]
  }

  /** The filters the screen opens with: employee 1, year 2025, every month, no term. */
  predicate InitialFilters(p: Payslip)
  {
    PayslipMatches(p, "", "2025", "All", 1)
  }

  /** Of the mock payslips, the opening filters keep exactly the first three. */
  lemma InitialFiltersKeepFirstThree(ps: seq<Payslip>)
    requires ps == MockPayslips()
    ensures forall i :: 0 <= i < 3 ==> InitialFilters(ps[i])
    ensures forall i :: 3 <= i < |ps| ==> !InitialFilters(ps[i])
  {
    FirstThreeKept(ps);
    OwnOlderDropped(ps);
    assert !InitialFilters(ps[6]) && !InitialFilters(ps[7]) && !InitialFilters(ps[8]);
    assert !InitialFilters(ps[9]) && !InitialFilters(ps[10]);
  }

  lemma FirstThreeKept(ps: seq<Payslip>)
    requires ps == MockPayslips()
    ensures InitialFilters(ps[0]) && InitialFilters(ps[1]) && InitialFilters(ps[2])
  {
    assert ps[0].payPeriod == "Mar 2025" && ps[1].payPeriod == "Feb 2025" && ps[2].payPeriod == "Jan 2025";
    YearAfterMonth(ps[0].payPeriod);
    YearAfterMonth(ps[1].payPeriod);
    YearAfterMonth(ps[2].payPeriod);
  }

  /** A period written "Mon 2025" contains "2025" at index 4. */
  lemma YearAfterMonth(period: string)
    requires |period| == 8 && period[4..8] == "2025"
    ensures Contains(period, "2025")
  {
    assert MatchAt(period, "2025", 4);
  }

  lemma OwnOlderDropped(ps: seq<Payslip>)
    requires ps == MockPayslips()
    ensures !InitialFilters(ps[3]) && !InitialFilters(ps[4]) && !InitialFilters(ps[5]) && !InitialFilters(ps[11])
  {
    MissingCharNotContained(ps[3].payPeriod, "2025", '5');
    MissingCharNotContained(ps[4].payPeriod, "2025", '5');
    MissingCharNotContained(ps[5].payPeriod, "2025", '5');
    MissingCharNotContained(ps[11].payPeriod, "2025", '5');
  }

  /** On opening, the screen lists employee 1's three payslips of 2025, newest first. */
  lemma InitialFilteredPayslips()
    ensures FilteredPayslips(MockPayslips(), "", "2025", "All", 1) == MockPayslips()[..3]
  {
    InitialFiltersKeepFirstThree(MockPayslips());
    FilterPrefix(MockPayslips(), InitialFilters, 3);
    assert ToLower("") == "";
    var body := (p: Payslip) => PayslipMatches(p, ToLower(""), "2025", "All", 1);
    FilterCongruent(MockPayslips(), body, InitialFilters);
  }

  /** The screen's state: the filter fields, the page shown and the payslip store. */
  class PayslipHistoryScreen {
    var searchTerm: string
    var yearFilter: string
    var monthFilter: string
    var selectedEmployeeId: int
    var currentPage: nat
    var payslips: seq<Payslip>

    ghost predicate Valid()
      reads this
    {
      currentPage >= 1
    }

    constructor ()
      ensures Valid()
      ensures searchTerm == "" && yearFilter == "2025" && monthFilter == "All"
      ensures selectedEmployeeId == 1 && currentPage == 1 && payslips == MockPayslips()
    {
      searchTerm := "";
      yearFilter := "2025";
      monthFilter := "All";
      selectedEmployeeId := 1;
      currentPage := 1;
      payslips := MockPayslips();
    }

    function Filtered(): seq<Payslip>
      reads this
    {
      FilteredPayslips(payslips, searchTerm, yearFilter, monthFilter, selectedEmployeeId)
    }

    /** `totalPages`. */
    function PageCount(): nat
      reads this
    {
      TotalPages(|Filtered()|, ItemsPerPage)
    }

    /** `paginatedPayslips`. */
    function Paginated(): seq<Payslip>
      reads this
    {
      Page(Filtered(), currentPage, ItemsPerPage)
    }

    method OnSearch(value: string)
      modifies this
      ensures Valid()
      ensures searchTerm == value && currentPage == 1
      ensures yearFilter == old(yearFilter) && monthFilter == old(monthFilter)
      ensures selectedEmployeeId == old(selectedEmployeeId) && payslips == old(payslips)
    {
      searchTerm := value;
      currentPage := 1;
    }

    method OnYearChange(value: string)
      modifies this
      ensures Valid()
      ensures yearFilter == value && currentPage == 1
      ensures searchTerm == old(searchTerm) && monthFilter == old(monthFilter)
      ensures selectedEmployeeId == old(selectedEmployeeId) && payslips == old(payslips)
    {
      yearFilter := value;
      currentPage := 1;
    }

    method OnMonthChange(value: string)
      modifies this
      ensures Valid()
      ensures monthFilter == value && currentPage == 1
      ensures searchTerm == old(searchTerm) && yearFilter == old(yearFilter)
      ensures selectedEmployeeId == old(selectedEmployeeId) && payslips == old(payslips)
    {
      monthFilter := value;
      currentPage := 1;
    }

    /** The employee picker's value arrives already converted by `Number(...)`. */
    method OnEmployeeChange(employeeId: int)
      modifies this
      ensures Valid()
      ensures selectedEmployeeId == employeeId && currentPage == 1
      ensures searchTerm == old(searchTerm) && yearFilter == old(yearFilter)
      ensures monthFilter == old(monthFilter) && payslips == old(payslips)
    {
      selectedEmployeeId := employeeId;
      currentPage := 1;
    }

    /** Clamps the requested page into 1..totalPages (page 1 when there are none). */
    method GoToPage(page: int)
      modifies this
      ensures Valid()
      ensures currentPage == ClampPage(page, old(PageCount()))
      ensures old(PageCount()) >= 1 ==> currentPage <= old(PageCount())
      ensures searchTerm == old(searchTerm) && yearFilter == old(yearFilter) && monthFilter == old(monthFilter)
      ensures selectedEmployeeId == old(selectedEmployeeId) && payslips == old(payslips)
    {
      currentPage := ClampPage(page, PageCount());
    }
  }
}
