/** The payroll dashboard's table of recent payroll runs: a search over run id and pay
    period, and rows that expand one at a time. */
module PayrollDashboard {
  import opened Seqs
  import opened Text

  datatype RunStatus = Completed | Processing | Failed | Scheduled

  /** A payroll run; the money columns are the display strings the table shows. */
  datatype PayrollRun = PayrollRun(
    runId: string,
    payPeriod: string,
    processDate: string,
    status: RunStatus,
    employeeCount: nat,
    totalCost: string,
    grossPay: string,
    deductions: string,
    netPay: string,
    overtimeHours: nat)

  /** The search rule for an already lower-cased term. */
  predicate RunMatches(run: PayrollRun, term: string)
  {
    Contains(ToLower(run.runId), term) || Contains(ToLower(run.payPeriod), term)
  }

  /** `filteredRuns`: every run, as stored, for an empty term; otherwise the runs whose
      id or pay period contains the term, ignoring case, in stored order. */
  function FilteredRuns(runs: seq<PayrollRun>, searchTerm: string): (r: seq<PayrollRun>)
    ensures ToLower(searchTerm) == "" ==> r == runs
    ensures IsSubseq(r, runs)
    ensures forall run :: run in r <==> run in runs && RunMatches(run, ToLower(searchTerm))
  {
    var term := ToLower(searchTerm);
    if term == "" then
      EmptyTermMatchesAll(runs);
      FilterIsSubseq(runs, (run: PayrollRun) => RunMatches(run, ""));
      FilterKeepsAll(runs, (run: PayrollRun) => RunMatches(run, ""));
      runs
    else
      var keep := (run: PayrollRun) => RunMatches(run, term);
      FilterIsSubseq(runs, keep);
      Filter(runs, keep)
  }

  lemma EmptyTermMatchesAll(runs: seq<PayrollRun>)
    ensures forall run :: run in runs ==> RunMatches(run, "")
  {
    forall run | run in runs ensures RunMatches(run, "") {
      ContainsEmpty(ToLower(run.runId));
    }
  }

  /** The empty-term shortcut changes nothing: the result always equals the plain filter. */
  lemma ShortcutAgreesWithFilter(runs: seq<PayrollRun>, searchTerm: string)
    ensures FilteredRuns(runs, searchTerm) == Filter(runs, (run: PayrollRun) => RunMatches(run, ToLower(searchTerm)))
  {
    if ToLower(searchTerm) == "" {
      EmptyTermMatchesAll(runs);
      FilterKeepsAll(runs, (run: PayrollRun) => RunMatches(run, ToLower(searchTerm)));
    }
  }

  /** The search ignores case: terms that lower-case alike select alike, and so does a
      term and its lower-cased form. */
  lemma SearchIgnoresCase(runs: seq<PayrollRun>, t1: string, t2: string)
    requires ToLower(t1) == ToLower(t2)
    ensures FilteredRuns(runs, t1) == FilteredRuns(runs, t2)
    ensures FilteredRuns(runs, ToLower(t1)) == FilteredRuns(runs, t1)
  {
    ToLowerIdempotent(t1);
  }

  function MockRuns(): seq<PayrollRun>
  {
    [ PayrollRun("PR-2024-001", "12/01/24 - 12/15/24", "Dec 15, 2024", Completed, 156,
                 "$245,890.00", "$260,100.00", "$14,210.00", "$245,890.00", 512),
      PayrollRun("PR-2024-002", "11/16/24 - 11/30/24", "Nov 30, 2024", Completed, 154,
                 "$243,120.50", "$258,000.00", "$14,879.50", "$243,120.50", 480),
      PayrollRun("PR-2024-003", "11/01/24 - 11/15/24", "Nov 15, 2024", Processing, 152,
                 "$241,500.00", "$255,000.00", "$13,500.00", "$241,500.00", 450),
      PayrollRun("PR-2024-004", "10/16/24 - 10/31/24", "Oct 31, 2024", Failed, 150,
                 "$238,750.75", "$252,000.00", "$13,249.25", "$238,750.75", 420),
      PayrollRun("PR-2024-005", "10/01/24 - 10/15/24", "Oct 15, 2024", Completed, 148,
                 "$235,200.00", "$248,000.00", "$12,800.00", "$235,200.00", 390),
      PayrollRun("PR-2024-006", "12/16/24 - 12/31/24", "Dec 31, 2024", Scheduled, 158,
                 "$248,500.00", "$262,000.00", "$13,500.00", "$248,500.00", 0) ]
  }

  /** The screen's state: the search term, the expanded row and the stored runs. */
  class PayrollDashboardScreen {
    var searchTerm: string
    var expandedRunId: Option<string>
    var recentRuns: seq<PayrollRun>

    constructor ()
      ensures searchTerm == "" && expandedRunId == None && recentRuns == MockRuns()
    {
      searchTerm := "";
      expandedRunId := None;
      recentRuns := MockRuns();
    }

    function Filtered(): seq<PayrollRun>
      reads this
    {
      FilteredRuns(recentRuns, searchTerm)
    }

    method OnSearch(value: string)
      modifies this
      ensures searchTerm == value
      ensures expandedRunId == old(expandedRunId) && recentRuns == old(recentRuns)
    {
      searchTerm := value;
    }

    /** Collapses the row if it is the expanded one, otherwise expands it (collapsing
        any other). */
    method ToggleRow(runId: string)
      modifies this
      ensures expandedRunId == Toggle(old(expandedRunId), runId)
      ensures expandedRunId == None <==> old(expandedRunId) == Some(runId)
      ensures searchTerm == old(searchTerm) && recentRuns == old(recentRuns)
    {
      expandedRunId := if expandedRunId == Some(runId) then None else Some(runId);
    }
  }
}
