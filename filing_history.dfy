/** The filing history screen: past tax submissions, searched by tax name or transaction
    id, seven to a page, with a numbered page bar. */
module FilingHistory {
  import opened Seqs
  import opened Text
  import opened Paging

  datatype SubmissionStatus = Accepted | Processing | RejectedOrError | Submitted

  datatype Submission = Submission(
    id: int,
    taxName: string,
    filingPeriod: string,
    submissionDate: string,
    amount: string,
    status: SubmissionStatus,
    transactionId: Option<string>,
    isPaid: Option<bool>)

  const ItemsPerPage: nat := 7

  /** The search rule for an already lower-cased term. An absent or empty transaction
      id is falsy in the source and never matches. */
  predicate SubmissionMatches(s: Submission, term: string)
  {
    || Contains(ToLower(s.taxName), term)
    || (s.transactionId.Some? && s.transactionId.value != "" && Contains(ToLower(s.transactionId.value), term))
  }

  /** `filteredSubmissions`: the submissions matching the search, in store order. */
  function FilteredSubmissions(submissions: seq<Submission>, searchTerm: string): (r: seq<Submission>)
    ensures IsSubseq(r, submissions)
    ensures forall s :: s in r <==> s in submissions && SubmissionMatches(s, ToLower(searchTerm))
  {
    var term := ToLower(searchTerm);
    var keep := (s: Submission) => SubmissionMatches(s, term);
    FilterIsSubseq(submissions, keep);
    Filter(submissions, keep)
  }

  /** An empty search keeps every submission, in order. */
  lemma EmptySearchKeepsAll(submissions: seq<Submission>)
    ensures FilteredSubmissions(submissions, "") == submissions
  {
    assert ToLower("") == "";
    forall s | s in submissions ensures SubmissionMatches(s, "") {
      ContainsEmpty(ToLower(s.taxName));
    }
    FilterKeepsAll(submissions, (s: Submission) => SubmissionMatches(s, ToLower("")));
  }

  /** Reading the pages of seven in order gives back the filtered list, each page
      holding at most seven submissions. */
  lemma PaginationPartitions(filtered: seq<Submission>)
    ensures PagesUpTo(filtered, ItemsPerPage, TotalPages(|filtered|, ItemsPerPage)) == filtered
    ensures forall page: nat :: |Page(filtered, page, ItemsPerPage)| <= ItemsPerPage
  {
    PagesCoverList(filtered, ItemsPerPage);
  }

  function MockSubmissions(): seq<Submission>
  {
    [ Submission(1, "Annual Income Tax - FY 2024-25", "10 Oct 2025", "10 Oct 2025", "1,50,000", Accepted,
                 Some("TXN-2025-A8B9C1D4"), Some(true)),
      Submission(2, "GST M-3", "01 Apr 2024 - Period - 30 Sep 2025", "01 Sep 2025", "1,50,000 - X7Y6Z5W2",
                 Accepted, Some("PROP-2025-P9S0"), Some(false)),
      Submission(3, "GST M-3", "05 Oct 2025", "25,000", "25,000", Accepted, None, Some(true)),
      Submission(4, "Property Tax - H1 2025", "01 Apr 2024-2025 - 30 Sep 2025", "31 Oct 2024", "12,000",
                 Processing, None, Some(true)),
      Submission(5, "TDS Q2 FY24-25", "TDS-29M8N706", "TDS-29M8N706", "N/A", RejectedOrError, None, None),
      Submission(6, "Annual Income Tax - FY 2023-24", "N/A", "N/A", "8,000", Accepted, None, Some(false)),
      Submission(7, "Annual Income Tax - 31 Mar 2024", "N/A", "N/A", "N/A", Submitted, None, None),
      Submission(8, "VAT Return Q1 2024", "01 Jan 2024 - 31 Mar 2024", "15 Apr 2024", "5,600", Accepted,
                 None, Some(true)),
      Submission(9, "Corporate Tax 2023", "01 Jan 2023 - 31 Dec 2023", "10 Mar 2024", "45,000", Accepted,
                 None, Some(true)) ]
  }

  /** With no search, the nine stored submissions fill two pages: 1..7 and 8..9. */
  lemma InitialPages(submissions: seq<Submission>)
    requires |submissions| == |MockSubmissions()|
    ensures TotalPages(|FilteredSubmissions(submissions, "")|, ItemsPerPage) == 2
    ensures PageNumbers(TotalPages(|FilteredSubmissions(submissions, "")|, ItemsPerPage)) == [1, 2]
  {
    EmptySearchKeepsAll(submissions);
  }

  /** The screen's state: the search term, the unused type and period filters, the
      page shown and the submission store. */
  class FilingHistoryScreen {
    var searchTerm: string
    var taxTypeFilter: string
    var periodFilter: string
    var currentPage: nat
    var submissions: seq<Submission>

    ghost predicate Valid()
      reads this
    {
      currentPage >= 1
    }

    constructor ()
      ensures Valid()
      ensures searchTerm == "" && taxTypeFilter == "All" && periodFilter == "All"
      ensures currentPage == 1 && submissions == MockSubmissions()
    {
      searchTerm := "";
      taxTypeFilter := "All";
      periodFilter := "All";
      currentPage := 1;
      submissions := MockSubmissions();
    }

    function Filtered(): seq<Submission>
      reads this
    {
      FilteredSubmissions(submissions, searchTerm)
    }

    /** `totalPages`. */
    function PageCount(): nat
      reads this
    {
      TotalPages(|Filtered()|, ItemsPerPage)
    }

    /** `paginatedSubmissions`. */
    function Paginated(): seq<Submission>
      reads this
    {
      Page(Filtered(), currentPage, ItemsPerPage)
    }

    /** `pages`: the numbers on the page bar. */
    function Pages(): seq<nat>
      reads this
    {
      PageNumbers(PageCount())
    }

    method OnSearch(value: string)
      modifies this
      ensures Valid()
      ensures searchTerm == value && currentPage == 1
      ensures taxTypeFilter == old(taxTypeFilter) && periodFilter == old(periodFilter)
      ensures submissions == old(submissions)
    {
      searchTerm := value;
      currentPage := 1;
    }

    /** Moves to `page` only when it is one of the numbers on the page bar. */
    method GoToPage(page: int)
      requires Valid()
      modifies this
      ensures Valid()
      ensures page in old(Pages()) ==> currentPage == page
      ensures page !in old(Pages()) ==> currentPage == old(currentPage)
      ensures searchTerm == old(searchTerm) && taxTypeFilter == old(taxTypeFilter)
      ensures periodFilter == old(periodFilter) && submissions == old(submissions)
    {
      PageNumbersExact(PageCount());
      if page >= 1 && page <= PageCount() {
        currentPage := page;
      }
    }
  }
}
