/** The application shell: the login gate, the view shown in the main area, and the
    page title derived from that view. */
module App {
  import opened Seqs
  import opened Text

  /** The fifteen views the main area can show. */
  datatype View =
    | Executive | Reports
    | TaxDashboard | TaxCalendar | TaxForms | TaxHistory
    | PayrollDashboard | PayrollEmployeeMgmt | PayrollRun | PayrollHistory
    | ExpenseDashboard | ExpenseSubmit | ExpenseMy | ExpenseApproval | ExpenseCards

  /** The name by which a view is requested and switched on. */
  function ViewName(v: View): string
  {
    match v
    case Executive => "executive"
    case Reports => "reports"
    case TaxDashboard => "tax-dashboard"
    case TaxCalendar => "tax-calendar"
    case TaxForms => "tax-forms"
    case TaxHistory => "tax-history"
    case PayrollDashboard => "payroll-dashboard"
    case PayrollEmployeeMgmt => "payroll-employee-mgmt"
    case PayrollRun => "payroll-run"
    case PayrollHistory => "payroll-history"
    case ExpenseDashboard => "expense-dashboard"
    case ExpenseSubmit => "expense-submit"
    case ExpenseMy => "expense-my"
    case ExpenseApproval => "expense-approval"
    case ExpenseCards => "expense-cards"
  }

  /** The `validViews` list `handleViewChange` checks requests against. */
  function ValidViews(): seq<string>
  {
    [ "executive", "reports",
      "tax-dashboard", "tax-calendar", "tax-forms", "tax-history",
      "payroll-dashboard", "payroll-employee-mgmt", "payroll-run", "payroll-history",
      "expense-dashboard", "expense-submit", "expense-my", "expense-approval", "expense-cards" ]
  }

  function AllViews(): seq<View>
  {
    [ Executive, Reports, TaxDashboard, TaxCalendar, TaxForms, TaxHistory,
      PayrollDashboard, PayrollEmployeeMgmt, PayrollRun, PayrollHistory,
      ExpenseDashboard, ExpenseSubmit, ExpenseMy, ExpenseApproval, ExpenseCards ]
  }

  /** `validViews` lists the names of the members of the view type, in declaration
      order. */
  lemma ValidViewsNameTheViews()
    ensures |ValidViews()| == |AllViews()| == 15
    ensures forall i :: 0 <= i < 15 ==> ValidViews()[i] == ViewName(AllViews()[i])
  {
  }

  /** Every view is a member of the view type's list. */
  lemma EveryViewListed(v: View)
    ensures v in AllViews()
  {
    match v
    case Executive => assert AllViews()[0] == v;
    case Reports => assert AllViews()[1] == v;
    case TaxDashboard => assert AllViews()[2] == v;
    case TaxCalendar => assert AllViews()[3] == v;
    case TaxForms => assert AllViews()[4] == v;
    case TaxHistory => assert AllViews()[5] == v;
    case PayrollDashboard => assert AllViews()[6] == v;
    case PayrollEmployeeMgmt => assert AllViews()[7] == v;
    case PayrollRun => assert AllViews()[8] == v;
    case PayrollHistory => assert AllViews()[9] == v;
    case ExpenseDashboard => assert AllViews()[10] == v;
    case ExpenseSubmit => assert AllViews()[11] == v;
    case ExpenseMy => assert AllViews()[12] == v;
    case ExpenseApproval => assert AllViews()[13] == v;
    case ExpenseCards => assert AllViews()[14] == v;
  }

  /** No two views share a name, so `validViews` holds each name once. */
  lemma ViewNameInjective(v: View, w: View)
    requires ViewName(v) == ViewName(w)
    ensures v == w
  {
  }

  /** A name is on `validViews` exactly when it is the name of a view. */
  lemma ValidViewsAreTheViewType(name: string)
    ensures name in ValidViews() <==> exists v: View :: ViewName(v) == name
    ensures name in ValidViews() <==> exists v: View :: v in AllViews() && ViewName(v) == name
  {
    ValidViewsNameTheViews();
    if name in ValidViews() {
      var i :| 0 <= i < 15 && ValidViews()[i] == name;
      assert ViewName(AllViews()[i]) == name;
    }
    if v: View :| ViewName(v) == name {
      EveryViewListed(v);
      assert v in AllViews() && ViewName(v) == name;
      var i :| 0 <= i < 15 && AllViews()[i] == v;
      assert ValidViews()[i] == name;
    }
  }

  /** The view a name requests, found by scanning `views`. */
  function FindView(views: seq<View>, name: string): (r: Option<View>)
    ensures r.Some? ==> r.value in views && ViewName(r.value) == name
    ensures r.None? ==> forall v :: v in views ==> ViewName(v) != name
  {
    if views == [] then None
    else if ViewName(views[0]) == name then Some(views[0])
    else FindView(views[1..], name)
  }

  /** The `view as any` cast once the list check has passed: a view for exactly the
      names on the list. */
  function ParseView(name: string): (r: Option<View>)
    ensures r.Some? <==> name in ValidViews()
    ensures r.Some? ==> ViewName(r.value) == name
  {
    ValidViewsAreTheViewType(name);
    FindView(AllViews(), name)
  }

  /** A view's own name parses back to it. */
  lemma ParseViewName(v: View)
    ensures ParseView(ViewName(v)) == Some(v)
  {
    ViewNameInjective(ParseView(ViewName(v)).value, v);
  }

  /** The `activeTitle` switch over the view's name, with its 'Dashboard' default. */
  function TitleOf(name: string): string
  {
    if name == "executive" then "Executive Dashboard"
    else if name == "reports" then "Reports"
    else if name in ["tax-dashboard", "tax-calendar", "tax-forms", "tax-history"] then "Tax Compliance & Filing"
    else if name in ["payroll-dashboard", "payroll-employee-mgmt", "payroll-run", "payroll-history"] then "Payroll (Global)"
    else if name in ["expense-dashboard", "expense-submit", "expense-my", "expense-approval", "expense-cards"] then
      "Expense Management"
    else "Dashboard"
  }

  /** The title shown for a view. Since only listed views are ever set, the
      'Dashboard' default is never shown. */
  function ActiveTitle(v: View): (r: string)
    ensures r != "Dashboard"
  {
    TitleOf(ViewName(v))
  }

  /** The executive and reports views have titles of their own. */
  lemma SingleViewTitles()
    ensures ActiveTitle(Executive) == "Executive Dashboard"
    ensures ActiveTitle(Reports) == "Reports"
  {
  }

  /** Every view named `tax-…` shares the tax area's title. */
  lemma TaxAreaTitle(v: View)
    ensures StartsWith(ViewName(v), "tax-") ==> ActiveTitle(v) == "Tax Compliance & Filing"
  {
    var name := ViewName(v);
    assert StartsWith(name, "tax-") ==> name[0] == 't';
  }

  /** Every view named `payroll-…` shares the payroll area's title. */
  lemma PayrollAreaTitle(v: View)
    ensures StartsWith(ViewName(v), "payroll-") ==> ActiveTitle(v) == "Payroll (Global)"
  {
    var name := ViewName(v);
    assert StartsWith(name, "payroll-") ==> name[0] == 'p' && name[1] == 'a';
  }

  /** Every view named `expense-…` shares the expense area's title. */
  lemma ExpenseAreaTitle(v: View)
    ensures StartsWith(ViewName(v), "expense-") ==> ActiveTitle(v) == "Expense Management"
  {
    var name := ViewName(v);
    assert StartsWith(name, "expense-") ==> name[0] == 'e' && name[1] == 'x' && name[2] == 'p';
  }

  /** The shell's state: whether the user has logged in, and the view shown. */
  class AppShell {
    var isLoggedIn: bool
    var activeView: View

    constructor ()
      ensures !isLoggedIn && activeView == Executive
    {
      isLoggedIn := false;
      activeView := Executive;
    }

    method HandleLogin()
      modifies this
      ensures isLoggedIn && activeView == old(activeView)
    {
      isLoggedIn := true;
    }

    /** Switches to the requested view when its name is on the list, and otherwise
        keeps the current one. */
    method HandleViewChange(view: string)
      modifies this
      ensures view in ValidViews() ==> ViewName(activeView) == view
      ensures view !in ValidViews() ==> activeView == old(activeView)
      ensures isLoggedIn == old(isLoggedIn)
    {
      if view in ValidViews() {
        activeView := ParseView(view).value;
      }
    }
  }
}
