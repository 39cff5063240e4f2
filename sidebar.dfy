/** The navigation sidebar: which entry is highlighted, which section is unfolded, and
    the view names it sends to the shell. */
module Sidebar {
  import opened Seqs
  import App

  datatype SubItem = SubItem(id: string, name: string, view: string)

  datatype NavItem = NavItem(id: string, title: string, subItems: seq<SubItem>)

  datatype NavSection = NavSection(title: string, items: seq<NavItem>)

  /** The navigation tree; an item without sub-items has an empty list. */
  function NavSections(): seq<NavSection>
  {
    [ NavSection("FINANCE & ACCOUNTING",
        [ NavItem("the-ledger", "The Ledger", []),
          NavItem("payables", "Payables", []),
          NavItem("receivables", "Receivables", []) ]),
      NavSection("COMPLIANCE & HR FINANCE",
        [ NavItem("tax-compliance", "Tax Compliance & Filing",
            [ SubItem("tax-calendar", "Tax Calendar", "tax-calendar"),
              SubItem("tax-forms", "Tax Forms Library", "tax-forms"),
              SubItem("tax-history", "Filing History", "tax-history") ]),
          NavItem("payroll", "Payroll (Global)",
            [ SubItem("employee-mgmt", "Employee Management", "payroll-employee-mgmt"),
              SubItem("run-payroll", "Run Payroll", "payroll-run"),
              SubItem("payslip-history", "Payslip History", "payroll-history") ]),
          NavItem("expense-management", "Expense Management",
            [ SubItem("submit-expense", "Submit Expense", "expense-submit"),
              SubItem("my-expenses", "My Expenses", "expense-my"),
              SubItem("approval-queue", "Approval Queue", "expense-approval"),
              SubItem("corp-cards", "Corporate Cards", "expense-cards") ]) ]) ]
  }

  /** The dashboard view a section header opens, for the three sections that have one. */
  function SectionDashboard(sectionId: string): Option<string>
  {
    if sectionId == "tax-compliance" then Some("tax-dashboard")
    else if sectionId == "payroll" then Some("payroll-dashboard")
    else if sectionId == "expense-management" then Some("expense-dashboard")
    else None
  }

  /** Every sub-item of the navigation tree names a view the shell accepts. */
  lemma SubItemViewsAreValid(s: nat, i: nat, k: nat)
    requires s < |NavSections()| && i < |NavSections()[s].items| && k < |NavSections()[s].items[i].subItems|
    ensures NavSections()[s].items[i].subItems[k].view in App.ValidViews()
  {
    App.ValidViewsNameTheViews();
    var v := App.ValidViews();
    var subs := NavSections()[s].items[i].subItems;
    assert s == 1;
    if i == 0 {
      assert subs == [SubItem("tax-calendar", "Tax Calendar", v[3]), SubItem("tax-forms", "Tax Forms Library", v[4]),
                      SubItem("tax-history", "Filing History", v[5])];
    } else if i == 1 {
      assert subs == [SubItem("employee-mgmt", "Employee Management", v[7]), SubItem("run-payroll", "Run Payroll", v[8]),
                      SubItem("payslip-history", "Payslip History", v[9])];
    } else {
      assert subs == [SubItem("submit-expense", "Submit Expense", v[11]), SubItem("my-expenses", "My Expenses", v[12]),
                      SubItem("approval-queue", "Approval Queue", v[13]), SubItem("corp-cards", "Corporate Cards", v[14])];
    }
  }

  /** The section dashboards and the logo's executive view are views the shell accepts. */
  lemma FixedViewsAreValid(sectionId: string)
    ensures SectionDashboard(sectionId).Some? ==> SectionDashboard(sectionId).value in App.ValidViews()
    ensures "executive" in App.ValidViews()
  {
    App.ValidViewsNameTheViews();
    var v := App.ValidViews();
    assert "tax-dashboard" == v[2] && "payroll-dashboard" == v[6] && "expense-dashboard" == v[10];
    assert "executive" == v[0];
  }

  /** The section left open when a header is clicked: closed when it was the open one,
      otherwise that section. */
  function FlipSection(current: string, sectionId: string): (r: string)
    ensures current == sectionId ==> r == ""
    ensures current != sectionId ==> r == sectionId
  {
    if current == sectionId then "" else sectionId
  }

  /** Clicking the same header twice restores the open section exactly when nothing, or
      that section, was open. */
  lemma FlipSectionTwice(current: string, sectionId: string)
    requires sectionId != ""
    ensures FlipSection(FlipSection(current, sectionId), sectionId) == current <==> current == "" || current == sectionId
  {
  }

  /** The sidebar's state; `emitted` records the view names sent to the shell, oldest
      first. */
  class SidebarState {
    var activeViewId: string
    var openSectionId: string
    var emitted: seq<string>

    constructor ()
      ensures activeViewId == "dashboard" && openSectionId == "tax-compliance" && emitted == []
    {
      activeViewId := "dashboard";
      openSectionId := "tax-compliance";
      emitted := [];
    }

    method HandleTopLevelClick(viewId: string, viewTarget: string)
      modifies this
      ensures activeViewId == viewId && openSectionId == ""
      ensures emitted == old(emitted) + [viewTarget]
    {
      activeViewId := viewId;
      openSectionId := "";
      emitted := emitted + [viewTarget];
    }

    method HandleSubItemClick(subItemId: string, view: string, parentId: string)
      modifies this
      ensures activeViewId == subItemId && openSectionId == parentId
      ensures emitted == old(emitted) + [view]
    {
      activeViewId := subItemId;
      openSectionId := parentId;
      emitted := emitted + [view];
    }

    /** A plain section folds or unfolds. The three sections with a dashboard end up
        open on it, even when they were open before the click, so that header never
        folds its section. */
    method ToggleSection(sectionId: string)
      modifies this
      ensures SectionDashboard(sectionId).None? ==>
                openSectionId == FlipSection(old(openSectionId), sectionId)
                && activeViewId == old(activeViewId) && emitted == old(emitted)
      ensures SectionDashboard(sectionId).Some? ==>
                openSectionId == sectionId && activeViewId == SectionDashboard(sectionId).value
                && emitted == old(emitted) + [SectionDashboard(sectionId).value]
    {
      openSectionId := if openSectionId == sectionId then "" else sectionId;
      if sectionId == "tax-compliance" {
        HandleSubItemClick("tax-dashboard", "tax-dashboard", "tax-compliance");
      }
      if sectionId == "payroll" {
        HandleSubItemClick("payroll-dashboard", "payroll-dashboard", "payroll");
      }
      if sectionId == "expense-management" {
        HandleSubItemClick("expense-dashboard", "expense-dashboard", "expense-management");
      }
    }

    method HandleLogoClick()
      modifies this
      ensures activeViewId == "dashboard" && openSectionId == ""
      ensures emitted == old(emitted) + ["executive"]
    {
      HandleTopLevelClick("dashboard", "executive");
    }
  }
}
