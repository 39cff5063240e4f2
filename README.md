# Finance dashboard core, modelled in Dafny

The dashboard is a single-page finance application. It has tax compliance, payroll
and expense screens, and every screen works on in-memory mock data. This project
models the behaviour behind those screens:

- the list screens' derived views: search, categorical filters where `'All'` means
  no filter, stable sorting and pagination;
- the record stores' add, edit and delete operations;
- the key-performance figures: status counts, the open liability, the compliance
  and budget rates with their divide-by-zero guards;
- the salary arithmetic and the salary templates;
- the parser for the AI-generated expense insights;
- the 42-cell month calendar;
- the navigation and workflow state machines.

Module layout, one module per component plus shared ones:

- `App`: the shell's login flag, the view guard and the title of each view.
- `Sidebar`: the highlighted entry, the unfolded section and the view names the
  sidebar sends to the shell.
- `PayrollDashboard`: the payroll-run search and the row that is expanded.
- `RunPayroll`: the run-payroll flags. Each timer callback is a completion method of
  its own.
- `ExpenseDashboard`: budget utilisation.
- `ExpenseInsights`: the insight-line parser and the loading, insights and error
  state of the insight panel.
- `EmployeeManagement`: the employee directory. It covers search, add with a fresh
  id and an `EMP-###` code, edit, salary replacement, soft delete and the modals.
- `AssignSalaryModal`: the salary form, its totals, the templates and the emitted
  record.
- `FilingHistory` and `PayslipHistory`: filtered, paginated histories with their two
  page-navigation rules. Filing history ignores an out-of-range page; payslip
  history clamps it.
- `TaxCalendar`: counts, the one-decimal compliance rate, status filters, the grid,
  recent filings, the month's open deadlines, adding an event and marking one filed.
- `TaxDashboard`: counts, the open liability, the whole-percent compliance score,
  the grid, urgent deadlines and recent activity.
- `TaxFormsLibrary`: the form filters and the newest-first stable sort, the
  jurisdiction and year options, and add, edit and hard delete.
- Shared modules:
  - `Seqs`: `Option`, order-keeping `Filter`, a stable insertion sort, `Take`, sums,
    and the toggle of an optional id.
  - `Text`: ASCII lower-casing, substring search, `trim`, `split`/`join` on a
    character, decimal strings and zero padding.
  - `Ratios`: division rounded half up, and a share of a whole with its guard.
  - `Paging`: the page count, one page, and the page-number list.
  - `Calendar`: local civil dates, weekdays, month navigation and the month-grid
    specification.
  - `PayrollRecords`: the employee and salary records.

Component fields that the screens change become `class` fields, updated by methods
whose `modifies` clauses name the object. Computed values become functions of the
fields they are computed from. The calendar grid's `for`/`while` loops that push cells become methods with
loops, proved against the grid specification `Calendar.IsMonthGrid`. The insight
parser's loop becomes the method `ExpenseInsights.ParseInsights`, proved equal to
the function `ExpenseInsights.ParsedInsights`.

Dates are local civil dates `(year, month 0..11, day)` plus milliseconds since local
midnight. Their time stamp is days since 1 January 1970 times 86 400 000, plus those
milliseconds. Money is whole currency units, because every amount in the mock data
is integral. The clock, `Date.now()` ids, the `confirm()` answer, form validity and
the reply of the external AI service are parameters of the operations that use them.

## Model

| member | source | states |
|---|---|---|
| App.ValidViewsNameTheViews | src/app.component.ts:81-86 | The list of accepted views has 15 entries, and entry i is the name of the i-th member of the view type. |
| App.EveryViewListed | src/app.component.ts:50 | Every member of the view union type appears in the model's list of views. |
| App.ViewNameInjective | src/app.component.ts:81-86 | No two views share a name, so each accepted name stands for exactly one view. |
| App.ValidViewsAreTheViewType | src/app.component.ts:81-86 | A name is on the accepted list if and only if it is the name of some view. |
| App.FindView | src/app.component.ts:81-86 | The scan returns a view of the list carrying the requested name, or reports that no listed view has it. |
| App.ParseView | src/app.component.ts:81-86 | A name yields a view exactly when it is on the accepted list, and that view carries the name. |
| App.ParseViewName | src/app.component.ts:81-86 | Every view's own name is accepted and yields that same view. |
| App.ActiveTitle | src/app.component.ts:52-74 | The title shown for any view that can be active is never the 'Dashboard' fallback. |
| App.SingleViewTitles | src/app.component.ts:52-74 | The executive view is titled 'Executive Dashboard' and the reports view 'Reports'. |
| App.TaxAreaTitle | src/app.component.ts:52-74 | Every view whose name starts with `tax-` is titled 'Tax Compliance & Filing'. |
| App.PayrollAreaTitle | src/app.component.ts:52-74 | Every view whose name starts with `payroll-` is titled 'Payroll (Global)'. |
| App.ExpenseAreaTitle | src/app.component.ts:52-74 | Every view whose name starts with `expense-` is titled 'Expense Management'. |
| App.AppShell.constructor | src/app.component.ts:49-50 | The shell starts logged out, showing the executive view. |
| App.AppShell.HandleLogin | src/app.component.ts:76-78 | Logging in sets the flag and keeps the view. |
| App.AppShell.HandleViewChange | src/app.component.ts:80-90 | A listed name switches to the view it names. Any other name leaves the view unchanged. The login flag is kept. |
| Sidebar.SubItemViewsAreValid | src/components/sidebar/sidebar.component.ts:25-76 | Every sub-item of the navigation tree names a view the shell accepts. |
| Sidebar.FixedViewsAreValid | src/components/sidebar/sidebar.component.ts:84-109 | The three section dashboards and the logo's 'executive' view are all views the shell accepts. |
| Sidebar.FlipSection | src/components/sidebar/sidebar.component.ts:84-86 | Clicking the open section closes it; clicking any other section opens that one. |
| Sidebar.FlipSectionTwice | src/components/sidebar/sidebar.component.ts:84-86 | Two clicks on the same header restore the open section if and only if nothing, or that section, was open. |
| Sidebar.SidebarState.constructor | src/components/sidebar/sidebar.component.ts:22-23 | The sidebar starts with 'dashboard' highlighted and 'tax-compliance' open, and nothing emitted. |
| Sidebar.SidebarState.HandleTopLevelClick | src/components/sidebar/sidebar.component.ts:78-82 | Highlights the entry, closes every section and emits the target view. |
| Sidebar.SidebarState.ToggleSection | src/components/sidebar/sidebar.component.ts:84-99 | A plain section flips open or closed and nothing is emitted. A section with a dashboard always ends open with its dashboard highlighted and emitted, even if it was open before. |
| Sidebar.SidebarState.HandleSubItemClick | src/components/sidebar/sidebar.component.ts:101-105 | Highlights the sub-item, opens its parent section and emits its view. |
| Sidebar.SidebarState.HandleLogoClick | src/components/sidebar/sidebar.component.ts:107-109 | Highlights 'dashboard', closes every section and emits 'executive'. |
| PayrollDashboard.FilteredRuns | src/components/payroll-dashboard/payroll-dashboard.component.ts:107-116 | An empty term gives every run in stored order. Otherwise the result is an order-keeping subsequence of the runs, holding exactly the runs whose id or pay period contains the term, ignoring case. |
| PayrollDashboard.EmptyTermMatchesAll | src/components/payroll-dashboard/payroll-dashboard.component.ts:108-111 | The empty term matches every run. |
| PayrollDashboard.ShortcutAgreesWithFilter | src/components/payroll-dashboard/payroll-dashboard.component.ts:107-116 | The empty-term shortcut returns what the plain filter would return. |
| PayrollDashboard.SearchIgnoresCase | src/components/payroll-dashboard/payroll-dashboard.component.ts:107-116 | Terms that lower-case alike select the same runs. |
| PayrollDashboard.PayrollDashboardScreen.constructor | src/components/payroll-dashboard/payroll-dashboard.component.ts:48-49 | The screen starts with an empty term, no expanded row and the six stored runs. |
| PayrollDashboard.PayrollDashboardScreen.OnSearch | src/components/payroll-dashboard/payroll-dashboard.component.ts:118-120 | Sets the term and keeps the runs and the expanded row. |
| PayrollDashboard.PayrollDashboardScreen.ToggleRow | src/components/payroll-dashboard/payroll-dashboard.component.ts:122-124 | The row collapses exactly when it was the expanded one; otherwise it becomes the only expanded row. |
| Seqs.Toggle | src/components/payroll-dashboard/payroll-dashboard.component.ts:122-124 | Toggling yields nothing exactly when the id was the current one, and otherwise yields that id. |
| Seqs.ToggleTwice | src/components/employee-management/employee-management.component.ts:78-80 | Toggling the same id twice restores the previous value if and only if that value was nothing or the same id. A different id ends as nothing. |
| RunPayroll.ReportedFiguresAddUp | src/components/run-payroll/run-payroll.component.ts:22-34 | In the zeroed and in the calculated summary, net pay is gross plus allowances less both deductions, and the total cost is gross plus allowances less statutory deductions. |
| RunPayroll.RunPayrollScreen.constructor | src/components/run-payroll/run-payroll.component.ts:16-42 | All four flags start false with no notice and zeroed figures. The form is blank with currency 'USD' and structure 'All'. |
| RunPayroll.RunPayrollScreen.EditForm | src/components/run-payroll/run-payroll.component.ts:37-42 | The user's edit replaces the form and nothing else. |
| RunPayroll.RunPayrollScreen.CalculatePayroll | src/components/run-payroll/run-payroll.component.ts:45-52 | An invalid form only gets its errors shown. A valid one starts the calculation: it is running and not yet done. The figures are untouched either way. |
| RunPayroll.RunPayrollScreen.CompleteCalculation | src/components/run-payroll/run-payroll.component.ts:55-72 | The timer fills in the calculated figures, which add up, then stops the calculation and marks it done. |
| RunPayroll.RunPayrollScreen.SaveAsDraft | src/components/run-payroll/run-payroll.component.ts:75-77 | Shows the draft notice and changes nothing else. |
| RunPayroll.RunPayrollScreen.ApprovePayroll | src/components/run-payroll/run-payroll.component.ts:79-80 | Approval starts; the other flags are kept. |
| RunPayroll.RunPayrollScreen.CompleteApproval | src/components/run-payroll/run-payroll.component.ts:81-84 | The approval timer ends the approval and marks the run approved. |
| RunPayroll.RunPayrollScreen.SendForApproval | src/components/run-payroll/run-payroll.component.ts:87-89 | Shows the sent-for-approval notice and changes nothing else. |
| RunPayroll.RunPayrollScreen.DownloadPayslips | src/components/run-payroll/run-payroll.component.ts:91-93 | Shows the download notice and changes nothing else. |
| RunPayroll.RunPayrollScreen.ShowToast | src/components/run-payroll/run-payroll.component.ts:95-96 | Shows the given notice; the flags and figures are kept. |
| RunPayroll.RunPayrollScreen.ClearToast | src/components/run-payroll/run-payroll.component.ts:97-99 | The notice timer clears the notice. |
| RunPayroll.RunPayrollScreen.ResetPayrollRun | src/components/run-payroll/run-payroll.component.ts:102-113 | All four flags end false and the form is blank and untouched again. The last figures and any notice stay. |
| ExpenseDashboard.BudgetUtilization | src/components/expense-dashboard/expense-dashboard.component.ts:44-48 | A zero budget gives 0. Otherwise the result is the nearest whole percent of spend over budget, a half rounding up. |
| ExpenseDashboard.UtilizationIsRoundedPercent | src/components/expense-dashboard/expense-dashboard.component.ts:44-48 | For a positive budget the rounded percentage is unique: any value within half a percent, a half going up, is the utilisation. |
| ExpenseDashboard.UtilizationEnds | src/components/expense-dashboard/expense-dashboard.component.ts:47 | Nothing spent gives 0 and spending the whole budget gives 100. |
| ExpenseDashboard.UtilizationMonotone | src/components/expense-dashboard/expense-dashboard.component.ts:47 | For a fixed positive budget, spending more never lowers the utilisation. |
| ExpenseDashboard.InitialUtilization | src/components/expense-dashboard/expense-dashboard.component.ts:31-48 | The stored 145 000 spent of a 200 000 budget shows 73 per cent. |
| ExpenseInsights.Classify | src/components/expense-insights/expense-insights.component.ts:70-76 | A line gets a category only if it contains that category's label. |
| ExpenseInsights.ClassifyPriority | src/components/expense-insights/expense-insights.component.ts:70-76 | A line is an Observation if and only if it holds 'Observation:'. It is a Suggestion iff it holds 'Suggestion:' and not 'Observation:'. It is an Alert iff it holds only 'Alert:' of the three labels. It is unlabelled iff it holds none. |
| ExpenseInsights.InsightOf | src/components/expense-insights/expense-insights.component.ts:70-76 | A line yields an insight exactly when it is labelled, and the insight carries the line's category. |
| ExpenseInsights.InsightTextShape | src/components/expense-insights/expense-insights.component.ts:71-75 | An insight's text is no longer than the line less its label, and has no whitespace at either end. |
| ExpenseInsights.Labelled | src/components/expense-insights/expense-insights.component.ts:67-77 | The labelled lines yield at most one insight each. |
| ExpenseInsights.LabelledEmptyIff | src/components/expense-insights/expense-insights.component.ts:67-79 | No insight is collected if and only if no line is labelled. |
| ExpenseInsights.LabelledFromLines | src/components/expense-insights/expense-insights.component.ts:67-77 | Every collected insight is the insight of some input line. |
| ExpenseInsights.LabelledAppend | src/components/expense-insights/expense-insights.component.ts:67-77 | Collecting is done line by line in input order: the insights of two blocks of lines are those of the first block followed by those of the second. |
| ExpenseInsights.LabelledStep | src/components/expense-insights/expense-insights.component.ts:68-77 | One more line adds its own insight, if it has one, at the end. |
| ExpenseInsights.LabelledSingle | src/components/expense-insights/expense-insights.component.ts:68-77 | A single line yields its insight if labelled, and nothing otherwise. |
| ExpenseInsights.BlankLineUnlabelled | src/components/expense-insights/expense-insights.component.ts:67 | A line that is blank after trimming carries no label. |
| ExpenseInsights.NonBlankLines | src/components/expense-insights/expense-insights.component.ts:67 | The kept lines are exactly the reply's newline-separated lines that are not blank after trimming. |
| ExpenseInsights.DropBlankKeepsInsights | src/components/expense-insights/expense-insights.component.ts:67 | Dropping blank lines loses no insight. |
| ExpenseInsights.ParsedInsights | src/components/expense-insights/expense-insights.component.ts:65-87 | The parser always returns between one and three insights. |
| ExpenseInsights.ParsedInsightsMeaning | src/components/expense-insights/expense-insights.component.ts:65-87 | With no labelled line the result is the fixed Observation, Suggestion, Alert fallback. Otherwise it is the first three insights of the labelled lines, in reply order. |
| ExpenseInsights.ParseInsights | src/components/expense-insights/expense-insights.component.ts:65-87 | The loop pushing insights line by line computes exactly the parsed insights. |
| ExpenseInsights.InsightsPanel.constructor | src/components/expense-insights/expense-insights.component.ts:15-17 | The panel starts idle, with no insights and no error. |
| ExpenseInsights.InsightsPanel.StartGenerate | src/components/expense-insights/expense-insights.component.ts:38-41 | Generation starts loading, with the insights emptied and the error cleared. |
| ExpenseInsights.InsightsPanel.FinishGenerate | src/components/expense-insights/expense-insights.component.ts:52-62 | Loading ends in both outcomes. A reply gives its parsed insights and no error; a failure gives the failure message and no insights. |
| EmployeeManagement.FilteredEmployees | src/components/employee-management/employee-management.component.ts:62-71 | An empty term gives every employee. Otherwise the result is an order-keeping subsequence holding exactly the employees whose name, email or employee code contains the term, ignoring case. |
| EmployeeManagement.EmptyTermMatchesAll | src/components/employee-management/employee-management.component.ts:62-71 | The empty term matches every employee. |
| EmployeeManagement.ShortcutAgreesWithFilter | src/components/employee-management/employee-management.component.ts:62-71 | The empty-term shortcut returns what the plain filter would return. |
| EmployeeManagement.MaxId | src/components/employee-management/employee-management.component.ts:118 | The largest id of a non-empty list is the id of one of its employees and bounds every other id. |
| EmployeeManagement.IdsOneToNMax | src/components/employee-management/employee-management.component.ts:118 | For ids 1..n in order, the largest id is n. |
| EmployeeManagement.EmployeeCodeInjective | src/components/employee-management/employee-management.component.ts:121 | Different ids get different `EMP-` codes. |
| EmployeeManagement.EmployeeCodeExamples | src/components/employee-management/employee-management.component.ts:121 | Id 9 gets 'EMP-009', id 12 gets 'EMP-012', and id 1234 keeps all four digits as 'EMP-1234'. |
| EmployeeManagement.ApplyForm | src/components/employee-management/employee-management.component.ts:139 | The edited record carries the six form fields, and its id, code, start date, photo and salary details are kept. |
| EmployeeManagement.NewEmployee | src/components/employee-management/employee-management.component.ts:119-133 | A new employee carries the given id, its padded code, the form fields and the current time as start date. It gets an all-zero 'Custom' salary. |
| EmployeeManagement.AddEmployee | src/components/employee-management/employee-management.component.ts:117-134 | Adding appends exactly one employee and keeps the others in place. The new id is one more than the largest, so it exceeds every existing id, and ids stay unique. |
| EmployeeManagement.EditEmployees | src/components/employee-management/employee-management.component.ts:135-141 | The length and every id and code are kept. Only the employee with the edited id takes the form; the rest are unchanged. Unique ids stay unique. |
| EmployeeManagement.EditWithoutMatchIsIdentity | src/components/employee-management/employee-management.component.ts:135-141 | When no employee has the edited id, the list is unchanged. |
| EmployeeManagement.ReplaceById | src/components/employee-management/employee-management.component.ts:157-160 | Only the employee with the updated record's id is replaced; the length, the other records and the ids are kept. |
| EmployeeManagement.TerminateById | src/components/employee-management/employee-management.component.ts:164-169 | Only the employee with the id is set to 'Terminated'; the length, the other records and the ids are kept. |
| EmployeeManagement.TerminateTouchesAtMostOne | src/components/employee-management/employee-management.component.ts:164-169 | With unique ids, at most one record changes. |
| EmployeeManagement.MockEmployeesWellKeyed | src/components/employee-management/employee-management.component.ts:40-49 | The eight stored employees have unique ids. |
| EmployeeManagement.MockIdsOneToEight | src/components/employee-management/employee-management.component.ts:40-49 | The stored employees are ids 1 to 8 in order. |
| EmployeeManagement.IdsOneToNWellKeyed | src/components/employee-management/employee-management.component.ts:40-49 | A non-empty list with ids 1..n in order has unique ids. |
| EmployeeManagement.EmployeeDirectory.constructor | src/components/employee-management/employee-management.component.ts:31-58 | The directory starts with the eight stored employees, no search, closed modals, no open menu and a blank form. |
| EmployeeManagement.EmployeeDirectory.OnSearch | src/components/employee-management/employee-management.component.ts:74-76 | Sets the term; every other field stays as it was. |
| EmployeeManagement.EmployeeDirectory.ToggleActionsMenu | src/components/employee-management/employee-management.component.ts:78-80 | The menu closes exactly when it was open for that id; otherwise it opens for that id. Every other field stays as it was. |
| EmployeeManagement.EmployeeDirectory.OpenAddModal | src/components/employee-management/employee-management.component.ts:83-90 | Opens the modal in add mode with a blank form. The edited id, the menu, the salary dialog, the search and the employees stay as they were. |
| EmployeeManagement.EmployeeDirectory.OpenEditModal | src/components/employee-management/employee-management.component.ts:92-105 | Opens the modal in edit mode on the employee's id with the form filled from it, and closes the actions menu. The search, the salary dialog and the employees stay as they were. |
| EmployeeManagement.EmployeeDirectory.CloseModal | src/components/employee-management/employee-management.component.ts:107-110 | Closes the modal and forgets the edited id. Every other field, the mode and form included, stays as it was. |
| EmployeeManagement.EmployeeDirectory.SaveEmployee | src/components/employee-management/employee-management.component.ts:112-144 | An invalid form changes no field. A valid add appends the new employee; a valid edit applies the form to the edited id. Either way the modal then closes and ids stay unique. |
| EmployeeManagement.EmployeeDirectory.AssignSalary | src/components/employee-management/employee-management.component.ts:146-150 | Opens the salary dialog on the employee and closes the actions menu. Every other field stays as it was. |
| EmployeeManagement.EmployeeDirectory.CloseAssignSalaryModal | src/components/employee-management/employee-management.component.ts:152-155 | Closes the salary dialog and forgets its employee. Every other field stays as it was. |
| EmployeeManagement.EmployeeDirectory.HandleSalarySave | src/components/employee-management/employee-management.component.ts:157-162 | Replaces the record with the saved one's id, then closes the dialog. The search, the employee modal, the menu and the form stay as they were. |
| EmployeeManagement.EmployeeDirectory.DeleteEmployee | src/components/employee-management/employee-management.component.ts:164-171 | A confirmed delete terminates the employee with the id; an unconfirmed one changes nothing. The actions menu closes either way; every other field stays as it was. |
| AssignSalaryModal.ValidFormTotals | src/components/assign-salary-modal/assign-salary-modal.component.ts:49-102 | On a valid form, gross pay is at least the base salary, which is not negative. Deductions are not negative and net pay never exceeds gross. |
| AssignSalaryModal.ValidFormCanNetNegative | src/components/assign-salary-modal/assign-salary-modal.component.ts:49-102 | Nothing keeps net pay from going negative: a valid form with zero pay and a deduction of 1 nets -1. |
| AssignSalaryModal.PatchPreset | src/components/assign-salary-modal/assign-salary-modal.component.ts:24-36 | A preset never changes the template choice, the payment frequency or the effective date. A template without a preset leaves the form as it was. |
| AssignSalaryModal.TechStandardTotals | src/components/assign-salary-modal/assign-salary-modal.component.ts:24-29 | After the 'Tech Standard' preset, the form's gross pay is 120 000, deductions are 23 000 and net pay is 97 000. |
| AssignSalaryModal.SalesCommissionTotals | src/components/assign-salary-modal/assign-salary-modal.component.ts:30-34 | After the 'Sales Commission' preset, the form's gross pay is 100 000, deductions are 16 500 and net pay is 83 500. |
| AssignSalaryModal.FormDetailsRoundTrip | src/components/assign-salary-modal/assign-salary-modal.component.ts:77-81 | Loading salary details into the form yields a valid form exactly for valid details, and saving it gives the same details back. Saving a valid form and loading the result gives the same form. |
| AssignSalaryModal.AssignSalaryDialog.constructor | src/components/assign-salary-modal/assign-salary-modal.component.ts:45-65 | The dialog opens on the employee with the initial form and nothing saved. |
| AssignSalaryModal.AssignSalaryDialog.SelectTemplate | src/components/assign-salary-modal/assign-salary-modal.component.ts:69-74 | A template other than 'Custom' overwrites the pay figures with its preset. 'Custom' or no choice leaves them. Frequency and effective date are never touched. |
| AssignSalaryModal.AssignSalaryDialog.NgOnInit | src/components/assign-salary-modal/assign-salary-modal.component.ts:77-81 | The form is filled from the employee's current salary details. |
| AssignSalaryModal.AssignSalaryDialog.OnSave | src/components/assign-salary-modal/assign-salary-modal.component.ts:104-114 | An invalid form emits nothing. A valid one emits the employee unchanged except for the form's salary details and the template's name as salary structure. |
| FilingHistory.FilteredSubmissions | src/components/filing-history/filing-history.component.ts:42-48 | An order-keeping subsequence holding exactly the submissions whose tax name, or transaction id if any, contains the term, ignoring case. |
| FilingHistory.EmptySearchKeepsAll | src/components/filing-history/filing-history.component.ts:42-48 | The empty search keeps every submission in order. |
| FilingHistory.PaginationPartitions | src/components/filing-history/filing-history.component.ts:50-56 | Pages hold at most 7 items, and pages 1 to the page count, joined, give the filtered list back exactly. |
| FilingHistory.InitialPages | src/components/filing-history/filing-history.component.ts:29-58 | The nine stored submissions make 2 pages, numbered [1, 2]. |
| FilingHistory.FilingHistoryScreen.constructor | src/components/filing-history/filing-history.component.ts:22-39 | The screen starts on page 1 with an empty search, both filters at 'All' and the nine stored submissions. |
| FilingHistory.FilingHistoryScreen.OnSearch | src/components/filing-history/filing-history.component.ts:62-65 | Sets the term and goes back to page 1. |
| FilingHistory.FilingHistoryScreen.GoToPage | src/components/filing-history/filing-history.component.ts:67-71 | A listed page number is taken; any other number leaves the page unchanged. |
| PayslipHistory.FilteredPayslips | src/components/payslip-history/payslip-history.component.ts:61-74 | An order-keeping subsequence holding exactly the payslips of the selected employee that pass the year rule, the month rule and the term rule. The term may match the pay period ignoring case, or the net amount's decimal string. |
| PayslipHistory.SearchIgnoresCase | src/components/payslip-history/payslip-history.component.ts:61-74 | Terms that lower-case alike select the same payslips. |
| PayslipHistory.PaginationPartitions | src/components/payslip-history/payslip-history.component.ts:76-82 | Pages hold at most 6 items, and pages 1 to the page count, joined, give the filtered list back exactly. |
| PayslipHistory.InitialFiltersKeepFirstThree | src/components/payslip-history/payslip-history.component.ts:28-55 | Under the initial filters the first three stored payslips pass and all the others fail. |
| PayslipHistory.FirstThreeKept | src/components/payslip-history/payslip-history.component.ts:28-55 | The three 2025 payslips of employee 1 pass the initial filters. |
| PayslipHistory.OwnOlderDropped | src/components/payslip-history/payslip-history.component.ts:28-55 | Employee 1's older payslips fail the initial year filter. |
| PayslipHistory.InitialFilteredPayslips | src/components/payslip-history/payslip-history.component.ts:28-74 | The initial filters show payslips 1, 2 and 3, in that order. |
| PayslipHistory.PayslipHistoryScreen.constructor | src/components/payslip-history/payslip-history.component.ts:28-55 | The screen starts on page 1 for employee 1, year '2025', every month, an empty term and the stored payslips. |
| PayslipHistory.PayslipHistoryScreen.OnSearch | src/components/payslip-history/payslip-history.component.ts:85-88 | Sets the term, goes back to page 1 and keeps the other filters. |
| PayslipHistory.PayslipHistoryScreen.OnYearChange | src/components/payslip-history/payslip-history.component.ts:90-93 | Sets the year, goes back to page 1 and keeps the other filters. |
| PayslipHistory.PayslipHistoryScreen.OnMonthChange | src/components/payslip-history/payslip-history.component.ts:95-98 | Sets the month, goes back to page 1 and keeps the other filters. |
| PayslipHistory.PayslipHistoryScreen.OnEmployeeChange | src/components/payslip-history/payslip-history.component.ts:100-103 | Sets the employee, goes back to page 1 and keeps the other filters. |
| PayslipHistory.PayslipHistoryScreen.GoToPage | src/components/payslip-history/payslip-history.component.ts:105-108 | The page is clamped into 1..page count. It is at least 1, and at most the page count whenever there is a page. |
| Paging.TotalPages | src/components/filing-history/filing-history.component.ts:50 | The page count is the least number of pages that holds the list: 0 exactly for an empty list. |
| Paging.Page | src/components/filing-history/filing-history.component.ts:52-56 | A page holds at most the page size. It is the page's slice of the list, or empty before page 1 and past the end. |
| Paging.PagesUpToPrefix | src/components/filing-history/filing-history.component.ts:52-56 | The first k pages joined are the list's first k page-fulls. |
| Paging.PagesCoverList | src/components/filing-history/filing-history.component.ts:50-56 | All pages joined reproduce the list exactly. |
| Paging.PagePastEndEmpty | src/components/filing-history/filing-history.component.ts:50-56 | A page beyond the page count is empty. |
| Paging.PageNumbers | src/components/filing-history/filing-history.component.ts:58 | There is one page number per page. |
| Paging.PageNumbersExact | src/components/filing-history/filing-history.component.ts:58 | The page numbers are exactly 1 to the page count, in increasing order. |
| Paging.ClampPage | src/components/payslip-history/payslip-history.component.ts:106 | The clamped page is at least 1 and at most the page count when there is one. An in-range page is kept, one past the end becomes the last page, and one before the start becomes 1. |
| TaxCalendar.CountStatus | src/components/tax-calendar/tax-calendar.component.ts:64-65 | A status count never exceeds the number of events. |
| TaxCalendar.CountStatusCons | src/components/tax-calendar/tax-calendar.component.ts:64-65 | Counting goes event by event: the first event adds one to its own status. |
| TaxCalendar.StatusCountsPartition | src/components/tax-calendar/tax-calendar.component.ts:64-65 | The Filed, Upcoming and Overdue counts add up to the number of events. |
| TaxCalendar.RecentlyFiled | src/components/tax-calendar/tax-calendar.component.ts:66-70 | Exactly the filed events whose filing date lies within the last thirty days. |
| TaxCalendar.FilingsLast30DaysBounded | src/components/tax-calendar/tax-calendar.component.ts:66-70 | The recent-filings count never exceeds the Filed count. |
| TaxCalendar.ComplianceRate | src/components/tax-calendar/tax-calendar.component.ts:71-78 | The rate, in tenths of a per cent, lies in 0..1000. It is the full 1000 when nothing is overdue and 0 when something is overdue and nothing is filed. |
| TaxCalendar.ComplianceRateRounds | src/components/tax-calendar/tax-calendar.component.ts:71-78 | With filed or overdue events, the rate is filed over filed plus overdue, rounded to the nearest tenth of a per cent, a half going up. |
| TaxCalendar.ComplianceRateMonotone | src/components/tax-calendar/tax-calendar.component.ts:71-78 | More filed events and no more overdue ones never lower the rate. |
| TaxCalendar.ComplianceRateOfCounts | src/components/tax-calendar/tax-calendar.component.ts:71-78 | The rate depends only on the filed and overdue counts, as their guarded share of 1000. |
| TaxCalendar.ComplianceRateByCounts | src/components/tax-calendar/tax-calendar.component.ts:71-78 | Event lists with equal filed and overdue counts have equal rates. |
| Ratios.TenthsAgreeWithWhole | src/components/tax-calendar/tax-calendar.component.ts:71-78 | The tax calendar's one-decimal rate and the tax dashboard's whole-percent score of the same counts differ by at most half a per cent. |
| TaxCalendar.FilteredEvents | src/components/tax-calendar/tax-calendar.component.ts:81-84 | An order-keeping subsequence holding every filed event, plus exactly the other events whose status filter is on. |
| TaxCalendar.CalendarGrid | src/components/tax-calendar/tax-calendar.component.ts:86-124 | The grid is 42 cells: the previous month's tail up to the first weekday, every day of the month in order, then the next month's start. In-month cells hold exactly the events due that day; other cells hold none. |
| TaxCalendar.SameDayIsDueOn | src/components/tax-calendar/tax-calendar.component.ts:109-112 | The year, month and day comparison picks the same events as being due on that date. |
| TaxCalendar.RecentFilings | src/components/tax-calendar/tax-calendar.component.ts:126-131 | Five filed events with a filing date, or all of them when there are fewer; none shown more often than it is stored; latest filing first. |
| TaxCalendar.RecentFilingsAreLatest | src/components/tax-calendar/tax-calendar.component.ts:126-131 | A dated filing left out means the list is full and each listed filing is no older than it. |
| TaxCalendar.UpcomingForMonth | src/components/tax-calendar/tax-calendar.component.ts:133-140 | A permutation of exactly the events that are not filed and are due in the shown month, earliest due first. |
| TaxCalendar.ToggleFilter | src/components/tax-calendar/tax-calendar.component.ts:159-169 | The toggled status's membership flips, the other status keeps its membership, and no status is listed twice. |
| TaxCalendar.ToggleFilterTwice | src/components/tax-calendar/tax-calendar.component.ts:159-169 | Toggling the same status twice restores every membership. |
| TaxCalendar.FiledCopy | src/components/tax-calendar/tax-calendar.component.ts:196 | A filed copy has status Filed and the given filing date; every other field is the event's own. |
| TaxCalendar.MarkFiled | src/components/tax-calendar/tax-calendar.component.ts:192-212 | The length is kept. Each event with the id becomes its filed copy, and every other event is unchanged. |
| TaxCalendar.MarkFiledCounts | src/components/tax-calendar/tax-calendar.component.ts:192-212 | Marking filed never lowers the Filed count nor raises the Overdue count. |
| TaxCalendar.MarkFiledKeepsOverdue | src/components/tax-calendar/tax-calendar.component.ts:192-212 | Marking a non-overdue event filed keeps the Overdue count. |
| TaxCalendar.MarkFiledRaisesCompliance | src/components/tax-calendar/tax-calendar.component.ts:192-212 | Marking any event filed, an overdue one included, never lowers the compliance rate. |
| TaxCalendar.NewEvent | src/components/tax-calendar/tax-calendar.component.ts:179-186 | A new event is Upcoming, not yet filed, with a description, and carries the form's name and jurisdiction, the parsed due date and the given id. |
| TaxCalendar.CountAppendOne | src/components/tax-calendar/tax-calendar.component.ts:187 | Appending an event adds one to its own status's count only. |
| TaxCalendar.AddEventCounts | src/components/tax-calendar/tax-calendar.component.ts:187 | Adding an upcoming event adds one to the Upcoming count and keeps the other counts and the compliance rate. |
| TaxCalendar.TaxCalendarScreen.constructor | src/components/tax-calendar/tax-calendar.component.ts:34-61 | The calendar starts on the current date with nothing selected, the Upcoming and Overdue filters on, the add dialog closed and the stored events. |
| TaxCalendar.TaxCalendarScreen.Grid | src/components/tax-calendar/tax-calendar.component.ts:86-124 | The grid of the shown month is the month grid of the filtered events. |
| TaxCalendar.TaxCalendarScreen.PreviousMonth | src/components/tax-calendar/tax-calendar.component.ts:143-146 | Moves to day 1 of the previous month and clears the selected day. |
| TaxCalendar.TaxCalendarScreen.NextMonth | src/components/tax-calendar/tax-calendar.component.ts:148-151 | Moves to day 1 of the next month and clears the selected day. |
| TaxCalendar.TaxCalendarScreen.SelectDay | src/components/tax-calendar/tax-calendar.component.ts:153-157 | Selects an in-month day with events; any other day leaves the selection unchanged. |
| TaxCalendar.TaxCalendarScreen.ToggleFilterButton | src/components/tax-calendar/tax-calendar.component.ts:159-169 | The active filters become the toggled filters. |
| TaxCalendar.TaxCalendarScreen.CloseModals | src/components/tax-calendar/tax-calendar.component.ts:171-173 | Closes the add dialog and keeps everything else. |
| TaxCalendar.TaxCalendarScreen.OnAddEventSubmit | src/components/tax-calendar/tax-calendar.component.ts:175-190 | An invalid form changes nothing. A valid one appends the new event, closes the dialog and resets the form. |
| TaxCalendar.TaxCalendarScreen.MarkAsFiled | src/components/tax-calendar/tax-calendar.component.ts:192-212 | The stored events are marked filed, and so is the selected day's copy of them. |
| TaxDashboard.CountStatus | src/components/tax-dashboard/tax-dashboard.component.ts:50-51 | A status count never exceeds the number of events. |
| TaxDashboard.StatusCountsPartition | src/components/tax-dashboard/tax-dashboard.component.ts:50-51 | The Filed, Upcoming and Overdue counts add up to the number of events. |
| TaxDashboard.LiabilitySplitsTotal | src/components/tax-dashboard/tax-dashboard.component.ts:52 | The open liability plus the filed events' amounts is the total amount, and it is not negative when no amount is. |
| TaxDashboard.ComplianceScore | src/components/tax-dashboard/tax-dashboard.component.ts:54-60 | The score lies in 0..100. It is 100 when nothing is overdue and 0 when something is overdue and nothing is filed. |
| TaxDashboard.ComplianceScoreRounds | src/components/tax-dashboard/tax-dashboard.component.ts:54-60 | With filed or overdue events, the score is filed over filed plus overdue, rounded to the nearest whole per cent, a half going up. |
| TaxDashboard.ComplianceScoreOfCounts | src/components/tax-dashboard/tax-dashboard.component.ts:54-60 | The score depends only on the filed and overdue counts, as their guarded share of 100. |
| Ratios.ShareOrFull | src/components/tax-dashboard/tax-dashboard.component.ts:54-60 | The guarded share lies in 0..scale: the full scale with nothing to divide by or everything counted, and 0 with nothing counted. |
| Ratios.ShareOrFullRounds | src/components/tax-dashboard/tax-dashboard.component.ts:54-60 | With something to divide by, the share is the scaled ratio rounded half up. |
| Ratios.ShareMonotone | src/components/tax-dashboard/tax-dashboard.component.ts:54-60 | A larger part with no larger other count never gives a smaller share. |
| Ratios.RoundDiv | src/components/expense-dashboard/expense-dashboard.component.ts:47 | The result is within half of the exact quotient, a half rounding up. |
| Ratios.RoundingBracketUnique | src/components/expense-dashboard/expense-dashboard.component.ts:47 | Only one whole number is within half of a quotient, a half rounding up. |
| Ratios.RoundDivMonotone | src/components/expense-dashboard/expense-dashboard.component.ts:47 | Rounding a larger numerator never gives a smaller result. |
| TaxDashboard.CalendarGrid | src/components/tax-dashboard/tax-dashboard.component.ts:63-101 | The grid is 42 cells: the previous month's tail up to the first weekday, every day of the month in order, then the next month's days from 1. In-month cells hold exactly the events due that day; other cells hold none. |
| TaxDashboard.MidnightIsDueOn | src/components/tax-dashboard/tax-dashboard.component.ts:86-90 | Comparing a due date cut to midnight with the day picks the same events as being due on that date. |
| TaxDashboard.UrgentDeadlines | src/components/tax-dashboard/tax-dashboard.component.ts:103-108 | Four upcoming or overdue events, or all of them when there are fewer; none shown more often than it is stored; earliest due first. |
| TaxDashboard.UrgentDeadlinesAreEarliest | src/components/tax-dashboard/tax-dashboard.component.ts:103-108 | An open event left out means the list is full and each listed deadline is no later than it. |
| TaxDashboard.RecentActivity | src/components/tax-dashboard/tax-dashboard.component.ts:110-115 | Five filed events, or all of them when there are fewer; none shown more often than it is stored; latest due date first. |
| TaxDashboard.RecentActivityIsLatest | src/components/tax-dashboard/tax-dashboard.component.ts:110-115 | A filed event left out means the list is full and each listed event is due no earlier than it. |
| TaxDashboard.TaxDashboardScreen.constructor | src/components/tax-dashboard/tax-dashboard.component.ts:32-47 | The dashboard starts on the current date with nothing selected and the stored events. |
| TaxDashboard.TaxDashboardScreen.Grid | src/components/tax-dashboard/tax-dashboard.component.ts:63-101 | The grid of the shown month is the month grid of all events. |
| TaxDashboard.TaxDashboardScreen.PreviousMonth | src/components/tax-dashboard/tax-dashboard.component.ts:118-121 | Moves to day 1 of the previous month and clears the selected day. |
| TaxDashboard.TaxDashboardScreen.NextMonth | src/components/tax-dashboard/tax-dashboard.component.ts:123-126 | Moves to day 1 of the next month and clears the selected day. |
| TaxDashboard.TaxDashboardScreen.SelectDay | src/components/tax-dashboard/tax-dashboard.component.ts:128-132 | Selects an in-month day with events; any other day leaves the selection unchanged. |
| Calendar.DaysInMonth | src/components/tax-calendar/tax-calendar.component.ts:93-95 | A month has 28 to 31 days, and February has 29 exactly in leap years. |
| Calendar.Weekday | src/components/tax-calendar/tax-calendar.component.ts:94 | The weekday is a number 0..6. |
| Calendar.EpochIsThursday | src/components/tax-calendar/tax-calendar.component.ts:94 | Day 0 of the count is 1 January 1970, a Thursday (4). |
| Calendar.ShiftDaysStamp | src/components/tax-calendar/tax-calendar.component.ts:66-68 | Moving a date by n days moves its time stamp by n whole days of milliseconds. |
| Calendar.MidnightSameIffSameDate | src/components/tax-dashboard/tax-dashboard.component.ts:86-89 | A moment cut to midnight equals a day's midnight if and only if the moment lies on that day. |
| Calendar.FirstOfPrevMonth | src/components/tax-calendar/tax-calendar.component.ts:143-146 | The result is a valid first of a month, one month before the given date's month. |
| Calendar.FirstOfNextMonth | src/components/tax-calendar/tax-calendar.component.ts:148-151 | The result is a valid first of a month, one month after the given date's month. |
| Calendar.PrevNextMonthRoundTrip | src/components/tax-calendar/tax-calendar.component.ts:143-151 | Going back a month and forward again, or forward and back, lands on the first of the original month. |
| Calendar.NextDay | src/components/tax-calendar/tax-calendar.component.ts:116-121 | The next day is valid: the same month's next day, or the first of the next month after its last day. |
| Calendar.GridDatesValid | src/components/tax-calendar/tax-calendar.component.ts:86-124 | Every cell of a month grid holds a valid date, and its day number is that date's day. |
| Calendar.GridColumnIsWeekday | src/components/tax-calendar/tax-calendar.component.ts:86-124 | Every in-month cell stands in the column of its weekday. |
| Calendar.EventInExactlyOneCell | src/components/tax-dashboard/tax-dashboard.component.ts:63-101 | An event due in the shown month appears in its own day's cell and in no other cell. |
| TaxFormsLibrary.Statuses | src/components/tax-forms-library/tax-forms-library.component.ts:62 | The status options are 'All' followed by the four statuses, each present. |
| TaxFormsLibrary.FilteredForms | src/components/tax-forms-library/tax-forms-library.component.ts:64-76 | A permutation of exactly the stored forms that pass the name search and the jurisdiction, year and status filters, newest modification first. |
| TaxFormsLibrary.NewestFirstGroups | src/components/tax-forms-library/tax-forms-library.component.ts:75 | The sort key groups forms exactly by their modification time. |
| TaxFormsLibrary.FilteredFormsStable | src/components/tax-forms-library/tax-forms-library.component.ts:64-76 | The sort is stable: forms modified at the same time keep their stored order. |
| TaxFormsLibrary.JurisdictionsOf | src/components/tax-forms-library/tax-forms-library.component.ts:56 | The listed jurisdictions are exactly those of the forms. |
| TaxFormsLibrary.JurisdictionOptions | src/components/tax-forms-library/tax-forms-library.component.ts:56 | The options are 'All' plus each jurisdiction of the forms once. |
| TaxFormsLibrary.JurisdictionOptionsSorted | src/components/tax-forms-library/tax-forms-library.component.ts:56 | The jurisdiction options are sorted ascending. |
| TaxFormsLibrary.JurisdictionOptionsDistinct | src/components/tax-forms-library/tax-forms-library.component.ts:56 | The options hold no duplicate if and only if no form's jurisdiction is 'All' itself. |
| TaxFormsLibrary.YearStringIsNotAll | src/components/tax-forms-library/tax-forms-library.component.ts:57-61 | No year's decimal string is 'All'. |
| TaxFormsLibrary.YearsOf | src/components/tax-forms-library/tax-forms-library.component.ts:57-61 | The listed years are exactly the decimal strings of the forms' tax years. |
| TaxFormsLibrary.YearBeforeTotalPreorder | src/components/tax-forms-library/tax-forms-library.component.ts:57-61 | The descending year order is a total preorder, so sorting by it is well defined. |
| TaxFormsLibrary.YearOptions | src/components/tax-forms-library/tax-forms-library.component.ts:57-61 | The options are 'All' plus each tax year string of the forms once. |
| TaxFormsLibrary.YearOptionsShape | src/components/tax-forms-library/tax-forms-library.component.ts:57-61 | 'All' comes first, then the years in descending order without repeats. |
| TaxFormsLibrary.NewForm | src/components/tax-forms-library/tax-forms-library.component.ts:124-129 | A new form carries the id, the form's values, and the current time as both created and modified date. |
| TaxFormsLibrary.AddForm | src/components/tax-forms-library/tax-forms-library.component.ts:123-130 | Adding appends exactly the new form. |
| TaxFormsLibrary.ApplyValue | src/components/tax-forms-library/tax-forms-library.component.ts:135-139 | An edited form takes the form's values and the current modified date, and keeps its id and created date. |
| TaxFormsLibrary.EditForms | src/components/tax-forms-library/tax-forms-library.component.ts:131-142 | The length, ids and created dates are kept. Only forms with the edited id take the values; the others are unchanged. |
| TaxFormsLibrary.EditIdempotent | src/components/tax-forms-library/tax-forms-library.component.ts:131-142 | Saving the same edit twice at the same time equals saving it once. |
| TaxFormsLibrary.DeleteForms | src/components/tax-forms-library/tax-forms-library.component.ts:147-151 | Deleting removes exactly the forms with the id and keeps the rest in order. |
| TaxFormsLibrary.DeleteUndoesAdd | src/components/tax-forms-library/tax-forms-library.component.ts:123-151 | Deleting a just-added form with a fresh id restores the store. |
| TaxFormsLibrary.ValueOf | src/components/tax-forms-library/tax-forms-library.component.ts:104-109 | The edit dialog's values of a stored form with a name, a jurisdiction and a year from 1900 on pass the validators. |
| TaxFormsLibrary.SaveUnchangedTouchesDate | src/components/tax-forms-library/tax-forms-library.component.ts:101-139 | Saving an edit without changes only moves the modified date. |
| TaxFormsLibrary.MockFormsOk | src/components/tax-forms-library/tax-forms-library.component.ts:33-51 | Every stored form passes the validators. |
| TaxFormsLibrary.TaxFormsLibraryScreen.constructor | src/components/tax-forms-library/tax-forms-library.component.ts:22-51 | The library starts in list view, with an empty search, all filters at 'All', the dialog closed and the stored forms. |
| TaxFormsLibrary.TaxFormsLibraryScreen.SetViewMode | src/components/tax-forms-library/tax-forms-library.component.ts:79-81 | Sets the view mode only. |
| TaxFormsLibrary.TaxFormsLibraryScreen.OnSearch | src/components/tax-forms-library/tax-forms-library.component.ts:83-85 | Sets the term only. |
| TaxFormsLibrary.TaxFormsLibraryScreen.OnFilterChange | src/components/tax-forms-library/tax-forms-library.component.ts:87-89 | Sets the named filter only. |
| TaxFormsLibrary.TaxFormsLibraryScreen.OpenAddModal | src/components/tax-forms-library/tax-forms-library.component.ts:92-99 | Opens the dialog in add mode with the current year and Draft, and an empty name and jurisdiction that do not yet pass the validators. |
| TaxFormsLibrary.TaxFormsLibraryScreen.OpenEditModal | src/components/tax-forms-library/tax-forms-library.component.ts:101-111 | Opens the dialog in edit mode on the form's id, filled with its values. |
| TaxFormsLibrary.TaxFormsLibraryScreen.CloseModal | src/components/tax-forms-library/tax-forms-library.component.ts:113-116 | Closes the dialog and forgets the edited id. |
| TaxFormsLibrary.TaxFormsLibraryScreen.SaveForm | src/components/tax-forms-library/tax-forms-library.component.ts:118-145 | An invalid form changes nothing. A valid add appends the new form; a valid edit updates the edited id. Either way the dialog then closes. |
| TaxFormsLibrary.TaxFormsLibraryScreen.DeleteForm | src/components/tax-forms-library/tax-forms-library.component.ts:147-151 | A confirmed delete removes the forms with the id; an unconfirmed one changes nothing. |
| Text.ToLower | src/components/employee-management/employee-management.component.ts:63 | Lower-casing keeps the length and lower-cases each character. |
| Text.ToLowerIdempotent | src/components/employee-management/employee-management.component.ts:63 | Lower-casing twice is the same as once. |
| Text.IndexOf | src/components/expense-insights/expense-insights.component.ts:71 | A label is found exactly when the line contains it, at its first occurrence. |
| Text.RemoveFirst | src/components/expense-insights/expense-insights.component.ts:71 | Removing a label the line lacks changes nothing. Otherwise the first occurrence is cut out and the text before and after it is kept in order, so the line is shorter by the label's length. |
| Text.Trim | src/components/expense-insights/expense-insights.component.ts:67 | The trimmed string is a slice of the input with only whitespace around it, and it neither starts nor ends with whitespace. |
| Text.TrimEmptyIffBlank | src/components/expense-insights/expense-insights.component.ts:67 | Trimming yields the empty string if and only if every character is whitespace. |
| Text.Split | src/components/expense-insights/expense-insights.component.ts:67 | Splitting yields at least one piece, and no piece holds the separator. |
| Text.JoinSplit | src/components/expense-insights/expense-insights.component.ts:67 | Joining the pieces of a split with the separator gives the text back. |
| Text.SplitJoin | src/components/expense-insights/expense-insights.component.ts:67 | Splitting the join of separator-free pieces gives the pieces back. |
| Text.DecimalString | src/components/payslip-history/payslip-history.component.ts:71 | A number's decimal string is non-empty, all digits, and starts with '0' only for zero. |
| Text.DecimalStringValue | src/components/employee-management/employee-management.component.ts:121 | Reading the decimal string of a number gives the number back. |
| Text.DecimalStringInjective | src/components/employee-management/employee-management.component.ts:121 | Different numbers have different decimal strings. |
| Text.PadStart | src/components/employee-management/employee-management.component.ts:121 | The padded string has at least the width, ends with the original and is filled in front with the pad character. |
| Text.PaddedValue | src/components/employee-management/employee-management.component.ts:121 | A zero-padded decimal string still reads as the same number. |
| Text.ZeroPaddedInjective | src/components/employee-management/employee-management.component.ts:121 | Different numbers have different zero-padded strings. |
| Text.StrLeTotalPreorder | src/components/tax-forms-library/tax-forms-library.component.ts:56 | The default string order is a total preorder, so sorting by it is well defined. |
| Seqs.Filter | src/components/payroll-dashboard/payroll-dashboard.component.ts:112-115 | Filtering keeps exactly the elements that satisfy the predicate, with their multiplicities. |
| Seqs.FilterIsSubseq | src/components/payroll-dashboard/payroll-dashboard.component.ts:112-115 | The filtered list keeps the original order. |
| Seqs.SortByKey | src/components/tax-forms-library/tax-forms-library.component.ts:75 | Sorting by a key yields a permutation ordered by that key. |
| Seqs.SortByKeyStable | src/components/tax-forms-library/tax-forms-library.component.ts:75 | Elements with equal keys keep their original order. |
| Seqs.FirstByKey | src/components/tax-dashboard/tax-dashboard.component.ts:103-108 | Exactly min(n, number eligible) elements, a prefix of the stable key sort of the eligible ones; none occurs more often than among the eligible; all in key order. |
| Seqs.FirstByKeyKeepsTies | src/components/tax-dashboard/tax-dashboard.component.ts:103-108 | Among elements with equal keys, the ones kept are the first eligible ones in store order, as a stable sort keeps them. |
| Seqs.FirstByKeyAreFirst | src/components/tax-dashboard/tax-dashboard.component.ts:103-108 | An eligible element left out means all n places are taken by elements whose keys are no larger. |
| Seqs.SumOfPartition | src/components/tax-dashboard/tax-dashboard.component.ts:52 | The sums over the kept and the dropped elements add up to the total. |

## Left out

- Styling helpers are not modelled: `getStatusClass`, `getEventColor`,
  `getEventDotColor`, `getIconForCategory` and `getStatusClasses`. They map values to
  CSS classes and icons only.
- The chart components, login, header, KPI-card and action-required components are
  not part of this model. They render, or hold fixed inputs, and make no state
  changes worth stating.
- The KPI display lists (`payrollKpis`, `kpiCards` and their like) and the
  `expenseData` and prompt text of the insight panel are not modelled. They are
  fixed display data.
- The AI service call, `setTimeout` delays, `confirm()`, `new Date()` and
  `Date.now()` are not modelled as such. Their results are parameters, and each
  timer callback is a separate completion method. Overlapping timers are not
  modelled. Where one operation reads the clock more than once (marking a filing as
  filed, saving a filing form, starting a new form), one `now` stands for all of
  those reads, so two reads that straddle a millisecond or midnight are not
  captured.
- `Date.now()` ids are taken as given. Their uniqueness is not assumed, so delete
  removes every form with the id and edit changes every record with the id.
- Time zones and daylight saving are not modelled. Dates are local civil dates, and
  every day lasts 86 400 000 milliseconds.
- Floating point is not modelled: amounts are integers. `toFixed(1)` and
  `Math.round` are exact integer rounding, half up. The tax calendar's rate is
  therefore in tenths of a per cent, and half-way cases that floating point would
  round differently are not captured.
- `parseFloat` and the currency pipe are not modelled.
- `toLowerCase` is ASCII-only, and `localeCompare` is plain code-unit order.
- `new Date(y, m, d)` month overflow is captured only as far as the grid and month
  navigation need it.
- FilingHistory.FilingHistoryScreen.constructor: the tax-type and period filters are
  kept as fields but never filter the list, the same as the source.
- RunPayroll.RunPayrollScreen.ApprovePayroll: approving an already approved run leaves
  both the approving and the approved flag set until the timer fires. No invariant
  links the two flags.
- The tax dashboard's KPI values for its ten stored events (counts, liability and
  score) are not proved; the general count, liability and score lemmas cover them.
- Form validity is a boolean parameter or a predicate on the form value. Angular's
  validator objects and `markAllAsTouched` are a boolean `touched` flag.
- Profile image URLs are carried unchanged and not reasoned about.
- AssignSalaryModal.GrossPay, AssignSalaryModal.TotalDeductions and
  AssignSalaryModal.NetPay: these are the totals of the figures the form holds. The
  dialog's `computed` totals read `getRawValue()`, which is not a signal, so in the
  dialog they keep the value of their first read and do not follow later edits. That
  staleness is not modelled.
