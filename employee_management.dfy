/** The employee directory: search, add and edit through a modal form, salary
    assignment, and termination (a soft delete). */
module EmployeeManagement {
  import opened Seqs
  import opened Text
  import opened Calendar
  import opened PayrollRecords

  /** The search rule for an already lower-cased term. */
  predicate EmployeeMatches(e: Employee, term: string)
  {
    Contains(ToLower(e.name), term) || Contains(ToLower(e.email), term) || Contains(ToLower(e.employeeId), term)
  }

  /** `filteredEmployees`: everyone for an empty search, otherwise the employees whose
      name, email or employee code contains the term, ignoring case, in list order. */
  function FilteredEmployees(employees: seq<Employee>, searchTerm: string): (r: seq<Employee>)
    ensures searchTerm == "" ==> r == employees
    ensures IsSubseq(r, employees)
    ensures forall e :: e in r <==> e in employees && EmployeeMatches(e, ToLower(searchTerm))
  {
    var term := ToLower(searchTerm);
    if term == [] then
      EmptyTermMatchesAll(employees);
      assert IsSubseq(employees, employees) by {
        FilterIsSubseq(employees, (e: Employee) => EmployeeMatches(e, []));
        FilterKeepsAll(employees, (e: Employee) => EmployeeMatches(e, []));
      }
      employees
    else
      var keep := (e: Employee) => EmployeeMatches(e, term);
      FilterIsSubseq(employees, keep);
      Filter(employees, keep)
  }

  lemma EmptyTermMatchesAll(employees: seq<Employee>)
    ensures forall e :: e in employees ==> EmployeeMatches(e, [])
  {
    forall e | e in employees ensures EmployeeMatches(e, []) {
      ContainsEmpty(ToLower(e.name));
    }
  }

  /** The empty-search shortcut changes nothing: the result always equals the plain filter. */
  lemma ShortcutAgreesWithFilter(employees: seq<Employee>, searchTerm: string)
    ensures FilteredEmployees(employees, searchTerm)
         == Filter(employees, (e: Employee) => EmployeeMatches(e, ToLower(searchTerm)))
  {
    if ToLower(searchTerm) == [] {
      EmptyTermMatchesAll(employees);
      FilterKeepsAll(employees, (e: Employee) => EmployeeMatches(e, ToLower(searchTerm)));
    }
  }

  /** `Math.max(...employees.map(e => e.id))` of a non-empty list. */
  function MaxId(employees: seq<Employee>): (r: int)
    requires |employees| > 0
    ensures exists i :: 0 <= i < |employees| && employees[i].id == r
    ensures forall i :: 0 <= i < |employees| ==> employees[i].id <= r
  {
    if |employees| == 1 then employees[0].id
    else
      var rest := MaxId(employees[1..]);
      assert forall i :: 1 <= i < |employees| ==> employees[i] == employees[1..][i - 1];
      Max(employees[0].id, rest)
  }

  /** `EMP-` followed by the id padded with zeros to three digits. */
  function EmployeeCode(id: nat): string
  {
    "EMP-" + PadStart(DecimalString(id), 3, '0')
  }

  /** Different ids give different codes, even once the ids outgrow three digits. */
  lemma EmployeeCodeInjective(a: nat, b: nat)
    requires EmployeeCode(a) == EmployeeCode(b)
    ensures a == b
  {
    var pa, pb := PadStart(DecimalString(a), 3, '0'), PadStart(DecimalString(b), 3, '0');
    assert pa == EmployeeCode(a)[4..] && pb == EmployeeCode(b)[4..];
    ZeroPaddedInjective(a, b, 3);
  }

  lemma EmployeeCodeExamples()
    ensures EmployeeCode(9) == "EMP-009"
    ensures EmployeeCode(12) == "EMP-012"
    ensures EmployeeCode(1234) == "EMP-1234"
  {
    assert DecimalString(9) == "9";
    assert PadStart("9", 3, '0') == "009" by {
      assert Repeat('0', 2) == "00";
    }
    assert DecimalString(12) == "12" by {
      assert DecimalString(1) == "1";
    }
    assert PadStart("12", 3, '0') == "012" by {
      assert Repeat('0', 1) == "0";
    }
    assert DecimalString(1234) == "1234" by {
      assert DecimalString(1) == "1";
      assert DecimalString(12) == "12";
      assert DecimalString(123) == "123";
    }
    assert PadStart("1234", 3, '0') == "1234";
  }

  /** The modal form's value. */
  datatype EmployeeForm = EmployeeForm(
    name: string,
    email: string,
    role: string,
    department: string,
    status: EmployeeStatus,
    salaryStructure: string)

  /** The form after `reset({status: 'Active', salaryStructure: 'Tech Standard'})`. */
  function BlankForm(): EmployeeForm
  {
    EmployeeForm("", "", "", "", Active, "Tech Standard")
  }

  function FormOf(e: Employee): EmployeeForm
  {
    EmployeeForm(e.name, e.email, e.role, e.department, e.status, e.salaryStructure)
  }

  /** `{...emp, ...form}`: the six form fields copied onto the record. */
  function ApplyForm(e: Employee, f: EmployeeForm): (r: Employee)
    ensures FormOf(r) == f
    ensures r.id == e.id && r.employeeId == e.employeeId && r.startDate == e.startDate
    ensures r.profileImageUrl == e.profileImageUrl && r.salaryDetails == e.salaryDetails
  {
    e.(name := f.name, email := f.email, role := f.role, department := f.department, status := f.status,
       salaryStructure := f.salaryStructure)
  }

  /** The record `saveEmployee` adds: the next id, its code and picture, the form's
      fields, started now, on an all-zero 'Custom' salary effective `effectiveDate`. */
  function NewEmployee(id: nat, f: EmployeeForm, now: DateTime, effectiveDate: string): (r: Employee)
    ensures r.id == id && r.employeeId == EmployeeCode(id) && FormOf(r) == f && r.startDate == now
    ensures r.salaryDetails.structureTemplate == Custom
    ensures r.salaryDetails.baseSalary == 0 && r.salaryDetails.allowances == Allowances(0, 0, 0)
    ensures r.salaryDetails.deductions == Deductions(0, 0, 0, 0)
  {
    Employee(id, EmployeeCode(id), f.name, f.email, f.department, f.role, f.status, f.salaryStructure, now,
             Some("https://picsum.photos/id/10" + DecimalString(id) + "/100/100"),
             SalaryDetails(Custom, 0, Monthly, effectiveDate, Allowances(0, 0, 0), Deductions(0, 0, 0, 0)))
  }

  /** The directory's invariant: at least one employee, ids positive and distinct. */
  predicate WellKeyed(employees: seq<Employee>)
  {
    && |employees| > 0
    && (forall i :: 0 <= i < |employees| ==> employees[i].id >= 1)
    && (forall i, j :: 0 <= i < j < |employees| ==> employees[i].id != employees[j].id)
  }

  /** Add mode: appends one employee whose id is one more than the largest, so it is
      new; every existing record stays as it was, where it was. */
  function AddEmployee(employees: seq<Employee>, f: EmployeeForm, now: DateTime, effectiveDate: string)
    : (r: seq<Employee>)
    requires WellKeyed(employees)
    ensures |r| == |employees| + 1 && r[..|employees|] == employees
    ensures forall i :: 0 <= i < |employees| ==> employees[i].id < r[|employees|].id
    ensures r[|employees|] == NewEmployee(MaxId(employees) + 1, f, now, effectiveDate)
    ensures WellKeyed(r)
  {
    var id := MaxId(employees) + 1;
    var r := employees + [NewEmployee(id, f, now, effectiveDate)];
    assert r[..|employees|] == employees;
    r
  }

  predicate HasId(id: Option<int>, e: Employee)
  {
    id == Some(e.id)
  }

  /** Edit mode: the form's fields go into the record whose id is the one being
      edited; nothing else changes, and no id, code, start date, picture or salary
      changes at all. */
  function EditEmployees(employees: seq<Employee>, editing: Option<int>, f: EmployeeForm): (r: seq<Employee>)
    ensures |r| == |employees|
    ensures forall i :: 0 <= i < |employees| ==>
      if HasId(editing, employees[i]) then r[i] == ApplyForm(employees[i], f) else r[i] == employees[i]
    ensures forall i :: 0 <= i < |employees| ==> r[i].id == employees[i].id && r[i].employeeId == employees[i].employeeId
    ensures WellKeyed(employees) ==> WellKeyed(r)
  {
    UpdateWhere(employees, (e: Employee) => HasId(editing, e), (e: Employee) => ApplyForm(e, f))
  }

  /** With no record carrying the edited id, editing changes nothing. */
  lemma EditWithoutMatchIsIdentity(employees: seq<Employee>, editing: Option<int>, f: EmployeeForm)
    requires forall i :: 0 <= i < |employees| ==> !HasId(editing, employees[i])
    ensures EditEmployees(employees, editing, f) == employees
  {
  }

  /** `handleSalarySave`: the record with the updated employee's id is replaced by it;
      every other record, and the length, stay. */
  function ReplaceById(employees: seq<Employee>, updated: Employee): (r: seq<Employee>)
    ensures |r| == |employees|
    ensures forall i :: 0 <= i < |employees| ==>
      r[i] == if employees[i].id == updated.id then updated else employees[i]
    ensures forall i :: 0 <= i < |employees| ==> r[i].id == employees[i].id
    ensures WellKeyed(employees) ==> WellKeyed(r)
  {
    UpdateWhere(employees, (e: Employee) => e.id == updated.id, (e: Employee) => updated)
  }

  /** A confirmed termination: the record with that id gets status 'Terminated' and
      nothing else about any record changes. */
  function TerminateById(employees: seq<Employee>, id: int): (r: seq<Employee>)
    ensures |r| == |employees|
    ensures forall i :: 0 <= i < |employees| ==>
      r[i] == if employees[i].id == id then employees[i].(status := Terminated) else employees[i]
    ensures forall i :: 0 <= i < |employees| ==> r[i].id == employees[i].id
    ensures WellKeyed(employees) ==> WellKeyed(r)
  {
    UpdateWhere(employees, (e: Employee) => e.id == id, (e: Employee) => e.(status := Terminated))
  }

  /** In a well-keyed directory, termination touches exactly one record when the id
      is present and none when it is absent. */
  lemma TerminateTouchesAtMostOne(employees: seq<Employee>, id: int)
    requires WellKeyed(employees)
    ensures forall i, j :: 0 <= i < j < |employees| && TerminateById(employees, id)[i] != employees[i]
              ==> TerminateById(employees, id)[j] == employees[j]
  {
  }

  function Staff(id: nat, name: string, email: string, role: string, department: string, status: EmployeeStatus,
               structure: string, start: CivilDate, picture: string, details: SalaryDetails): Employee
  {
    Employee(id, EmployeeCode(id), name, email, department, role, status, structure, DateTime(start, 0),
             Some("https://picsum.photos/id/" + picture + "/100/100"), details)
  }

  function Salary(t: Template, base: int, freq: PaymentFrequency, effective: string, a: Allowances, d: Deductions)
    : SalaryDetails
  {
    SalaryDetails(t, base, freq, effective, a, d)
  }

  /** The eight employees the directory starts with. */
  function MockEmployees(): seq<Employee>
  {
    [ Staff(1, "Sarah Johnson", "sarah.j@company.com", "Software Engineer", "Engineering", Active, "Tech Standard",
            CivilDate(2022, 2, 15), "1011", Salary(TechStandard, 120000, Monthly, "2024-01-01",
            Allowances(20000, 6000, 15000), Deductions(18000, 7000, 6000, 1000))),
      Staff(2, "Michael Chen", "m.chen@company.com", "Product Manager", "Product", Active, "Management",
            CivilDate(2021, 7, 1), "1012", Salary(Custom, 140000, Monthly, "2024-01-01",
            Allowances(25000, 7000, 20000), Deductions(22000, 9000, 6500, 1500))),
      Staff(3, "Emily Davis", "emily.d@company.com", "UX Designer", "Design", OnLeave, "Design Standard",
            CivilDate(2023, 0, 20), "1013", Salary(Custom, 95000, BiWeekly, "2023-01-20",
            Allowances(18000, 5000, 5000), Deductions(13000, 5000, 5500, 800))),
      Staff(4, "James Wilson", "j.wilson@company.com", "DevOps Engineer", "Engineering", Active, "Tech Standard",
            CivilDate(2022, 8, 10), "1014", Salary(TechStandard, 130000, Monthly, "2022-09-10",
            Allowances(22000, 6000, 10000), Deductions(20000, 8000, 6000, 1200))),
      Staff(5, "Amanda Foster", "a.foster@company.com", "HR Manager", "Human Resources", Active, "Management",
            CivilDate(2020, 4, 30), "1015", Salary(Custom, 110000, Monthly, "2020-05-30",
            Allowances(20000, 5000, 8000), Deductions(16000, 6000, 6000, 1000))),
      Staff(6, "Robert Martinez", "r.martinez@company.com", "Sales Executive", "Sales", Terminated,
            "Sales Commission", CivilDate(2021, 10, 1), "1016", Salary(SalesCommission, 70000, Monthly,
            "2021-11-01", Allowances(10000, 5000, 40000), Deductions(15000, 5000, 5000, 500))),
      Staff(7, "Lisa Thompson", "l.thompson@company.com", "Marketing Lead", "Marketing", Active, "Management",
            CivilDate(2022, 1, 18), "1018", Salary(Custom, 115000, Monthly, "2022-02-18",
            Allowances(20000, 5500, 12000), Deductions(17000, 6500, 6000, 1000))),
      Staff(8, "David Kim", "d.kim@company.com", "Data Analyst", "Analytics", Active, "Tech Standard",
            CivilDate(2023, 5, 5), "1019", Salary(TechStandard, 90000, Monthly, "2023-06-05",
            Allowances(15000, 5000, 5000), Deductions(12000, 4000, 5500, 800))) ]
  }

  /** The stored employees satisfy the directory's invariant, so the first add has a
      largest id to build on (9, giving code EMP-009). */
  lemma MockEmployeesWellKeyed()
    ensures WellKeyed(MockEmployees())
  {
    MockIdsOneToEight();
    IdsOneToNWellKeyed(MockEmployees());
  }

  /** Ids 1..n in order are positive and distinct. */
  lemma IdsOneToNWellKeyed(employees: seq<Employee>)
    requires |employees| > 0 && forall i :: 0 <= i < |employees| ==> employees[i].id == i + 1
    ensures WellKeyed(employees)
  {
  }

  /** The stored employees carry the ids 1..8 in order. */
  lemma MockIdsOneToEight()
    ensures |MockEmployees()| == 8
    ensures forall i :: 0 <= i < |MockEmployees()| ==> MockEmployees()[i].id == i + 1
  {
    var m := MockEmployees();
    assert m[0].id == 1 && m[1].id == 2 && m[2].id == 3 && m[3].id == 4;
    assert m[4].id == 5 && m[5].id == 6 && m[6].id == 7 && m[7].id == 8;
  }

  /** With ids 1..n in order the largest id is n, so the next employee added gets
      n + 1: id 9, code EMP-009, for the stored eight. */
  lemma IdsOneToNMax(employees: seq<Employee>)
    requires |employees| > 0 && forall i :: 0 <= i < |employees| ==> employees[i].id == i + 1
    ensures MaxId(employees) == |employees|
  {
    assert employees[|employees| - 1].id == |employees|;
  }

  datatype ModalMode = Add | Edit

  /** The directory screen's state. */
  class EmployeeDirectory {
    var searchTerm: string
    var isModalOpen: bool
    var modalMode: ModalMode
    var editingEmployeeId: Option<int>
    var openActionsMenuId: Option<int>
    var isAssignSalaryModalOpen: bool
    var selectedEmployeeForSalary: Option<Employee>
    var employees: seq<Employee>
    var form: EmployeeForm

    ghost predicate Valid()
      reads this
    {
      WellKeyed(employees)
    }

    constructor ()
      ensures Valid() && employees == MockEmployees()
      ensures searchTerm == "" && !isModalOpen && modalMode == Add && editingEmployeeId == None
      ensures openActionsMenuId == None && !isAssignSalaryModalOpen && selectedEmployeeForSalary == None
      ensures form == BlankForm()
    {
      searchTerm := "";
      isModalOpen := false;
      modalMode := Add;
      editingEmployeeId := None;
      openActionsMenuId := None;
      isAssignSalaryModalOpen := false;
      selectedEmployeeForSalary := None;
      MockEmployeesWellKeyed();
      employees := MockEmployees();
      form := BlankForm();
    }

    function Filtered(): seq<Employee>
      reads this
    {
      FilteredEmployees(employees, searchTerm)
    }

    method OnSearch(value: string)
      modifies this
      ensures searchTerm == value
      ensures isModalOpen == old(isModalOpen) && modalMode == old(modalMode)
      ensures editingEmployeeId == old(editingEmployeeId) && openActionsMenuId == old(openActionsMenuId)
      ensures isAssignSalaryModalOpen == old(isAssignSalaryModalOpen)
      ensures selectedEmployeeForSalary == old(selectedEmployeeForSalary)
      ensures employees == old(employees) && form == old(form)
    {
      searchTerm := value;
    }

    method ToggleActionsMenu(id: int)
      modifies this
      ensures openActionsMenuId == Toggle(old(openActionsMenuId), id)
      ensures searchTerm == old(searchTerm) && isModalOpen == old(isModalOpen) && modalMode == old(modalMode)
      ensures editingEmployeeId == old(editingEmployeeId)
      ensures isAssignSalaryModalOpen == old(isAssignSalaryModalOpen)
      ensures selectedEmployeeForSalary == old(selectedEmployeeForSalary)
      ensures employees == old(employees) && form == old(form)
    {
      openActionsMenuId := Toggle(openActionsMenuId, id);
    }

    method OpenAddModal()
      modifies this
      ensures modalMode == Add && form == BlankForm() && isModalOpen
      ensures searchTerm == old(searchTerm)
      ensures editingEmployeeId == old(editingEmployeeId) && openActionsMenuId == old(openActionsMenuId)
      ensures isAssignSalaryModalOpen == old(isAssignSalaryModalOpen)
      ensures selectedEmployeeForSalary == old(selectedEmployeeForSalary)
      ensures employees == old(employees)
    {
      modalMode := Add;
      form := BlankForm();
      isModalOpen := true;
    }

    method OpenEditModal(e: Employee)
      modifies this
      ensures modalMode == Edit && editingEmployeeId == Some(e.id) && form == FormOf(e)
      ensures isModalOpen && openActionsMenuId == None
      ensures searchTerm == old(searchTerm)
      ensures isAssignSalaryModalOpen == old(isAssignSalaryModalOpen)
      ensures selectedEmployeeForSalary == old(selectedEmployeeForSalary)
      ensures employees == old(employees)
    {
      modalMode := Edit;
      editingEmployeeId := Some(e.id);
      form := FormOf(e);
      isModalOpen := true;
      openActionsMenuId := None;
    }

    method CloseModal()
      modifies this
      ensures !isModalOpen && editingEmployeeId == None
      ensures searchTerm == old(searchTerm) && modalMode == old(modalMode)
      ensures openActionsMenuId == old(openActionsMenuId)
      ensures isAssignSalaryModalOpen == old(isAssignSalaryModalOpen)
      ensures selectedEmployeeForSalary == old(selectedEmployeeForSalary)
      ensures employees == old(employees) && form == old(form)
    {
      isModalOpen := false;
      editingEmployeeId := None;
    }

    /** `saveEmployee`. The form's validators are given as `formValid`, the clock as
        `now` and `effectiveDate` (today's ISO date). An invalid form changes nothing. */
    method SaveEmployee(formValid: bool, now: DateTime, effectiveDate: string)
      requires Valid()
      modifies this
      ensures Valid()
      ensures !formValid ==> employees == old(employees) && isModalOpen == old(isModalOpen)
                             && editingEmployeeId == old(editingEmployeeId)
      ensures formValid && old(modalMode) == Add ==>
                employees == AddEmployee(old(employees), old(form), now, effectiveDate)
      ensures formValid && old(modalMode) == Edit ==>
                employees == EditEmployees(old(employees), old(editingEmployeeId), old(form))
      ensures formValid ==> !isModalOpen && editingEmployeeId == None
      ensures searchTerm == old(searchTerm) && modalMode == old(modalMode)
      ensures openActionsMenuId == old(openActionsMenuId)
      ensures isAssignSalaryModalOpen == old(isAssignSalaryModalOpen)
      ensures selectedEmployeeForSalary == old(selectedEmployeeForSalary)
      ensures form == old(form)
    {
      if !formValid {
        return;
      }
      if modalMode == Add {
        employees := AddEmployee(employees, form, now, effectiveDate);
      } else {
        employees := EditEmployees(employees, editingEmployeeId, form);
      }
      CloseModal();
    }

    method AssignSalary(e: Employee)
      modifies this
      ensures selectedEmployeeForSalary == Some(e) && isAssignSalaryModalOpen && openActionsMenuId == None
      ensures searchTerm == old(searchTerm) && isModalOpen == old(isModalOpen) && modalMode == old(modalMode)
      ensures editingEmployeeId == old(editingEmployeeId)
      ensures employees == old(employees) && form == old(form)
    {
      selectedEmployeeForSalary := Some(e);
      isAssignSalaryModalOpen := true;
      openActionsMenuId := None;
    }

    method CloseAssignSalaryModal()
      modifies this
      ensures !isAssignSalaryModalOpen && selectedEmployeeForSalary == None
      ensures searchTerm == old(searchTerm) && isModalOpen == old(isModalOpen) && modalMode == old(modalMode)
      ensures editingEmployeeId == old(editingEmployeeId) && openActionsMenuId == old(openActionsMenuId)
      ensures employees == old(employees) && form == old(form)
    {
      isAssignSalaryModalOpen := false;
      selectedEmployeeForSalary := None;
    }

    method HandleSalarySave(updated: Employee)
      requires Valid()
      modifies this
      ensures Valid()
      ensures employees == ReplaceById(old(employees), updated)
      ensures !isAssignSalaryModalOpen && selectedEmployeeForSalary == None
      ensures searchTerm == old(searchTerm) && isModalOpen == old(isModalOpen) && modalMode == old(modalMode)
      ensures editingEmployeeId == old(editingEmployeeId) && openActionsMenuId == old(openActionsMenuId)
      ensures form == old(form)
    {
      employees := ReplaceById(employees, updated);
      CloseAssignSalaryModal();
    }

    /** `deleteEmployee`; the `confirm()` answer is `confirmed`. */
    method DeleteEmployee(id: int, confirmed: bool)
      requires Valid()
      modifies this
      ensures Valid()
      ensures employees == if confirmed then TerminateById(old(employees), id) else old(employees)
      ensures openActionsMenuId == None
      ensures searchTerm == old(searchTerm) && isModalOpen == old(isModalOpen) && modalMode == old(modalMode)
      ensures editingEmployeeId == old(editingEmployeeId)
      ensures isAssignSalaryModalOpen == old(isAssignSalaryModalOpen)
      ensures selectedEmployeeForSalary == old(selectedEmployeeForSalary)
      ensures form == old(form)
    {
      if confirmed {
        employees := TerminateById(employees, id);
      }
      openActionsMenuId := None;
    }
  }
}
