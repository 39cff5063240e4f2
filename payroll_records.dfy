/** The employee record and its salary details, shared by the employee directory and
    the salary assignment dialog. */
module PayrollRecords {
  import opened Seqs
  import opened Calendar

  /** The salary structure templates the dialog offers. */
  datatype Template = TechStandard | SalesCommission | Custom

  function TemplateName(t: Template): string
  {
    match t
    case TechStandard => "Tech Standard"
    case SalesCommission => "Sales Commission"
    case Custom => "Custom"
  }

  datatype PaymentFrequency = Monthly | BiWeekly

  datatype Allowances = Allowances(housing: int, transport: int, bonus: int)

  datatype Deductions = Deductions(federalTax: int, stateTax: int, healthInsurance: int, other: int)

  /** Salary details; `effectiveDate` is a `YYYY-MM-DD` string. */
  datatype SalaryDetails = SalaryDetails(
    structureTemplate: Template,
    baseSalary: int,
    paymentFrequency: PaymentFrequency,
    effectiveDate: string,
    allowances: Allowances,
    deductions: Deductions)

  datatype EmployeeStatus = Active | OnLeave | Terminated

  datatype Employee = Employee(
    id: int,
    employeeId: string,
    name: string,
    email: string,
    department: string,
    role: string,
    status: EmployeeStatus,
    salaryStructure: string,
    startDate: DateTime,
    profileImageUrl: Option<string>,
    salaryDetails: SalaryDetails)
}
