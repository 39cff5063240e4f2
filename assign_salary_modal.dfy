/** The salary assignment dialog: a form of salary figures that a template can fill
    in, the gross / deduction / net totals of the figures the form holds, and a save
    that hands the employee back with the new salary details. */
module AssignSalaryModal {
  import opened Seqs
  import opened PayrollRecords

  /** The raw form value. A number input the user has cleared reads as `None`; an
      empty text input reads as "". */
  datatype SalaryForm = SalaryForm(
    structureTemplate: Option<Template>,
    baseSalary: Option<int>,
    paymentFrequency: Option<PaymentFrequency>,
    effectiveDate: string,
    housing: Option<int>,
    transport: Option<int>,
    bonus: Option<int>,
    federalTax: Option<int>,
    stateTax: Option<int>,
    healthInsurance: Option<int>,
    other: Option<int>)

  /** The form as the dialog builds it, before any template or employee is applied. */
  function InitialForm(): SalaryForm
  {
    SalaryForm(Some(TechStandard), Some(0), Some(Monthly), "", Some(0), Some(0), Some(0),
               Some(0), Some(0), Some(0), Some(0))
  }

  /** `Validators.required` together with `Validators.min(0)`. */
  predicate RequiredNonNegative(v: Option<int>)
  {
    v.Some? && v.value >= 0
  }

  /** The form's validators: every field is required and every amount is at least 0. */
  predicate FormValid(f: SalaryForm)
  {
    && f.structureTemplate.Some?
    && RequiredNonNegative(f.baseSalary)
    && f.paymentFrequency.Some?
    && f.effectiveDate != ""
    && RequiredNonNegative(f.housing) && RequiredNonNegative(f.transport) && RequiredNonNegative(f.bonus)
    && RequiredNonNegative(f.federalTax) && RequiredNonNegative(f.stateTax)
    && RequiredNonNegative(f.healthInsurance) && RequiredNonNegative(f.other)
  }

  /** `value ?? 0`. */
  function OrZero(v: Option<int>): int
  {
    if v.Some? then v.value else 0
  }

  /** `grossPay`: base salary plus the three allowances, a cleared field counting as 0. */
  function GrossPay(f: SalaryForm): int
  {
    OrZero(f.baseSalary) + OrZero(f.housing) + OrZero(f.transport) + OrZero(f.bonus)
  }

  /** `totalDeductions`: the four deductions, a cleared field counting as 0. */
  function TotalDeductions(f: SalaryForm): int
  {
    OrZero(f.federalTax) + OrZero(f.stateTax) + OrZero(f.healthInsurance) + OrZero(f.other)
  }

  /** `netPay`. */
  function NetPay(f: SalaryForm): int
  {
    GrossPay(f) - TotalDeductions(f)
  }

  /** The validators bound the totals from below: gross pay is at least the base
      salary, deductions are never negative, so net pay never exceeds gross pay. */
  lemma ValidFormTotals(f: SalaryForm)
    requires FormValid(f)
    ensures GrossPay(f) >= f.baseSalary.value >= 0
    ensures TotalDeductions(f) >= 0
    ensures NetPay(f) <= GrossPay(f)
  {
  }

  /** Nothing keeps net pay from going negative: this valid form nets -1. */
  lemma ValidFormCanNetNegative()
    ensures var f := SalaryForm(Some(Custom), Some(0), Some(Monthly), "2024-01-01", Some(0), Some(0), Some(0),
                                Some(1), Some(0), Some(0), Some(0));
            FormValid(f) && NetPay(f) == -1
  {
  }

  /** The figures a template presets, or `None` for 'Custom' (an empty preset). */
  function Preset(t: Template): Option<(int, Allowances, Deductions)>
  {
    match t
    case TechStandard => Some((90000, Allowances(15000, 5000, 10000), Deductions(12000, 4000, 6000, 1000)))
    case SalesCommission => Some((60000, Allowances(10000, 5000, 25000), Deductions(8000, 3000, 5000, 500)))
    case Custom => None
  }

  /** `patchValue(TEMPLATES[t])`: overwrites base salary, allowances and deductions with
      the preset; every other field, including the template itself, is kept. */
  function PatchPreset(f: SalaryForm, t: Template): (r: SalaryForm)
    ensures r.structureTemplate == f.structureTemplate
    ensures r.paymentFrequency == f.paymentFrequency && r.effectiveDate == f.effectiveDate
    ensures Preset(t) == None ==> r == f
  {
    match Preset(t)
    case None => f
    case Some((base, a, d)) =>
      f.(baseSalary := Some(base), housing := Some(a.housing), transport := Some(a.transport),
         bonus := Some(a.bonus), federalTax := Some(d.federalTax), stateTax := Some(d.stateTax),
         healthInsurance := Some(d.healthInsurance), other := Some(d.other))
  }

  /** The form's totals after the 'Tech Standard' preset are gross 120000, deductions
      23000 and net 97000, whatever the form held before. */
  lemma TechStandardTotals(f: SalaryForm)
    ensures GrossPay(PatchPreset(f, TechStandard)) == 120000
    ensures TotalDeductions(PatchPreset(f, TechStandard)) == 23000
    ensures NetPay(PatchPreset(f, TechStandard)) == 97000
  {
  }

  /** The form's totals after the 'Sales Commission' preset: gross 100000, deductions
      16500, net 83500. */
  lemma SalesCommissionTotals(f: SalaryForm)
    ensures GrossPay(PatchPreset(f, SalesCommission)) == 100000
    ensures TotalDeductions(PatchPreset(f, SalesCommission)) == 16500
    ensures NetPay(PatchPreset(f, SalesCommission)) == 83500
  {
  }

  /** `patchValue(details)`: the form showing a salary record. */
  function FormOf(d: SalaryDetails): SalaryForm
  {
    SalaryForm(Some(d.structureTemplate), Some(d.baseSalary), Some(d.paymentFrequency), d.effectiveDate,
               Some(d.allowances.housing), Some(d.allowances.transport), Some(d.allowances.bonus),
               Some(d.deductions.federalTax), Some(d.deductions.stateTax),
               Some(d.deductions.healthInsurance), Some(d.deductions.other))
  }

  /** `getRawValue() as SalaryDetails` on a valid form. */
  function DetailsOf(f: SalaryForm): SalaryDetails
    requires FormValid(f)
  {
    SalaryDetails(f.structureTemplate.value, f.baseSalary.value, f.paymentFrequency.value, f.effectiveDate,
                  Allowances(f.housing.value, f.transport.value, f.bonus.value),
                  Deductions(f.federalTax.value, f.stateTax.value, f.healthInsurance.value, f.other.value))
  }

  /** Salary details the validators accept: amounts at least 0, a date filled in. */
  predicate DetailsValid(d: SalaryDetails)
  {
    && d.baseSalary >= 0 && d.effectiveDate != ""
    && d.allowances.housing >= 0 && d.allowances.transport >= 0 && d.allowances.bonus >= 0
    && d.deductions.federalTax >= 0 && d.deductions.stateTax >= 0
    && d.deductions.healthInsurance >= 0 && d.deductions.other >= 0
  }

  /** Showing a record in the form and reading it back loses nothing, and a valid
      form is exactly the display of the record it saves. */
  lemma FormDetailsRoundTrip(d: SalaryDetails, f: SalaryForm)
    ensures FormValid(FormOf(d)) <==> DetailsValid(d)
    ensures DetailsValid(d) ==> DetailsOf(FormOf(d)) == d
    ensures FormValid(f) ==> FormOf(DetailsOf(f)) == f && DetailsValid(DetailsOf(f))
  {
  }

  /** The dialog for one employee: its form and the employees it has emitted on save. */
  class AssignSalaryDialog {
    const employee: Employee
    var form: SalaryForm
    var saved: seq<Employee>

    constructor (employee: Employee)
      ensures this.employee == employee && form == InitialForm() && saved == []
    {
      this.employee := employee;
      form := InitialForm();
      saved := [];
    }

    /** Setting the template control; its `valueChanges` subscriber then patches in
        the preset of any template other than 'Custom'. */
    method SelectTemplate(t: Option<Template>)
      modifies this
      ensures form == (if t.Some? && t.value != Custom then PatchPreset(old(form).(structureTemplate := t), t.value)
                       else old(form).(structureTemplate := t))
      ensures form.paymentFrequency == old(form).paymentFrequency && form.effectiveDate == old(form).effectiveDate
      ensures saved == old(saved)
    {
      form := form.(structureTemplate := t);
      if t.Some? && t.value != Custom {
        form := PatchPreset(form, t.value);
      }
    }

    /** `ngOnInit`: patches the employee's salary details in, template first. The
        template's preset is applied and then overwritten field by field, so the form
        ends up showing the employee's own figures. */
    method NgOnInit()
      modifies this
      ensures form == FormOf(employee.salaryDetails)
      ensures saved == old(saved)
    {
      var d := employee.salaryDetails;
      SelectTemplate(Some(d.structureTemplate));
      form := form.(baseSalary := Some(d.baseSalary), paymentFrequency := Some(d.paymentFrequency),
                    effectiveDate := d.effectiveDate);
      form := form.(housing := Some(d.allowances.housing), transport := Some(d.allowances.transport),
                    bonus := Some(d.allowances.bonus));
      form := form.(federalTax := Some(d.deductions.federalTax), stateTax := Some(d.deductions.stateTax),
                    healthInsurance := Some(d.deductions.healthInsurance), other := Some(d.deductions.other));
    }

    /** Emits nothing for an invalid form; otherwise emits the employee with only the
        salary details and the salary structure name replaced. */
    method OnSave()
      modifies this
      ensures form == old(form)
      ensures !FormValid(form) ==> saved == old(saved)
      ensures FormValid(form) ==>
        saved == old(saved) + [employee.(salaryDetails := DetailsOf(form),
                                         salaryStructure := TemplateName(form.structureTemplate.value))]
    {
      if !FormValid(form) {
        return;
      }
      var structure := if form.structureTemplate.Some? then TemplateName(form.structureTemplate.value) else "Custom";
      var updated := employee.(salaryDetails := DetailsOf(form), salaryStructure := structure);
      saved := saved + [updated];
    }
  }
}
