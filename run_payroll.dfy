/** The run-payroll screen: a form choosing the pay period and country, a calculation
    that fills in a computation summary, an approval, and short-lived notices. Each
    timer callback of the screen is a completion step of its own here. Amounts are
    whole currency units. */
module RunPayroll {
  import opened Seqs

  datatype ComputationSummary = ComputationSummary(
    grossSalary: int,
    allowances: int,
    statutoryDeductions: int,
    otherDeductions: int,
    netPay: int)

  datatype RunDetails = RunDetails(payDate: string, employees: nat, totalCost: int)

  datatype RunForm = RunForm(payPeriod: string, country: string, currency: string, salaryStructure: string)

  /** The form as built and as reset: no period or country, US dollars, all salary
      structures. */
  function BlankForm(): RunForm
  {
    RunForm("", "", "USD", "All")
  }

  /** The form's validators: the pay period and the country are required. */
  predicate FormValid(f: RunForm)
  {
    f.payPeriod != "" && f.country != ""
  }

  /** The summary's figures agree with each other and with the run's total cost: net
      pay is gross salary plus allowances less both kinds of deduction, and the cost
      to the employer is gross salary plus allowances less statutory deductions. */
  predicate Consistent(s: ComputationSummary, d: RunDetails)
  {
    && s.netPay == s.grossSalary + s.allowances - s.statutoryDeductions - s.otherDeductions
    && d.totalCost == s.grossSalary + s.allowances - s.statutoryDeductions
  }

  /** The figures the calculation reports. */
  function CalculatedSummary(): ComputationSummary
  {
    ComputationSummary(312450, 48750, 62450, 12350, 286400)
  }

  function CalculatedDetails(): RunDetails
  {
    RunDetails("Dec 31, 2024", 158, 298750)
  }

  /** The reported figures add up, and so do the zeros shown before any calculation. */
  lemma ReportedFiguresAddUp()
    ensures Consistent(CalculatedSummary(), CalculatedDetails())
    ensures Consistent(ComputationSummary(0, 0, 0, 0, 0), RunDetails("", 0, 0))
  {
  }

  const DraftSaved: string := "Payroll run has been saved as a draft."
  const SentForApproval: string := "Payroll has been sent for approval."
  const DownloadingPayslips: string := "Downloading payslips..."

  /** The screen's state: the four progress flags, the notice shown, the figures and
      the form (with whether its errors are shown). */
  class RunPayrollScreen {
    var isCalculating: bool
    var calculationDone: bool
    var isApproving: bool
    var isApproved: bool
    var toastMessage: Option<string>
    var computationSummary: ComputationSummary
    var runDetails: RunDetails
    var form: RunForm
    var touched: bool

    /** A calculation is never both running and done, and the figures shown always add
        up. */
    ghost predicate Valid()
      reads this
    {
      !(isCalculating && calculationDone) && Consistent(computationSummary, runDetails)
    }

    constructor ()
      ensures Valid()
      ensures !isCalculating && !calculationDone && !isApproving && !isApproved && toastMessage == None
      ensures computationSummary == ComputationSummary(0, 0, 0, 0, 0) && runDetails == RunDetails("", 0, 0)
      ensures form == BlankForm() && !touched
    {
      isCalculating, calculationDone, isApproving, isApproved := false, false, false, false;
      toastMessage := None;
      computationSummary := ComputationSummary(0, 0, 0, 0, 0);
      runDetails := RunDetails("", 0, 0);
      form := BlankForm();
      touched := false;
    }

    /** The user editing the form. */
    method EditForm(f: RunForm)
      requires Valid()
      modifies this
      ensures Valid() && form == f
      ensures isCalculating == old(isCalculating) && calculationDone == old(calculationDone)
      ensures isApproving == old(isApproving) && isApproved == old(isApproved) && toastMessage == old(toastMessage)
      ensures computationSummary == old(computationSummary) && runDetails == old(runDetails) && touched == old(touched)
    {
      form := f;
    }

    /** An invalid form only gets its errors shown; a valid one starts the calculation. */
    method CalculatePayroll()
      requires Valid()
      modifies this
      ensures Valid()
      ensures !FormValid(form) ==> touched && isCalculating == old(isCalculating) && calculationDone == old(calculationDone)
      ensures FormValid(form) ==> isCalculating && !calculationDone && touched == old(touched)
      ensures form == old(form) && computationSummary == old(computationSummary) && runDetails == old(runDetails)
      ensures isApproving == old(isApproving) && isApproved == old(isApproved) && toastMessage == old(toastMessage)
    {
      if !FormValid(form) {
        touched := true;
        return;
      }
      isCalculating := true;
      calculationDone := false;
    }

    /** The calculation's timer firing: the figures are filled in and the calculation
        is done. */
    method CompleteCalculation()
      requires Valid()
      modifies this
      ensures Valid()
      ensures computationSummary == CalculatedSummary() && runDetails == CalculatedDetails()
      ensures !isCalculating && calculationDone
      ensures isApproving == old(isApproving) && isApproved == old(isApproved) && toastMessage == old(toastMessage)
      ensures form == old(form) && touched == old(touched)
    {
      computationSummary := CalculatedSummary();
      runDetails := CalculatedDetails();
      isCalculating := false;
      calculationDone := true;
      assert computationSummary.netPay == 312450 + 48750 - 62450 - 12350;
      assert runDetails.totalCost == 312450 + 48750 - 62450;
      assert Consistent(computationSummary, runDetails);
    }

    method ApprovePayroll()
      requires Valid()
      modifies this
      ensures Valid() && isApproving
      ensures isApproved == old(isApproved) && isCalculating == old(isCalculating)
      ensures calculationDone == old(calculationDone) && toastMessage == old(toastMessage)
      ensures computationSummary == old(computationSummary) && runDetails == old(runDetails)
      ensures form == old(form) && touched == old(touched)
    {
      isApproving := true;
    }

    /** The approval's timer firing. */
    method CompleteApproval()
      requires Valid()
      modifies this
      ensures Valid() && !isApproving && isApproved
      ensures isCalculating == old(isCalculating) && calculationDone == old(calculationDone)
      ensures toastMessage == old(toastMessage)
      ensures computationSummary == old(computationSummary) && runDetails == old(runDetails)
      ensures form == old(form) && touched == old(touched)
    {
      isApproving := false;
      isApproved := true;
    }

    method ShowToast(message: string)
      requires Valid()
      modifies this
      ensures Valid() && toastMessage == Some(message)
      ensures isCalculating == old(isCalculating) && calculationDone == old(calculationDone)
      ensures isApproving == old(isApproving) && isApproved == old(isApproved)
      ensures computationSummary == old(computationSummary) && runDetails == old(runDetails)
      ensures form == old(form) && touched == old(touched)
    {
      toastMessage := Some(message);
    }

    /** The notice's timer firing. */
    method ClearToast()
      requires Valid()
      modifies this
      ensures Valid() && toastMessage == None
      ensures isCalculating == old(isCalculating) && calculationDone == old(calculationDone)
      ensures isApproving == old(isApproving) && isApproved == old(isApproved)
      ensures computationSummary == old(computationSummary) && runDetails == old(runDetails)
      ensures form == old(form) && touched == old(touched)
    {
      toastMessage := None;
    }

    method SaveAsDraft()
      requires Valid()
      modifies this
      ensures Valid() && toastMessage == Some(DraftSaved)
      ensures isCalculating == old(isCalculating) && calculationDone == old(calculationDone)
      ensures isApproving == old(isApproving) && isApproved == old(isApproved)
      ensures computationSummary == old(computationSummary) && runDetails == old(runDetails)
      ensures form == old(form) && touched == old(touched)
    {
      ShowToast(DraftSaved);
    }

    method SendForApproval()
      requires Valid()
      modifies this
      ensures Valid() && toastMessage == Some(SentForApproval)
      ensures isCalculating == old(isCalculating) && calculationDone == old(calculationDone)
      ensures isApproving == old(isApproving) && isApproved == old(isApproved)
      ensures computationSummary == old(computationSummary) && runDetails == old(runDetails)
      ensures form == old(form) && touched == old(touched)
    {
      ShowToast(SentForApproval);
    }

    method DownloadPayslips()
      requires Valid()
      modifies this
      ensures Valid() && toastMessage == Some(DownloadingPayslips)
      ensures isCalculating == old(isCalculating) && calculationDone == old(calculationDone)
      ensures isApproving == old(isApproving) && isApproved == old(isApproved)
      ensures computationSummary == old(computationSummary) && runDetails == old(runDetails)
      ensures form == old(form) && touched == old(touched)
    {
      ShowToast(DownloadingPayslips);
    }

    /** Clears the four flags and resets the form to blank and untouched; the figures
        of the last calculation and any notice stay. */
    method ResetPayrollRun()
      requires Valid()
      modifies this
      ensures Valid()
      ensures !isCalculating && !calculationDone && !isApproving && !isApproved
      ensures form == BlankForm() && !touched
      ensures computationSummary == old(computationSummary) && runDetails == old(runDetails)
      ensures toastMessage == old(toastMessage)
    {
      isCalculating := false;
      calculationDone := false;
      isApproving := false;
      isApproved := false;
      form := BlankForm();
      touched := false;
    }
  }
}
