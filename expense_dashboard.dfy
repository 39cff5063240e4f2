/** The expense dashboard's budget card: the month's spend as a whole percentage of
    the monthly budget. */
module ExpenseDashboard {
  import opened Ratios

  const TotalMonthlySpend: int := 145000
  const MonthlyBudget: int := 200000

  /** `budgetUtilization`: 0 for a zero budget, otherwise spend over budget as a
      percentage rounded half up (`Math.round`, which rounds halves toward +infinity). */
  function BudgetUtilization(spend: int, budget: int): (r: int)
    ensures budget == 0 ==> r == 0
    ensures budget > 0 ==> (2 * r - 1) * budget <= 2 * (100 * spend) < (2 * r + 1) * budget
    ensures budget < 0 ==> (2 * r - 1) * budget >= 2 * (100 * spend) > (2 * r + 1) * budget
  {
    if budget == 0 then 0 else RoundDiv(100 * spend, budget)
  }

  /** For a positive budget the card shows the one whole number the rounding rule
      admits; spending nothing shows 0 and spending exactly the budget shows 100. */
  lemma UtilizationIsRoundedPercent(spend: int, budget: int, r: int)
    requires budget > 0
    requires (2 * r - 1) * budget <= 2 * (100 * spend) < (2 * r + 1) * budget
    ensures BudgetUtilization(spend, budget) == r
  {
    RoundingBracketUnique(BudgetUtilization(spend, budget), r, 100 * spend, budget);
  }

  lemma UtilizationEnds(budget: int)
    requires budget > 0
    ensures BudgetUtilization(0, budget) == 0
    ensures BudgetUtilization(budget, budget) == 100
  {
    UtilizationIsRoundedPercent(0, budget, 0);
    UtilizationIsRoundedPercent(budget, budget, 100);
  }

  /** Against a fixed positive budget, spending more never shows a lower percentage. */
  lemma UtilizationMonotone(s1: int, s2: int, budget: int)
    requires budget > 0 && s1 <= s2
    ensures BudgetUtilization(s1, budget) <= BudgetUtilization(s2, budget)
  {
    RoundDivMonotone(100 * s1, 100 * s2, budget);
  }

  /** The card as first shown: 145000 of 200000 is 72.5%, shown as 73. */
  lemma InitialUtilization()
    ensures BudgetUtilization(TotalMonthlySpend, MonthlyBudget) == 73
  {
    UtilizationIsRoundedPercent(TotalMonthlySpend, MonthlyBudget, 73);
  }
}
