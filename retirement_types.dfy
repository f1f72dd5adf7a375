/** Record types of the retirement side: the planning assumptions, one timeline row, the verdict. */
module RetirementTypes {
  import opened PortfolioTypes

  /**
   * The planning inputs. Ages are whole years; money is in currency units,
   * rates and the income replacement ratio are percentages.
   */
  datatype RetirementAssumptions = RetirementAssumptions(
    currentAge: int,
    retirementAge: int,
    currentIncome: real,
    annualIncomeGrowth: real,
    monthlyExpenses: real,
    expenseGrowthRate: real,
    currentSavings: real,
    monthlySavingsAmount: real,
    investmentReturn: real,
    monthlyHolidayBudget: real,
    holidayGrowthRate: real,
    inflationRate: real,
    retirementIncomeReplacement: real,
    riskProfile: RiskProfile)

  /** One simulated year of the timeline; every money figure is yearly. */
  datatype RetirementData = RetirementData(
    age: int,
    income: real,
    expenses: real,
    savings: real,
    investmentReturns: real,
    holidayExpenses: real,
    carryover: real,
    netWorth: real,
    retirementAge: int,
    isRetired: bool)

  /** The verdict on a finished timeline. */
  datatype Readiness = Readiness(
    isReady: bool,
    shortfall: real,
    recommendedSavingsRate: real)
}
