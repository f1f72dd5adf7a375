/**
 * The retirement timeline simulator and the readiness evaluator.
 *
 * The simulator walks the years from the current age to the end age,
 * carrying four running figures (net worth, income, monthly expenses and
 * monthly holiday budget) and appending one row per year. Its contract
 * ties the result to `Timeline`, which builds the same rows from
 * `YearRow`: each year in closed form from its index and the net worth
 * it opens with. The lemmas then state what every timeline satisfies.
 */
module RetirementCalculations {
  import opened PortfolioTypes
  import opened RetirementTypes

  // ---------------------------------------------------------------------
  // Arithmetic helpers
  // ---------------------------------------------------------------------

  /** `x` raised to the whole power `n`, multiplied up from 1. */
  function Pow(x: real, n: nat): real
  {
    if n == 0 then 1.0 else Pow(x, n - 1) * x
  }

  /** A figure of `x` that has grown by the factor `f` for `n` years, one year at a time. */
  function Grown(x: real, f: real, n: nat): real {
    if n == 0 then x else Grown(x, f, n - 1) * f
  }

  /** Growing year by year is multiplying by the power of the factor. */
  lemma {:induction false} GrownIsPow(x: real, f: real, n: nat)
    ensures Grown(x, f, n) == x * Pow(f, n)
  {
    if n > 0 {
      GrownIsPow(x, f, n - 1);
      assert x * Pow(f, n - 1) * f == x * (Pow(f, n - 1) * f);
    }
  }

  function MaxReal(a: real, b: real): real { if a >= b then a else b }
  function MinReal(a: real, b: real): real { if a <= b then a else b }
  function MaxInt(a: int, b: int): int { if a >= b then a else b }
  function MinInt(a: int, b: int): int { if a <= b then a else b }

  /** The yearly growth factor of a percentage rate. */
  function Growth(rate: real): (f: real)
    ensures (f - 1.0) * 100.0 == rate
    ensures f > 1.0 <==> rate > 0.0
  {
    1.0 + rate / 100.0
  }

  // ---------------------------------------------------------------------
  // The timeline, row by row
  // ---------------------------------------------------------------------

  /** The last simulated age: 90, or 25 years past retirement if that is later. */
  function EndAge(a: RetirementAssumptions): (e: int)
    ensures e >= 90 && e >= a.retirementAge + 25
    ensures e == 90 || e == a.retirementAge + 25
  {
    MaxInt(90, a.retirementAge + 25)
  }

  /** The number of working years before retirement. */
  function WorkingYears(a: RetirementAssumptions): nat
    requires a.currentAge <= a.retirementAge
  {
    a.retirementAge - a.currentAge
  }

  /** The income of every retired year: the final working income times the replacement ratio. */
  function RetiredIncome(a: RetirementAssumptions): (r: real)
    requires a.currentAge <= a.retirementAge
    ensures r == Grown(a.currentIncome, Growth(a.annualIncomeGrowth), WorkingYears(a))
                 * (a.retirementIncomeReplacement / 100.0)
  {
    GrownIsPow(a.currentIncome, Growth(a.annualIncomeGrowth), WorkingYears(a));
    a.currentIncome * Pow(Growth(a.annualIncomeGrowth), WorkingYears(a))
      * (a.retirementIncomeReplacement / 100.0)
  }

  /**
   * Year `i` of the plan `a` in closed form, given the net worth `opening`
   * it starts from. Investment returns enter the new net worth twice: once
   * on their own and once inside the net cash flow.
   */
  function YearRow(a: RetirementAssumptions, i: nat, opening: real): RetirementData
    requires a.currentAge <= a.retirementAge
  {
    var age := a.currentAge + i;
    var retired := age >= a.retirementAge;
    var income := if retired then RetiredIncome(a) else Grown(a.currentIncome, Growth(a.annualIncomeGrowth), i);
    var expenses := Grown(a.monthlyExpenses, Growth(a.expenseGrowthRate), i) * 12.0;
    var holiday := Grown(a.monthlyHolidayBudget, Growth(a.holidayGrowthRate), i) * 12.0;
    var savings := if retired then 0.0 else a.monthlySavingsAmount * 12.0;
    var investmentReturns := opening * (a.investmentReturn / 100.0);
    var netCashFlow := income + investmentReturns - (expenses + holiday);
    RetirementData(age, income, expenses, savings, investmentReturns, holiday, netCashFlow,
                   MaxReal(0.0, opening + investmentReturns + savings + netCashFlow), a.retirementAge, retired)
  }

  /** Net worth at the start of year `i` of `t`: the savings for year 0, else the previous row's net worth. */
  function OpeningBalance(a: RetirementAssumptions, t: seq<RetirementData>, i: nat): real
    requires i <= |t|
  {
    if i == 0 then a.currentSavings else t[i - 1].netWorth
  }

  /** The net worth carried into the year after `t`: the starting savings, else the last row's. */
  function Closing(a: RetirementAssumptions, t: seq<RetirementData>): real {
    if t == [] then a.currentSavings else t[|t| - 1].netWorth
  }

  /** The first `n` years of the plan, each opened on the net worth the previous one closed with. */
  function Timeline(a: RetirementAssumptions, n: nat): (t: seq<RetirementData>)
    requires a.currentAge <= a.retirementAge
    ensures |t| == n
  {
    if n == 0 then []
    else
      var p := Timeline(a, n - 1);
      p + [YearRow(a, n - 1, Closing(a, p))]
  }

  /**
   * The number of rows the simulator produces, one per age up to the end
   * age: it reaches age 90 and runs at least 25 years past retirement.
   */
  function TimelineLength(a: RetirementAssumptions): (n: nat)
    requires a.currentAge <= a.retirementAge
    ensures a.currentAge + n - 1 >= 90
    ensures n > a.retirementAge - a.currentAge + 25
    ensures a.currentAge + n - 1 == 90 || a.currentAge + n - 1 == a.retirementAge + 25
  {
    EndAge(a) - a.currentAge + 1
  }

  // ---------------------------------------------------------------------
  // The simulator
  // ---------------------------------------------------------------------

  /**
   * Simulates the plan year by year from the current age to the end age,
   * carrying the net worth, the income and the two monthly budgets.
   */
  method CalculateRetirementTimeline(a: RetirementAssumptions) returns (timeline: seq<RetirementData>)
    requires a.currentAge <= a.retirementAge
    ensures timeline == Timeline(a, TimelineLength(a))
  {
    timeline := [];
    var currentNetWorth := a.currentSavings;
    var currentIncome := a.currentIncome;
    var currentMonthlyExpenses := a.monthlyExpenses;
    var currentMonthlyHolidayBudget := a.monthlyHolidayBudget;
    var endAge := MaxInt(90, a.retirementAge + 25);
    var age := a.currentAge;
    while age <= endAge
      invariant a.currentAge <= age <= endAge + 1
      invariant |timeline| == age - a.currentAge
      invariant timeline == Timeline(a, |timeline|)
      invariant currentNetWorth == Closing(a, timeline)
      invariant Figures(a, |timeline|, currentIncome, currentMonthlyExpenses, currentMonthlyHolidayBudget)
    {
      var year := |timeline|;
      var isRetired := age >= a.retirementAge;
      var row := SimulateYear(a, year, age, currentNetWorth, currentIncome,
                              currentMonthlyExpenses, currentMonthlyHolidayBudget);
      currentNetWorth := row.netWorth;
      TimelineSnoc(a, timeline, row);
      timeline := timeline + [row];

      currentIncome, currentMonthlyExpenses, currentMonthlyHolidayBudget :=
        GrowFigures(a, year, isRetired, currentIncome, currentMonthlyExpenses, currentMonthlyHolidayBudget);
      age := age + 1;
    }
  }

  /**
   * One pass of the simulation loop: the row of year `i` (at age `age`),
   * built from the running figures and the net worth the year opens with.
   * When the running figures are those of year `i`, the row is that year.
   */
  method SimulateYear(a: RetirementAssumptions, i: nat, age: int, currentNetWorth: real,
                      currentIncome: real, currentMonthlyExpenses: real, currentMonthlyHolidayBudget: real)
    returns (row: RetirementData)
    requires a.currentAge <= a.retirementAge
    requires age == a.currentAge + i
    requires Figures(a, i, currentIncome, currentMonthlyExpenses, currentMonthlyHolidayBudget)
    ensures row == YearRow(a, i, currentNetWorth)
  {
    var isRetired := age >= a.retirementAge;

    var yearlyIncome := 0.0;
    if !isRetired {
      yearlyIncome := currentIncome;
    } else {
      var finalWorkingIncome := a.currentIncome
        * Pow(Growth(a.annualIncomeGrowth), a.retirementAge - a.currentAge);
      yearlyIncome := finalWorkingIncome * (a.retirementIncomeReplacement / 100.0);
    }
    var yearlyExpenses := currentMonthlyExpenses * 12.0;
    var yearlyHolidayExpenses := currentMonthlyHolidayBudget * 12.0;
    var yearlySavings := 0.0;
    if !isRetired {
      yearlySavings := a.monthlySavingsAmount * 12.0;
    }
    var investmentReturns := currentNetWorth * (a.investmentReturn / 100.0);
    var totalIncome := yearlyIncome + investmentReturns;
    var totalExpenses := yearlyExpenses + yearlyHolidayExpenses;
    var netCashFlow := totalIncome - totalExpenses;
    var carryover := netCashFlow;
    var netWorth := MaxReal(0.0, currentNetWorth + investmentReturns + yearlySavings + netCashFlow);

    row := RetirementData(age, yearlyIncome, yearlyExpenses, yearlySavings, investmentReturns,
                          yearlyHolidayExpenses, carryover, netWorth, a.retirementAge, isRetired);
  }

  /**
   * The running figures of year `i`: the income (frozen at its last working
   * value once retired) and the two monthly budgets, each grown year by year.
   */
  ghost predicate Figures(a: RetirementAssumptions, i: nat, income: real, monthlyExpenses: real, monthlyHoliday: real)
    requires a.currentAge <= a.retirementAge
  {
    && income == Grown(a.currentIncome, Growth(a.annualIncomeGrowth), MinInt(i, WorkingYears(a)))
    && monthlyExpenses == Grown(a.monthlyExpenses, Growth(a.expenseGrowthRate), i)
    && monthlyHoliday == Grown(a.monthlyHolidayBudget, Growth(a.holidayGrowthRate), i)
  }

  /**
   * The end of one pass of the simulation loop: the income grows only
   * while working, the two monthly budgets grow every year. It turns the
   * running figures of year `i` into those of year `i + 1`.
   */
  method GrowFigures(a: RetirementAssumptions, i: nat, isRetired: bool,
                     income: real, monthlyExpenses: real, monthlyHoliday: real)
    returns (income': real, monthlyExpenses': real, monthlyHoliday': real)
    requires a.currentAge <= a.retirementAge
    requires isRetired == (a.currentAge + i >= a.retirementAge)
    requires Figures(a, i, income, monthlyExpenses, monthlyHoliday)
    ensures Figures(a, i + 1, income', monthlyExpenses', monthlyHoliday')
  {
    income' := income;
    if !isRetired {
      income' := income * Growth(a.annualIncomeGrowth);
    }
    monthlyExpenses' := monthlyExpenses * Growth(a.expenseGrowthRate);
    monthlyHoliday' := monthlyHoliday * Growth(a.holidayGrowthRate);
  }

  /** Appending the year the simulator builds extends the timeline by one year. */
  lemma TimelineSnoc(a: RetirementAssumptions, t: seq<RetirementData>, row: RetirementData)
    requires a.currentAge <= a.retirementAge
    requires t == Timeline(a, |t|)
    requires row == YearRow(a, |t|, Closing(a, t))
    ensures t + [row] == Timeline(a, |t| + 1)
    ensures Closing(a, t + [row]) == row.netWorth
  {
  }

  // ---------------------------------------------------------------------
  // What every timeline satisfies
  // ---------------------------------------------------------------------

  /** A shorter timeline is a prefix of a longer one: later years never rewrite earlier ones. */
  lemma {:induction false} TimelinePrefix(a: RetirementAssumptions, m: nat, n: nat)
    requires a.currentAge <= a.retirementAge
    requires m <= n
    ensures Timeline(a, n)[..m] == Timeline(a, m)
  {
    if m < n {
      TimelinePrefix(a, m, n - 1);
      assert Timeline(a, n)[..n - 1] == Timeline(a, n - 1);
      assert Timeline(a, n)[..m] == Timeline(a, n)[..n - 1][..m];
    } else {
      assert Timeline(a, n)[..m] == Timeline(a, n);
    }
  }

  /** Row `i` of a timeline is year `i` of the plan, opened on the previous row's net worth. */
  lemma TimelineAt(a: RetirementAssumptions, n: nat, i: nat)
    requires a.currentAge <= a.retirementAge
    requires i < n
    ensures Timeline(a, n)[i] == YearRow(a, i, OpeningBalance(a, Timeline(a, n), i))
  {
    TimelinePrefix(a, i + 1, n);
    var t := Timeline(a, n);
    assert t[i] == Timeline(a, i + 1)[i];
    if i > 0 {
      TimelinePrefix(a, i, n);
      assert t[i - 1] == Timeline(a, i)[i - 1];
    }
  }

  /**
   * Every row carries its own age, counting up by one from the current
   * age, the plan's retirement age, the retired flag exactly from the
   * retirement age on, savings only while working, and a net worth that
   * is never negative.
   */
  lemma TimelineRows(a: RetirementAssumptions, n: nat)
    requires a.currentAge <= a.retirementAge
    ensures forall i :: 0 <= i < n ==>
      && Timeline(a, n)[i].age == a.currentAge + i
      && Timeline(a, n)[i].retirementAge == a.retirementAge
      && (Timeline(a, n)[i].isRetired <==> Timeline(a, n)[i].age >= a.retirementAge)
      && Timeline(a, n)[i].savings == (if Timeline(a, n)[i].isRetired then 0.0 else a.monthlySavingsAmount * 12.0)
      && Timeline(a, n)[i].netWorth >= 0.0
  {
    forall i | 0 <= i < n
      ensures && Timeline(a, n)[i].age == a.currentAge + i
              && Timeline(a, n)[i].retirementAge == a.retirementAge
              && (Timeline(a, n)[i].isRetired <==> Timeline(a, n)[i].age >= a.retirementAge)
              && Timeline(a, n)[i].savings == (if Timeline(a, n)[i].isRetired then 0.0 else a.monthlySavingsAmount * 12.0)
              && Timeline(a, n)[i].netWorth >= 0.0
    {
      TimelineAt(a, n, i);
    }
  }

  /** Once a row is retired, every later row is retired too. */
  lemma RetiredStaysRetired(a: RetirementAssumptions, n: nat, i: nat, j: nat)
    requires a.currentAge <= a.retirementAge
    requires i <= j < n
    requires Timeline(a, n)[i].isRetired
    ensures Timeline(a, n)[j].isRetired
  {
    TimelineAt(a, n, i);
    TimelineAt(a, n, j);
  }

  /** Each row's net worth is the previous one's (or the savings) moved on by that year's flows. */
  lemma NetWorthRecurrence(a: RetirementAssumptions, n: nat, i: nat)
    requires a.currentAge <= a.retirementAge
    requires i < n
    ensures Timeline(a, n)[i].netWorth
              == MaxReal(0.0, OpeningBalance(a, Timeline(a, n), i) + 2.0 * Timeline(a, n)[i].investmentReturns
                              + Timeline(a, n)[i].savings + Timeline(a, n)[i].income
                              - Timeline(a, n)[i].expenses - Timeline(a, n)[i].holidayExpenses)
  {
    var t := Timeline(a, n);
    TimelineAt(a, n, i);
    YearFlows(a, i, OpeningBalance(a, t, i));
  }

  /** The flows of one year, from the net worth `opening` it starts from. */
  lemma YearFlows(a: RetirementAssumptions, i: nat, opening: real)
    requires a.currentAge <= a.retirementAge
    ensures var r := YearRow(a, i, opening);
      && r.investmentReturns == opening * (a.investmentReturn / 100.0)
      && r.carryover == r.income + r.investmentReturns - (r.expenses + r.holidayExpenses)
      && r.netWorth == MaxReal(0.0, opening + r.investmentReturns + r.savings + r.carryover)
  {
  }

  /**
   * The year's investment return is counted twice in the new net worth:
   * the opening balance grows by twice the return rate before savings,
   * income and spending are applied.
   */
  lemma ReturnsCountedTwice(a: RetirementAssumptions, i: nat, opening: real)
    requires a.currentAge <= a.retirementAge
    ensures var r := YearRow(a, i, opening);
      r.netWorth == MaxReal(0.0, opening * (1.0 + 2.0 * (a.investmentReturn / 100.0))
                                 + r.savings + r.income - r.expenses - r.holidayExpenses)
  {
  }

  /** A working year's income in closed form: it has compounded once per year. */
  lemma WorkingIncomeClosedForm(a: RetirementAssumptions, i: nat, opening: real)
    requires a.currentAge <= a.retirementAge
    requires a.currentAge + i < a.retirementAge
    ensures YearRow(a, i, opening).income == a.currentIncome * Pow(Growth(a.annualIncomeGrowth), i)
  {
    assert YearRow(a, i, opening).income == Grown(a.currentIncome, Growth(a.annualIncomeGrowth), i);
    GrownIsPow(a.currentIncome, Growth(a.annualIncomeGrowth), i);
  }

  /**
   * A retired year's income in closed form: the income after all working
   * years, times the replacement ratio.
   */
  lemma RetiredIncomeClosedForm(a: RetirementAssumptions, i: nat, opening: real)
    requires a.currentAge <= a.retirementAge
    requires a.currentAge + i >= a.retirementAge
    ensures YearRow(a, i, opening).income
              == a.currentIncome * Pow(Growth(a.annualIncomeGrowth), a.retirementAge - a.currentAge)
                 * (a.retirementIncomeReplacement / 100.0)
  {
  }

  /** Both budgets in closed form: they compound once per year, working or retired. */
  lemma BudgetsClosedForm(a: RetirementAssumptions, i: nat, opening: real)
    requires a.currentAge <= a.retirementAge
    ensures YearRow(a, i, opening).expenses == a.monthlyExpenses * Pow(Growth(a.expenseGrowthRate), i) * 12.0
    ensures YearRow(a, i, opening).holidayExpenses
              == a.monthlyHolidayBudget * Pow(Growth(a.holidayGrowthRate), i) * 12.0
  {
    GrownIsPow(a.monthlyExpenses, Growth(a.expenseGrowthRate), i);
    GrownIsPow(a.monthlyHolidayBudget, Growth(a.holidayGrowthRate), i);
  }

  /** All retired rows have the same income; it no longer grows. */
  lemma RetiredIncomeIsFlat(a: RetirementAssumptions, n: nat, i: nat, j: nat)
    requires a.currentAge <= a.retirementAge
    requires i < n && j < n
    requires Timeline(a, n)[i].isRetired && Timeline(a, n)[j].isRetired
    ensures Timeline(a, n)[i].income == Timeline(a, n)[j].income == RetiredIncome(a)
  {
    TimelineAt(a, n, i);
    TimelineAt(a, n, j);
  }

  /** The inflation rate and the risk profile of the assumptions do not affect the timeline. */
  lemma {:induction false} TimelineIgnoresInflationAndRisk(a: RetirementAssumptions, b: RetirementAssumptions, n: nat)
    requires a.currentAge <= a.retirementAge
    requires b == a.(inflationRate := b.inflationRate, riskProfile := b.riskProfile)
    ensures Timeline(b, n) == Timeline(a, n)
  {
    if n > 0 {
      TimelineIgnoresInflationAndRisk(a, b, n - 1);
      var p := Timeline(a, n - 1);
      YearIgnoresInflationAndRisk(a, b, n - 1, Closing(a, p));
      assert Closing(b, p) == Closing(a, p);
    }
  }

  /** One year does not depend on the inflation rate or the risk profile either. */
  lemma YearIgnoresInflationAndRisk(a: RetirementAssumptions, b: RetirementAssumptions, i: nat, opening: real)
    requires a.currentAge <= a.retirementAge
    requires b == a.(inflationRate := b.inflationRate, riskProfile := b.riskProfile)
    ensures YearRow(b, i, opening) == YearRow(a, i, opening)
  {
    assert RetiredIncome(b) == RetiredIncome(a);
  }

  // ---------------------------------------------------------------------
  // The readiness evaluator
  // ---------------------------------------------------------------------

  /** The index of the first row whose age is its own retirement age, or `|t|` when there is none. */
  function FirstRetirementIndex(t: seq<RetirementData>): (k: nat)
    ensures k <= |t|
    ensures forall j :: 0 <= j < k ==> t[j].age != t[j].retirementAge
    ensures k < |t| ==> t[k].age == t[k].retirementAge
  {
    if t == [] then 0
    else if t[0].age == t[0].retirementAge then 0
    else 1 + FirstRetirementIndex(t[1..])
  }

  /** The retirement-transition row: the first row whose age is its retirement age, if any. */
  function FindRetirementRow(t: seq<RetirementData>): (r: Option<RetirementData>)
    ensures r.Some? <==> exists j :: 0 <= j < |t| && t[j].age == t[j].retirementAge
    ensures r.Some? ==> r.value in t && r.value.age == r.value.retirementAge
    ensures r.Some? ==> r.value == t[FirstRetirementIndex(t)]
  {
    var k := FirstRetirementIndex(t);
    if k < |t| then Some(t[k]) else None
  }

  /**
   * The recommended savings rate is a number: whenever it is computed
   * (a retirement row exists and the final net worth is not positive),
   * the first row's income times the years to retirement is not zero.
   */
  predicate RateDefined(t: seq<RetirementData>) {
    var found := FindRetirementRow(t);
    found.None? || t[|t| - 1].netWorth > 0.0
      || t[0].income * ((found.value.retirementAge - t[0].age) as real) != 0.0
  }

  /**
   * The verdict on a timeline: ready when the final net worth is positive;
   * otherwise the shortfall is the final deficit and the recommended
   * savings rate is that deficit as a percentage of the first year's
   * income over the years to retirement, capped at 50. Without a
   * retirement row (in particular for an empty timeline) the verdict is
   * not ready, with nothing to recommend.
   */
  function CalculateRetirementReadiness(t: seq<RetirementData>): (r: Readiness)
    requires RateDefined(t)
    ensures FindRetirementRow(t).None? ==> r == Readiness(false, 0.0, 0.0)
    ensures FindRetirementRow(t).Some? ==> (r.isReady <==> t[|t| - 1].netWorth > 0.0)
    ensures r.shortfall >= 0.0
    ensures r.isReady ==> r.shortfall == 0.0 && r.recommendedSavingsRate == 0.0
    ensures FindRetirementRow(t).Some? && !r.isReady ==> r.shortfall == -t[|t| - 1].netWorth
    ensures r.recommendedSavingsRate <= 50.0
  {
    var retirementData := FindRetirementRow(t);
    if retirementData.None? || |t| == 0 then Readiness(false, 0.0, 0.0)
    else
      var finalData := t[|t| - 1];
      var isReady := finalData.netWorth > 0.0;
      var shortfall := MaxReal(0.0, -finalData.netWorth);
      var yearsToRetirement := retirementData.value.retirementAge - t[0].age;
      var currentIncome := t[0].income;
      var recommendedSavingsRate :=
        if isReady then 0.0
        else MinReal(50.0, (shortfall / (currentIncome * (yearsToRetirement as real))) * 100.0);
      Readiness(isReady, shortfall, recommendedSavingsRate)
  }

  /** In a simulated timeline the retirement row is the one at the retirement age. */
  lemma RetirementRowOfTimeline(a: RetirementAssumptions)
    requires a.currentAge <= a.retirementAge
    ensures var t := Timeline(a, TimelineLength(a));
      && FirstRetirementIndex(t) == a.retirementAge - a.currentAge
      && FindRetirementRow(t) == Some(t[a.retirementAge - a.currentAge])
  {
    var n := TimelineLength(a);
    var t := Timeline(a, n);
    var w := a.retirementAge - a.currentAge;
    TimelineRows(a, n);
    assert t[w].age == t[w].retirementAge;
  }

  /**
   * The savings rate of a simulated timeline is defined exactly when the
   * final net worth is positive or there is a working year with a non-zero
   * income; a plan that starts at the retirement age with nothing left
   * has no rate.
   */
  lemma RateDefinedForTimeline(a: RetirementAssumptions)
    requires a.currentAge <= a.retirementAge
    ensures var t := Timeline(a, TimelineLength(a));
      RateDefined(t) <==> (t[|t| - 1].netWorth > 0.0
                           || (a.currentAge < a.retirementAge && a.currentIncome != 0.0))
  {
    var n := TimelineLength(a);
    var t := Timeline(a, n);
    RetirementRowOfTimeline(a);
    TimelineRows(a, n);
    TimelineAt(a, n, 0);
    if a.currentAge < a.retirementAge {
      assert t[0].income == a.currentIncome;
    }
  }

  /**
   * On a simulated timeline the shortfall is always 0 and so is the
   * recommended rate, because net worth never goes below 0: the verdict
   * reduces to whether the final net worth is positive.
   */
  lemma ReadinessOfTimeline(a: RetirementAssumptions)
    requires a.currentAge <= a.retirementAge
    requires RateDefined(Timeline(a, TimelineLength(a)))
    ensures var t := Timeline(a, TimelineLength(a));
      CalculateRetirementReadiness(t) == Readiness(t[|t| - 1].netWorth > 0.0, 0.0, 0.0)
  {
    var n := TimelineLength(a);
    RetirementRowOfTimeline(a);
    TimelineRows(a, n);
  }

  // ---------------------------------------------------------------------
  // A worked plan
  // ---------------------------------------------------------------------

  /** A plan from age 30 to 65 on an income of 50000, with the figures of the planning form's initial state. */
  function ExamplePlan(): RetirementAssumptions {
    RetirementAssumptions(30, 65, 50000.0, 3.0, 2900.0, 2.5, 10000.0, 625.0, 7.0, 415.0, 2.0, 2.5, 70.0, Balanced)
  }

  /**
   * The example plan runs for 61 years, and its first year is a working
   * year with 7500 saved and 700 earned on the starting savings (in any
   * prefix of its timeline that holds that year).
   */
  lemma ExamplePlanFirstYear(a: RetirementAssumptions, n: nat)
    requires a == ExamplePlan()
    requires 1 <= n
    ensures TimelineLength(a) == 61
    ensures var t := Timeline(a, n);
      t[0].age == 30 && !t[0].isRetired && t[0].savings == 7500.0 && t[0].investmentReturns == 700.0
  {
    TimelineAt(a, n, 0);
  }

  /**
   * The example plan's year at age 65 is retired, on 70% of the income
   * compounded at 3% for 35 years (in any prefix of its timeline that holds that year).
   */
  lemma ExamplePlanRetirementYear(a: RetirementAssumptions, n: nat)
    requires a == ExamplePlan()
    requires 36 <= n
    ensures var t := Timeline(a, n);
      && t[35].age == 65 && t[35].isRetired
      && t[35].income == 50000.0 * Pow(1.03, 35) * 0.7
  {
    TimelineAt(a, n, 35);
    ExampleRetiredIncome(a);
  }

  /** The example plan's retired income, with the growth factor and the working years written out. */
  lemma ExampleRetiredIncome(a: RetirementAssumptions)
    requires a == ExamplePlan()
    ensures RetiredIncome(a) == 50000.0 * Pow(1.03, 35) * 0.7
  {
    assert Growth(a.annualIncomeGrowth) == 1.03;
    assert WorkingYears(a) == 35;
  }
}
