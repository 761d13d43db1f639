/**
 * Projection and aggregation engine: the annual contribution plan, the
 * year-by-year compounding of the fund, the summary of a run and the
 * composition of the three.  The current calendar year is a parameter.
 */
module Simulation {
  import opened Constants
  import opened TaxEngine

  datatype Option<T> = None | Some(value: T) {
    function GetOr(default: T): (r: T)
      ensures Some? ==> r == value
      ensures None? ==> r == default
    {
      match this
      case Some(v) => v
      case None => default
    }
  }

  /** Annual amounts of one contribution plan. */
  datatype AnnualContributions = AnnualContributions(
    totalAnnualContribution: real,
    annualTaxSavings: real,
    annualEmployerContribution: real,
    annualVoluntaryContribution: real,
    annualAdditionalContribution: real,
    annualCashFlow: real)

  /** One simulated year: gains net of capital-gains tax, the tax, the costs and the closing value. */
  datatype YearlySnapshot = YearlySnapshot(
    year: int,
    netGain: real,
    capitalGainsTaxPaid: real,
    costs: real,
    endValue: real)

  /** The constant assumptions of one projection run. */
  datatype ProjectionInputs = ProjectionInputs(
    expectedReturnPercent: real,
    capitalGainsTaxRate: real,
    annualContribution: real,
    fundCostPercent: real,
    fundCostFixed: real)

  datatype SimulationSummary = SimulationSummary(
    finalNetAmount: real,
    totalCapitalGainsTaxPaid: real,
    totalCostsPaid: real,
    totalCapitalGains: real,
    grossTotalContribution: real,
    totalContributionsTaxAmount: real,
    netTotalContribution: real,
    contributionsTaxRate: real,
    totalEmployerContribution: real)

  const EMPTY_SUMMARY: SimulationSummary := SimulationSummary(0.0, 0.0, 0.0, 0.0, 0.0, 0.0, 0.0, 0.0, 0.0)

  /** The input record; the optional fields default to the current year and to 0 percent. */
  datatype PensionFundData = PensionFundData(
    fundName: Option<string>,
    annualSalary: real,
    fundCostPercent: real,
    fundCostFixed: real,
    stockAllocationPercent: real,
    expectedReturnPercent: real,
    yearsToRetirement: nat,
    yearOfFirstContribution: Option<int>,
    voluntaryContributionPercent: Option<real>,
    employerContributionPercent: Option<real>,
    additionalDeductibleContributionPercent: Option<real>)

  datatype SimulationResult = SimulationResult(
    fundName: Option<string>,
    capitalGainsTaxRate: real,
    annualContributions: AnnualContributions,
    yearlyData: seq<YearlySnapshot>,
    simulationSummary: SimulationSummary)

  predicate IsPercent(x: real)
  {
    0.0 <= x <= 100.0
  }

  /**
   * The ranges the input form enforces before a run (non-negative salary,
   * costs and allocation, contribution percentages within [0,100]), plus an
   * allocation of at most 100 percent, which the form does not check.
   */
  predicate ValidInput(data: PensionFundData)
  {
    && data.annualSalary >= 0.0
    && data.fundCostPercent >= 0.0
    && data.fundCostFixed >= 0.0
    && IsPercent(data.stockAllocationPercent)
    && IsPercent(data.voluntaryContributionPercent.GetOr(0.0))
    && IsPercent(data.employerContributionPercent.GetOr(0.0))
    && IsPercent(data.additionalDeductibleContributionPercent.GetOr(0.0))
  }

  // ---------------------------------------------------------------------
  // Contributions
  // ---------------------------------------------------------------------

  const TFR_DIVISOR: real := 13.5

  /** The severance-pay (TFR) feed: one 13.5th of the annual salary. */
  function CalculateAnnualTFR(annualSalary: real): (r: real)
    ensures r * TFR_DIVISOR == annualSalary
    ensures annualSalary >= 0.0 ==> 0.0 <= r <= annualSalary
  {
    annualSalary / TFR_DIVISOR
  }

  /** Salary net of the employee social contribution, the base on which the deduction saves tax. */
  function TaxableIncome(c: Config, annualSalary: real): (r: real)
    requires WellFormed(c)
    ensures annualSalary >= 0.0 ==> 0.0 <= r <= annualSalary
  {
    FractionOf(annualSalary, 1.0 - c.inpsContributionRate / 100.0);
    annualSalary * (1.0 - c.inpsContributionRate / 100.0)
  }

  lemma FractionOf(x: real, f: real)
    requires 0.0 <= f <= 1.0
    ensures x >= 0.0 ==> 0.0 <= x * f <= x
  {
    if x >= 0.0 {
      ScaleLe(0.0, x, f);
      ScaleLe(f, 1.0, x);
    }
  }

  /**
   * The annual plan: the TFR feed, voluntary and employer contributions as
   * percentages of salary, an additional contribution taking a percentage of
   * whatever the two leave of the deductible ceiling, the tax that all
   * three deductible amounts save, and the saver's cash flow.
   */
  function CalculateAnnualContributions(
    c: Config,
    annualSalary: real,
    voluntaryContributionPercent: real,
    employerContributionPercent: real,
    additionalDeductibleContributionPercent: real): (r: AnnualContributions)
    requires WellFormed(c)
    ensures r.annualVoluntaryContribution * 100.0 == annualSalary * voluntaryContributionPercent
    ensures r.annualEmployerContribution * 100.0 == annualSalary * employerContributionPercent
    ensures r.annualAdditionalContribution * 100.0
      == Max(0.0, c.deductibleLimit - r.annualVoluntaryContribution - r.annualEmployerContribution) * additionalDeductibleContributionPercent
    ensures r.totalAnnualContribution
      == CalculateAnnualTFR(annualSalary) + r.annualVoluntaryContribution + r.annualEmployerContribution + r.annualAdditionalContribution
    ensures r.annualTaxSavings
      == CalculateTaxSavings(c, TaxableIncome(c, annualSalary),
                             r.annualVoluntaryContribution + r.annualEmployerContribution + r.annualAdditionalContribution)
    ensures r.annualCashFlow == r.annualTaxSavings - (r.annualVoluntaryContribution + r.annualAdditionalContribution)
  {
    var annualTFR := CalculateAnnualTFR(annualSalary);
    var annualVoluntary := (annualSalary * voluntaryContributionPercent) / 100.0;
    var annualEmployer := (annualSalary * employerContributionPercent) / 100.0;
    var remainingDeductible := Max(0.0, c.deductibleLimit - annualVoluntary - annualEmployer);
    var annualAdditional := (remainingDeductible * additionalDeductibleContributionPercent) / 100.0;
    var taxableIncome := TaxableIncome(c, annualSalary);
    var totalDeductibleContributions := annualVoluntary + annualEmployer + annualAdditional;
    var annualTaxSavings := CalculateTaxSavings(c, taxableIncome, totalDeductibleContributions);
    var totalAnnualContribution := annualTFR + totalDeductibleContributions;
    AnnualContributions(
      totalAnnualContribution,
      annualTaxSavings,
      annualEmployer,
      annualVoluntary,
      annualAdditional,
      annualTaxSavings - (annualVoluntary + annualAdditional))
  }

  /**
   * The additional contribution only fills the deductible headroom: it is 0
   * once voluntary and employer reach the ceiling, all three together never
   * pass the ceiling unless the first two already do, and at 100 percent
   * the three exactly meet it.
   */
  lemma AdditionalContributionWithinHeadroom(c: Config, salary: real, vol: real, emp: real, add: real)
    requires WellFormed(c)
    requires IsPercent(add)
    ensures var r := CalculateAnnualContributions(c, salary, vol, emp, add);
      var ve := r.annualVoluntaryContribution + r.annualEmployerContribution;
      && 0.0 <= r.annualAdditionalContribution
      && (ve >= c.deductibleLimit ==> r.annualAdditionalContribution == 0.0)
      && ve + r.annualAdditionalContribution <= Max(c.deductibleLimit, ve)
      && (add == 100.0 && ve <= c.deductibleLimit ==> ve + r.annualAdditionalContribution == c.deductibleLimit)
  {
    var r := CalculateAnnualContributions(c, salary, vol, emp, add);
    ShareOfHeadroom(
      Max(0.0, c.deductibleLimit - r.annualVoluntaryContribution - r.annualEmployerContribution),
      add, r.annualAdditionalContribution);
  }

  /** A percentage share of a non-negative headroom lies between 0 and the headroom, and is all of it at 100 percent. */
  lemma ShareOfHeadroom(headroom: real, percent: real, share: real)
    requires headroom >= 0.0 && IsPercent(percent)
    requires share * 100.0 == headroom * percent
    ensures 0.0 <= share <= headroom
    ensures headroom == 0.0 ==> share == 0.0
    ensures percent == 100.0 ==> share == headroom
  {
    ScaleLe(0.0, percent, headroom);
    ScaleLe(percent, 100.0, headroom);
    assert percent * headroom == headroom * percent;
    assert 0.0 <= share * 100.0 <= 100.0 * headroom;
    if headroom == 0.0 {
      assert headroom * percent == 0.0;
    }
    if percent == 100.0 {
      assert headroom * percent == headroom * 100.0;
    }
  }

  /**
   * For a non-negative salary and percentages, the saving is non-negative,
   * never more than the tax on the taxable income, and nothing is deducted
   * when all three percentages are 0.
   */
  lemma AnnualTaxSavingsBounds(c: Config, salary: real, vol: real, emp: real, add: real)
    requires WellFormed(c)
    requires salary >= 0.0 && vol >= 0.0 && emp >= 0.0 && add >= 0.0
    ensures var r := CalculateAnnualContributions(c, salary, vol, emp, add);
      && 0.0 <= r.annualTaxSavings <= Tax(c.taxBrackets, TaxableIncome(c, salary))
      && (vol == 0.0 && emp == 0.0 && add == 0.0 ==>
            r.annualTaxSavings == 0.0 && r.annualCashFlow == 0.0 && r.totalAnnualContribution == CalculateAnnualTFR(salary))
  {
    var r := CalculateAnnualContributions(c, salary, vol, emp, add);
    ScaleLe(0.0, salary, vol);
    ScaleLe(0.0, salary, emp);
    var headroom := Max(0.0, c.deductibleLimit - r.annualVoluntaryContribution - r.annualEmployerContribution);
    ScaleLe(0.0, headroom, add);
  }

  // ---------------------------------------------------------------------
  // Yearly projection
  // ---------------------------------------------------------------------

  /**
   * One year of the recurrence from the opening value: the return, the
   * capital-gains tax on it, the contribution, the percentage and fixed
   * costs on the total, and a closing value floored at 0.
   */
  function YearStep(p: ProjectionInputs, year: int, startingValue: real): (s: YearlySnapshot)
    ensures s.year == year
    ensures s.endValue >= 0.0
    ensures s.endValue >= startingValue + s.netGain + p.annualContribution - s.costs
  {
    var capitalGain := startingValue * (p.expectedReturnPercent / 100.0);
    var capitalGainsTaxPaid := capitalGain * (p.capitalGainsTaxRate / 100.0);
    var netGain := capitalGain - capitalGainsTaxPaid;
    var valueBeforeCost := startingValue + netGain + p.annualContribution;
    var percentageCost := valueBeforeCost * (p.fundCostPercent / 100.0);
    var totalCosts := percentageCost + p.fundCostFixed;
    var endValue := Max(0.0, valueBeforeCost - totalCosts);
    YearlySnapshot(year, netGain, capitalGainsTaxPaid, totalCosts, endValue)
  }

  /** The value a year opens with: the previous year's closing value, or 0 before the first year. */
  function OpeningValue(snapshots: seq<YearlySnapshot>): real
  {
    if snapshots == [] then 0.0 else snapshots[|snapshots| - 1].endValue
  }

  /** The first `n` years of the projection, one snapshot per calendar year from `currentYear`. */
  function Projections(p: ProjectionInputs, currentYear: int, n: nat): (r: seq<YearlySnapshot>)
    ensures |r| == n
    ensures forall i :: 0 <= i < n ==> r[i].year == currentYear + i && r[i].endValue >= 0.0
  {
    if n == 0 then
      []
    else
      var previous := Projections(p, currentYear, n - 1);
      previous + [YearStep(p, currentYear + n - 1, OpeningValue(previous))]
  }

  /** The loop of the projection: one snapshot pushed per year, its closing value carried to the next. */
  method CalculateYearlyProjections(
    yearsToRetirement: nat,
    expectedReturnPercent: real,
    capitalGainsTaxRate: real,
    annualContribution: real,
    fundCostPercent: real,
    fundCostFixed: real,
    currentYear: int) returns (snapshots: seq<YearlySnapshot>)
    ensures snapshots == Projections(
              ProjectionInputs(expectedReturnPercent, capitalGainsTaxRate, annualContribution, fundCostPercent, fundCostFixed),
              currentYear, yearsToRetirement)
    ensures |snapshots| == yearsToRetirement
    ensures forall i :: 0 <= i < |snapshots| ==> snapshots[i].year == currentYear + i && snapshots[i].endValue >= 0.0
  {
    var p := ProjectionInputs(expectedReturnPercent, capitalGainsTaxRate, annualContribution, fundCostPercent, fundCostFixed);
    snapshots := [];
    var currentValue := 0.0;
    for i := 0 to yearsToRetirement
      invariant snapshots == Projections(p, currentYear, i)
      invariant currentValue == OpeningValue(snapshots)
    {
      var startingValue := currentValue;
      var capitalGain := startingValue * (p.expectedReturnPercent / 100.0);
      var capitalGainsTaxPaid := capitalGain * (p.capitalGainsTaxRate / 100.0);
      var netGain := capitalGain - capitalGainsTaxPaid;
      var valueBeforeCost := startingValue + netGain + p.annualContribution;
      var percentageCost := valueBeforeCost * (p.fundCostPercent / 100.0);
      var totalCosts := percentageCost + p.fundCostFixed;
      var endValue := Max(0.0, valueBeforeCost - totalCosts);
      ProjectionsSnoc(p, currentYear, i);
      YearStepFrom(p, currentYear + i, startingValue, capitalGain, capitalGainsTaxPaid, valueBeforeCost, totalCosts);
      assert YearStep(p, currentYear + i, startingValue) == YearlySnapshot(currentYear + i, netGain, capitalGainsTaxPaid, totalCosts, endValue);
      snapshots := snapshots + [YearlySnapshot(currentYear + i, netGain, capitalGainsTaxPaid, totalCosts, endValue)];
      currentValue := endValue;
    }
  }

  /**
   * YearStep in terms of the loop's intermediate values: the gain, its tax,
   * the value before costs and the total costs.
   */
  lemma YearStepFrom(p: ProjectionInputs, year: int, startingValue: real,
                     capitalGain: real, capitalGainsTaxPaid: real, valueBeforeCost: real, totalCosts: real)
    requires capitalGain == startingValue * (p.expectedReturnPercent / 100.0)
    requires capitalGainsTaxPaid == capitalGain * (p.capitalGainsTaxRate / 100.0)
    requires valueBeforeCost == startingValue + (capitalGain - capitalGainsTaxPaid) + p.annualContribution
    requires totalCosts == valueBeforeCost * (p.fundCostPercent / 100.0) + p.fundCostFixed
    ensures YearStep(p, year, startingValue)
      == YearlySnapshot(year, capitalGain - capitalGainsTaxPaid, capitalGainsTaxPaid, totalCosts, Max(0.0, valueBeforeCost - totalCosts))
  {
  }

  /** One more year appends one step from the last closing value. */
  lemma ProjectionsSnoc(p: ProjectionInputs, currentYear: int, n: nat)
    ensures Projections(p, currentYear, n + 1)
      == Projections(p, currentYear, n) + [YearStep(p, currentYear + n, OpeningValue(Projections(p, currentYear, n)))]
  {
  }

  /** A shorter projection is a prefix of a longer one: later years never change earlier ones. */
  lemma {:induction false} ProjectionsPrefix(p: ProjectionInputs, currentYear: int, m: nat, n: nat)
    requires m <= n
    ensures Projections(p, currentYear, n)[..m] == Projections(p, currentYear, m)
    decreases n
  {
    if m < n {
      ProjectionsPrefix(p, currentYear, m, n - 1);
      var previous := Projections(p, currentYear, n - 1);
      assert Projections(p, currentYear, n)[..n - 1] == previous;
      assert Projections(p, currentYear, n)[..m] == previous[..m];
    } else {
      assert Projections(p, currentYear, n)[..n] == Projections(p, currentYear, n);
    }
  }

  /**
   * Each year is one step of the recurrence: year 0 opens at 0 and year
   * i+1 opens at year i's closing value.
   */
  lemma ProjectionsChain(p: ProjectionInputs, currentYear: int, n: nat, i: nat)
    requires i < n
    ensures var r := Projections(p, currentYear, n);
      r[i] == YearStep(p, currentYear + i, if i == 0 then 0.0 else r[i - 1].endValue)
  {
    var r := Projections(p, currentYear, n);
    ProjectionsPrefix(p, currentYear, i + 1, n);
    var q := Projections(p, currentYear, i + 1);
    assert r[i] == q[i];
    var previous := Projections(p, currentYear, i);
    if i > 0 {
      ProjectionsPrefix(p, currentYear, i, n);
      assert r[i - 1] == previous[i - 1];
    }
    var v := if i == 0 then 0.0 else r[i - 1].endValue;
    assert r[i] == YearStep(p, currentYear + i, v);
  }

  /**
   * With no return and no costs the fund grows by exactly one contribution
   * a year: year i closes at (i+1) contributions.
   */
  lemma ProjectionsWithoutGrowthOrCosts(p: ProjectionInputs, currentYear: int, n: nat, i: nat)
    requires p.expectedReturnPercent == 0.0 && p.fundCostPercent == 0.0 && p.fundCostFixed == 0.0
    requires p.annualContribution >= 0.0
    requires i < n
    ensures Projections(p, currentYear, n)[i].endValue == Multiple(i + 1, p.annualContribution)
  {
    ProjectionStepsWithoutGrowthOrCosts(p, currentYear, n);
    ClosingValuesAreMultiples(Projections(p, currentYear, n), p.annualContribution, i);
  }

  /** The same closing value as a product: (i+1) times the contribution. */
  lemma ProjectionsGrowLinearly(p: ProjectionInputs, currentYear: int, n: nat, i: nat)
    requires p.expectedReturnPercent == 0.0 && p.fundCostPercent == 0.0 && p.fundCostFixed == 0.0
    requires p.annualContribution >= 0.0
    requires i < n
    ensures Projections(p, currentYear, n)[i].endValue == (i + 1) as real * p.annualContribution
  {
    ProjectionsWithoutGrowthOrCosts(p, currentYear, n, i);
    MultipleValueIsProduct(Projections(p, currentYear, n)[i].endValue, i + 1, p.annualContribution);
  }

  lemma MultipleValueIsProduct(v: real, k: nat, amount: real)
    requires v == Multiple(k, amount)
    ensures v == k as real * amount
  {
    MultipleIsProduct(k, amount);
  }

  /** Without return or costs the first year closes at one contribution and each later year adds one more. */
  lemma ProjectionStepsWithoutGrowthOrCosts(p: ProjectionInputs, currentYear: int, n: nat)
    requires p.expectedReturnPercent == 0.0 && p.fundCostPercent == 0.0 && p.fundCostFixed == 0.0
    requires p.annualContribution >= 0.0
    requires n > 0
    ensures var r := Projections(p, currentYear, n);
      && r[0].endValue == p.annualContribution
      && forall j, k :: 0 <= j && k == j + 1 && k < n ==> r[k].endValue == r[j].endValue + p.annualContribution
  {
    var r := Projections(p, currentYear, n);
    ProjectionStepWithoutGrowthOrCosts(p, currentYear, n, 0);
    forall j, k | 0 <= j && k == j + 1 && k < n
      ensures r[k].endValue == r[j].endValue + p.annualContribution
    {
      ProjectionStepWithoutGrowthOrCosts(p, currentYear, n, k);
    }
  }

  /** `k` copies of `amount` added up. */
  function Multiple(k: nat, amount: real): real
  {
    if k == 0 then 0.0 else Multiple(k - 1, amount) + amount
  }

  lemma {:induction false} MultipleIsProduct(k: nat, amount: real)
    ensures Multiple(k, amount) == k as real * amount
  {
    if k > 0 {
      MultipleIsProduct(k - 1, amount);
      assert (k - 1) as real * amount + amount == k as real * amount;
    }
  }

  /** Closing values that each add `amount` to the previous one, starting from `amount`, are the multiples of `amount`. */
  lemma {:induction false} ClosingValuesAreMultiples(r: seq<YearlySnapshot>, amount: real, i: nat)
    requires i < |r|
    requires r[0].endValue == amount
    requires forall j, k :: 0 <= j && k == j + 1 && k < |r| ==> r[k].endValue == r[j].endValue + amount
    ensures r[i].endValue == Multiple(i + 1, amount)
  {
    if i > 0 {
      ClosingValuesAreMultiples(r, amount, i - 1);
      assert r[i].endValue == r[i - 1].endValue + amount;
      assert Multiple(i + 1, amount) == Multiple(i, amount) + amount;
    }
  }

  /** Without return or costs each year closes at the previous closing value plus the contribution. */
  lemma ProjectionStepWithoutGrowthOrCosts(p: ProjectionInputs, currentYear: int, n: nat, i: nat)
    requires p.expectedReturnPercent == 0.0 && p.fundCostPercent == 0.0 && p.fundCostFixed == 0.0
    requires p.annualContribution >= 0.0
    requires i < n
    ensures var r := Projections(p, currentYear, n);
      r[i].endValue == (if i == 0 then 0.0 else r[i - 1].endValue) + p.annualContribution
  {
    ProjectionsChain(p, currentYear, n, i);
    var r := Projections(p, currentYear, n);
    var opening := if i == 0 then 0.0 else r[i - 1].endValue;
    assert opening >= 0.0;
    YearStepWithoutGrowthOrCosts(p, currentYear + i, opening);
  }

  /** Without return or costs a year adds exactly the contribution to a non-negative opening value. */
  lemma YearStepWithoutGrowthOrCosts(p: ProjectionInputs, year: int, startingValue: real)
    requires p.expectedReturnPercent == 0.0 && p.fundCostPercent == 0.0 && p.fundCostFixed == 0.0
    requires p.annualContribution >= 0.0 && startingValue >= 0.0
    ensures YearStep(p, year, startingValue).endValue == startingValue + p.annualContribution
  {
    YearStepFrom(p, year, startingValue, 0.0, 0.0, startingValue + p.annualContribution, 0.0);
  }

  // ---------------------------------------------------------------------
  // Summary
  // ---------------------------------------------------------------------

  /** The snapshot fields that the summary totals. */
  datatype Field = NetGain | CapitalGainsTax | Costs

  function FieldOf(s: YearlySnapshot, f: Field): real
  {
    match f
    case NetGain => s.netGain
    case CapitalGainsTax => s.capitalGainsTaxPaid
    case Costs => s.costs
  }

  /** Left-to-right sum of one field over the snapshots, starting from 0. */
  function Total(snapshots: seq<YearlySnapshot>, f: Field): real
  {
    if snapshots == [] then 0.0
    else Total(snapshots[..|snapshots| - 1], f) + FieldOf(snapshots[|snapshots| - 1], f)
  }

  /**
   * The end-of-run figures: the three per-year totals, the contributions
   * over the horizon and the tax on them at the membership rate, with that
   * tax taken once off the last closing value, never below 0.  An empty run
   * has all figures 0.
   */
  function CalculateSimulationSummary(
    c: Config,
    yearlyData: seq<YearlySnapshot>,
    annualContributionSummary: AnnualContributions,
    yearsToRetirement: int,
    yearOfFirstContribution: int,
    currentYear: int): (r: SimulationSummary)
    requires WellFormed(c)
    ensures yearlyData == [] ==> r == EMPTY_SUMMARY
    ensures yearlyData != [] ==>
      && r.totalCapitalGainsTaxPaid == Total(yearlyData, CapitalGainsTax)
      && r.totalCostsPaid == Total(yearlyData, Costs)
      && r.totalCapitalGains == Total(yearlyData, NetGain)
      && r.contributionsTaxRate == CalculateCapitalTaxRate(c, yearOfFirstContribution, yearsToRetirement, currentYear)
      && r.grossTotalContribution == annualContributionSummary.totalAnnualContribution * yearsToRetirement as real
      && r.totalContributionsTaxAmount * 100.0 == r.grossTotalContribution * r.contributionsTaxRate
      && r.netTotalContribution + r.totalContributionsTaxAmount == r.grossTotalContribution
      && r.totalEmployerContribution == annualContributionSummary.annualEmployerContribution * yearsToRetirement as real
      && r.finalNetAmount == Max(0.0, yearlyData[|yearlyData| - 1].endValue - r.totalContributionsTaxAmount)
    ensures r.finalNetAmount >= 0.0
  {
    if |yearlyData| == 0 then
      EMPTY_SUMMARY
    else
      var lastSnapshot := yearlyData[|yearlyData| - 1];
      var totalCapitalGainsTaxPaid := Total(yearlyData, CapitalGainsTax);
      var totalCostsPaid := Total(yearlyData, Costs);
      var totalCapitalGains := Total(yearlyData, NetGain);
      var contributionTaxRate := CalculateCapitalTaxRate(c, yearOfFirstContribution, yearsToRetirement, currentYear);
      var grossTotalContribution := annualContributionSummary.totalAnnualContribution * yearsToRetirement as real;
      var totalTaxAmount := (grossTotalContribution * contributionTaxRate) / 100.0;
      var netTotalContribution := grossTotalContribution - totalTaxAmount;
      var totalEmployerContribution := annualContributionSummary.annualEmployerContribution * yearsToRetirement as real;
      var totalAvailableAmount := Max(0.0, lastSnapshot.endValue - totalTaxAmount);
      SimulationSummary(
        totalAvailableAmount,
        totalCapitalGainsTaxPaid,
        totalCostsPaid,
        totalCapitalGains,
        grossTotalContribution,
        totalTaxAmount,
        netTotalContribution,
        contributionTaxRate,
        totalEmployerContribution)
  }

  /**
   * When the contributions over the horizon are non-negative, the tax on
   * them is between the minimum and maximum rate's share, the net is what
   * remains, and the amount available at retirement is at most the last
   * closing value.
   */
  lemma SummaryBounds(
    c: Config,
    yearlyData: seq<YearlySnapshot>,
    annual: AnnualContributions,
    yearsToRetirement: nat,
    yearOfFirstContribution: int,
    currentYear: int)
    requires WellFormed(c)
    requires yearlyData != []
    requires annual.totalAnnualContribution >= 0.0
    ensures var r := CalculateSimulationSummary(c, yearlyData, annual, yearsToRetirement, yearOfFirstContribution, currentYear);
      && r.grossTotalContribution * c.minTaxRate <= r.totalContributionsTaxAmount * 100.0 <= r.grossTotalContribution * c.maxTaxRate
      && 0.0 <= r.totalContributionsTaxAmount <= r.grossTotalContribution
      && 0.0 <= r.netTotalContribution
      && (yearlyData[|yearlyData| - 1].endValue >= 0.0 ==> r.finalNetAmount <= yearlyData[|yearlyData| - 1].endValue)
  {
    var r := CalculateSimulationSummary(c, yearlyData, annual, yearsToRetirement, yearOfFirstContribution, currentYear);
    ProductNonNegative(annual.totalAnnualContribution, yearsToRetirement as real);
    TaxedShareBounds(r.grossTotalContribution, r.contributionsTaxRate, r.totalContributionsTaxAmount, c.minTaxRate, c.maxTaxRate);
  }

  lemma ProductNonNegative(a: real, b: real)
    requires a >= 0.0 && b >= 0.0
    ensures a * b >= 0.0
  {
    ScaleLe(0.0, a, b);
  }

  /** A tax at a rate within [lo, hi] percent of a non-negative amount lies within those shares of it, and within the amount. */
  lemma TaxedShareBounds(amount: real, rate: real, tax: real, lo: real, hi: real)
    requires amount >= 0.0
    requires 0.0 <= lo <= rate <= hi <= 100.0
    requires tax * 100.0 == amount * rate
    ensures amount * lo <= tax * 100.0 <= amount * hi
    ensures 0.0 <= tax <= amount
  {
    ScaleLe(lo, rate, amount);
    ScaleLe(rate, hi, amount);
    ScaleLe(0.0, rate, amount);
    ScaleLe(rate, 100.0, amount);
    assert lo * amount == amount * lo && rate * amount == amount * rate && hi * amount == amount * hi;
    assert tax * 100.0 <= 100.0 * amount;
  }

  // ---------------------------------------------------------------------
  // The whole run
  // ---------------------------------------------------------------------

  /**
   * A run: the contribution plan, the blended capital-gains rate, the
   * projection fed by the plan's total, and the summary.  Absent optional
   * fields default to the current year and to 0 percent.
   */
  method Simulate(c: Config, data: PensionFundData, currentYear: int) returns (result: SimulationResult)
    requires WellFormed(c)
    ensures result.fundName == data.fundName
    ensures result.annualContributions == CalculateAnnualContributions(
              c, data.annualSalary,
              data.voluntaryContributionPercent.GetOr(0.0),
              data.employerContributionPercent.GetOr(0.0),
              data.additionalDeductibleContributionPercent.GetOr(0.0))
    ensures result.capitalGainsTaxRate == CalculateWeightedTaxRate(c, data.stockAllocationPercent)
    ensures result.yearlyData == Projections(
              ProjectionInputs(data.expectedReturnPercent, result.capitalGainsTaxRate,
                               result.annualContributions.totalAnnualContribution,
                               data.fundCostPercent, data.fundCostFixed),
              currentYear, data.yearsToRetirement)
    ensures result.simulationSummary == CalculateSimulationSummary(
              c, result.yearlyData, result.annualContributions, data.yearsToRetirement,
              data.yearOfFirstContribution.GetOr(currentYear), currentYear)
    ensures |result.yearlyData| == data.yearsToRetirement
    ensures data.yearsToRetirement == 0 ==> result.simulationSummary == EMPTY_SUMMARY
    ensures result.simulationSummary.finalNetAmount >= 0.0
    ensures ValidInput(data) ==>
      && c.bondGainsTaxRate <= result.capitalGainsTaxRate <= c.stockGainsTaxRate
      && result.annualContributions.annualTaxSavings >= 0.0
      && 0.0 <= result.simulationSummary.netTotalContribution
      && (data.yearsToRetirement > 0 ==>
            result.simulationSummary.finalNetAmount <= result.yearlyData[data.yearsToRetirement - 1].endValue)
  {
    var yearOfFirstContribution := data.yearOfFirstContribution.GetOr(currentYear);
    var voluntaryContributionPercent := data.voluntaryContributionPercent.GetOr(0.0);
    var employerContributionPercent := data.employerContributionPercent.GetOr(0.0);
    var additionalDeductibleContributionPercent := data.additionalDeductibleContributionPercent.GetOr(0.0);

    var annualContributionSummary := CalculateAnnualContributions(
      c, data.annualSalary, voluntaryContributionPercent, employerContributionPercent,
      additionalDeductibleContributionPercent);

    var capitalGainsTaxRate := CalculateWeightedTaxRate(c, data.stockAllocationPercent);

    var yearlyData := CalculateYearlyProjections(
      data.yearsToRetirement, data.expectedReturnPercent, capitalGainsTaxRate,
      annualContributionSummary.totalAnnualContribution, data.fundCostPercent, data.fundCostFixed,
      currentYear);

    var simulationSummary := CalculateSimulationSummary(
      c, yearlyData, annualContributionSummary, data.yearsToRetirement, yearOfFirstContribution, currentYear);

    if ValidInput(data) {
      WeightedTaxRateBetween(c, data.stockAllocationPercent);
      AnnualTaxSavingsBounds(c, data.annualSalary, voluntaryContributionPercent,
                             employerContributionPercent, additionalDeductibleContributionPercent);
      AnnualTotalNonNegative(c, data.annualSalary, voluntaryContributionPercent,
                             employerContributionPercent, additionalDeductibleContributionPercent);
      if data.yearsToRetirement > 0 {
        SummaryBounds(c, yearlyData, annualContributionSummary, data.yearsToRetirement,
                      yearOfFirstContribution, currentYear);
      }
    }

    result := SimulationResult(data.fundName, capitalGainsTaxRate, annualContributionSummary, yearlyData, simulationSummary);
  }

  /** With a non-negative salary and percentages, the annual total is non-negative. */
  lemma AnnualTotalNonNegative(c: Config, salary: real, vol: real, emp: real, add: real)
    requires WellFormed(c)
    requires salary >= 0.0 && vol >= 0.0 && emp >= 0.0 && add >= 0.0
    ensures CalculateAnnualContributions(c, salary, vol, emp, add).totalAnnualContribution >= 0.0
  {
    var r := CalculateAnnualContributions(c, salary, vol, emp, add);
    ScaleLe(0.0, salary, vol);
    ScaleLe(0.0, salary, emp);
    var headroom := Max(0.0, c.deductibleLimit - r.annualVoluntaryContribution - r.annualEmployerContribution);
    ScaleLe(0.0, headroom, add);
  }
}
