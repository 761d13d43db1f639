# Supplementary-pension simulator: calculation engine in Dafny

This project models the calculation engine of an Italian supplementary-pension
("previdenza complementare") simulator and proves properties of it. The engine has three parts:

- **Tax engine** (`tax.dfy`, module `TaxEngine`). The IRPEF tax walks a descending bracket
  table. The saving from a deduction is the tax before it minus the tax after it. The
  capital-gains rate is blended from the stock rate and the bond rate by allocation. The tax
  on contributions starts at 15 percent and falls 0.3 points a year after 15 years of
  membership, never below 9 percent.
- **Projection and aggregation engine** (`simulation.dfy`, module `Simulation`). It computes
  the annual contribution plan: the TFR (severance-pay) feed of salary / 13.5, the voluntary
  and employer percentages, and an additional contribution limited to the deductible
  headroom. It also computes the tax saved and the saver's cash flow. The year-by-year
  compounding loop produces one snapshot per year. The summary folds the snapshots and
  takes the contribution tax once, at the end. `Simulate` composes the three steps.
- **Configuration** (`constants.dfy`, module `Constants`). A `Config` value holds the
  brackets, the deductible ceiling and the rates. `DEFAULT_CONFIG` holds the repository's
  values. `WellFormed` states the shape the engines rely on: thresholds strictly descending
  and ending at 0, rates as percentages, the minimum rate at most the maximum, and the bond
  rate at most the stock rate.

`scenarios.dfy` (module `Scenarios`) states the concrete cases of the repository's tests on
the model.

Design points:

- Amounts and rates are exact `real`s. Rates are percents, as in the source.
- The current calendar year is an explicit parameter `currentYear`. The source reads it from
  the clock.
- All functions take the configuration as a parameter.
- The two loops of the source are methods with loop invariants: the bracket walk
  (`CalculateTax`) and the projection (`CalculateYearlyProjections`).
- Each loop method is proved equal to a recursive specification function (`Tax`,
  `Projections`). The properties are proved about those functions.
- The bracket walk is also proved equal to an independent reference definition,
  `PerBracketTax`: each bracket's rate times the portion of income inside that bracket.

The source passes the full voluntary + employer + additional amount to the tax-savings
calculation. That amount can exceed the deductible ceiling when voluntary + employer already
do, because those two are not capped. The model keeps this behaviour
(`CalculateAnnualContributions`).

## Model

| member | source | states |
|---|---|---|
| `Constants.DefaultConfigWellFormed` | src/constants.ts:1-39 | The repository's table satisfies `WellFormed`: thresholds 50000 > 28000 > 0, ending at 0; rates within [0,100]; ceiling 5300 > 0; bond 12.5 ≤ stock 20; minimum 9 ≤ maximum 15; INPS rate 9.19 within [0,100]. The marginal rates are progressive: 43 > 33 > 23. |
| `Constants.YearsToFloor` | src/constants.ts:13-25 | The number of years past the threshold after which the linear decay reaches the minimum: max − years × step = min. |
| `Constants.DefaultFloorAtThirtyFiveYears` | src/constants.ts:13-25 | With 15, 9 and 0.3, the floor is reached exactly 20 years after the 15-year threshold, at 35 years. |
| `TaxEngine.CalculateWeightedTaxRate` | src/tax.ts:13-21 | The blended rate equals bond + stock% × (stock − bond) / 100. It is the stock rate at 100, the bond rate at 0, and the mean of the two at 50. |
| `TaxEngine.WeightedTaxRateBetween` | src/tax.ts:13-21 | For an allocation in [0,100], the rate lies between the bond rate and the stock rate. |
| `TaxEngine.WeightedTaxRateMonotone` | src/tax.ts:13-21 | More stock never lowers the blended rate when bond ≤ stock. |
| `TaxEngine.YearsOfMembership` | src/tax.ts:30-32 | Membership plus the year of first contribution equals the projected retirement year, currentYear + yearsToRetirement. |
| `TaxEngine.MembershipTaxRate` | src/tax.ts:34-41 | The rate always lies in [min, max]. It is exactly the maximum for any membership up to and including the threshold. |
| `TaxEngine.CalculateCapitalTaxRate` | src/tax.ts:26-42 | It applies the membership schedule to the membership implied by the first-contribution year, the years to retirement and the current year. The result lies in [min, max], and is the maximum up to 15 years of membership. |
| `TaxEngine.MembershipTaxRateStep` | src/tax.ts:38-41 | Past the threshold, one more year of membership lowers the rate by exactly the step (0.3), floored at the minimum. |
| `TaxEngine.MembershipTaxRateNonIncreasing` | src/tax.ts:34-41 | Longer membership never raises the rate. |
| `TaxEngine.MembershipTaxRateFloor` | src/tax.ts:38-41 | Once the decay has run past `YearsToFloor`, the rate is exactly the minimum, however long the membership. |
| `TaxEngine.CalculateTax` | src/tax.ts:47-60 | The loop over the brackets, with its accumulator and remaining income, computes `Tax`. On a well-formed table this equals the per-bracket sum `PerBracketTax`. |
| `TaxEngine.TaxIsPerBracketSum` | src/tax.ts:51-57 | On a well-formed table, the bracket walk equals the sum over brackets of rate × (the portion of income above that bracket's threshold and below the next higher one). |
| `TaxEngine.TaxZeroBelowThresholds` | src/tax.ts:47-60 | With non-negative thresholds, the tax on any income ≤ 0 is 0. |
| `TaxEngine.TaxNonNegative` | src/tax.ts:51-57 | With non-negative rates, the tax is never negative. |
| `TaxEngine.TaxMonotone` | src/tax.ts:51-57 | With non-negative rates, the tax is non-decreasing in income. Descending thresholds are not needed for this. |
| `TaxEngine.UniformRateCoversIncome` | src/tax.ts:51-57 | If every bracket has the same rate ρ, the walk charges ρ × max(0, income) / 100. So a descending table ending at 0 taxes every unit of positive income exactly once. |
| `TaxEngine.TaxIncreaseAtMostTopRate` | src/tax.ts:51-57 | Between two incomes, the tax grows by at most the highest rate times the difference. |
| `TaxEngine.CalculateTaxSavings` | src/tax.ts:65-69 | For a deduction ≥ 0, the saving lies in [0, tax on the income]. It is 0 for a zero deduction. A deduction of at least the income clamps the taxable income to zero and saves the whole tax. With progressive rates, it saves at most deduction × top rate / 100. |
| `Simulation.CalculateAnnualTFR` | src/simulation.ts:14-16 | The TFR feed times 13.5 gives back the salary. For a salary ≥ 0 it lies in [0, salary]. |
| `Simulation.TaxableIncome` | src/simulation.ts:35 | The salary net of the INPS share lies in [0, salary] for a salary ≥ 0. |
| `Simulation.CalculateAnnualContributions` | src/simulation.ts:22-49 | Voluntary and employer are their percentages of salary. Additional is its percentage of max(0, 5300 − voluntary − employer). The total is TFR + voluntary + employer + additional. The saving is the deduction saving of all three on the taxable income. Cash flow is saving − (voluntary + additional); the employer contribution is excluded. |
| `Simulation.AdditionalContributionWithinHeadroom` | src/simulation.ts:32-33 | For a percentage in [0,100], the additional contribution is ≥ 0, and 0 once voluntary + employer ≥ 5300. Voluntary + employer + additional ≤ max(5300, voluntary + employer). At 100 percent the three meet the ceiling exactly. |
| `Simulation.AnnualTaxSavingsBounds` | src/simulation.ts:35-37 | For a non-negative salary and percentages, the saving lies in [0, tax on taxable income]. With all percentages 0, saving and cash flow are 0 and the total is the TFR alone. |
| `Simulation.AnnualTotalNonNegative` | src/simulation.ts:36-39 | For a non-negative salary and percentages, the annual total is non-negative. |
| `Simulation.YearStep` | src/simulation.ts:69-94 | One year of the recurrence produces the snapshot for the given year. Its closing value is ≥ 0 and at least opening + net gain + contribution − costs: the floor only ever raises the value. |
| `Simulation.Projections` | src/simulation.ts:54-100 | The specification of the projection: exactly n snapshots, snapshot i for year currentYear + i, and every closing value ≥ 0. |
| `Simulation.CalculateYearlyProjections` | src/simulation.ts:54-100 | The loop that pushes one snapshot per year and carries the closing value forward computes `Projections`. So it returns exactly yearsToRetirement snapshots, with consecutive years and non-negative closing values; 0 years gives an empty sequence. |
| `Simulation.ProjectionsPrefix` | src/simulation.ts:68-97 | A shorter projection is a prefix of a longer one: later years never change earlier ones. |
| `Simulation.ProjectionsChain` | src/simulation.ts:69-96 | Snapshot i is one step of the recurrence from snapshot i−1's closing value, or from 0 for the first year. The step applies the return, the capital-gains tax, the contribution, then the percentage and fixed costs on that total, then the floor at 0. |
| `Simulation.ProjectionsWithoutGrowthOrCosts` | src/simulation.ts:68-97 | With 0 return, 0 costs and a contribution c ≥ 0, year i closes at exactly the sum of i+1 contributions c: each year adds one contribution and nothing else. |
| `Simulation.ProjectionsGrowLinearly` | src/simulation.ts:68-97 | The same closing value as a product: year i closes at (i+1) × c. |
| `Simulation.CalculateSimulationSummary` | src/simulation.ts:105-156 | An empty run gives all-zero fields, whatever the horizon. Otherwise: the three totals are the left folds of the per-year fields; gross = annual total × years; tax × 100 = gross × rate at the membership rate; net + tax = gross; employer total = annual employer × years; final = max(0, last closing value − tax), which is ≥ 0. |
| `Simulation.SummaryBounds` | src/simulation.ts:134-143 | For a non-negative annual total, the contribution tax lies between the minimum and maximum rate's share of gross and in [0, gross]. The net is ≥ 0, and the final amount never exceeds the last closing value. |
| `Simulation.Simulate` | src/simulation.ts:158-204 | A run composes the plan, the blended rate, the projection fed by the plan's total, and the summary. Absent fields default to the current year and to 0 percent. It gives exactly yearsToRetirement snapshots, an all-zero summary at 0 years, and a final amount ≥ 0. On valid input the blended rate is between the bond and stock rates, the saving is ≥ 0, the net contribution is ≥ 0, and the final amount is at most the last closing value. |
| `Scenarios.WeightedTaxRateExamples` | src/tax.test.ts:10-35 | 100 → 20, 0 → 12.5, 50 → 16.25, 75 → 18.125, 25 → 14.375. |
| `Scenarios.CapitalTaxRateExamples` | src/tax.test.ts:37-91 | For any current year: 15 at 10 and at 15 years of membership; 14.7 at 16; 13.5 at 20; 9 at 35 and at 50; the first-contribution-in-the-past cases give 15, 13.5, 12 and 9. |
| `Scenarios.TaxExamples` | src/tax.test.ts:93-112 | 60000 → 18000, 40000 → 10400, 20000 → 4600, 0 → 0. |
| `Scenarios.TaxSavingsExamples` | src/tax.test.ts:114-124 | (60000, 5000) → 2150 within the top bracket; (52000, 5000) → 1850 across the 50000 boundary. |
| `Scenarios.ContributionsWithOnlyTFR` | src/simulation.test.ts:10-27 | Salary 27000 with all percentages 0: total 2000; saving, voluntary, employer, additional and cash flow all 0. |
| `Scenarios.ContributionsFillingTheCeiling` | src/simulation.test.ts:29-54 | Salary 50000 at 2/2/100 percent: voluntary 1000, employer 1000, additional 3300, total 50000/13.5 + 5300, saving exactly 1749, cash flow 1749 − 4300. |
| `Scenarios.ProjectionWithoutGrowth` | src/simulation.test.ts:58-66 | 5 years, 0 return, 1000 a year: 5 snapshots closing at 1000, 2000, …, 5000. |
| `Scenarios.ProjectionWithGrowth` | src/simulation.test.ts:68-77 | 10 percent return taxed at 20 percent: year 1 closes at 1000; year 2 has net gain 80 and closes at 2080. |
| `Scenarios.ProjectionWithCosts` | src/simulation.test.ts:79-88 | Costs of 1 percent + 10 on 1000: costs 20, closing value 980. |
| `Scenarios.ProjectionWithErosion` | src/simulation.test.ts:90-97 | 500 a year with 10 percent + 100 costs: 350, then 665. |
| `Scenarios.SummaryExample` | src/simulation.test.ts:101-148 | Capital-gains tax 20, costs 35, gross 2000, rate 15, tax 300, final 1745. |
| `Scenarios.SummaryOfEmptyRun` | src/simulation.test.ts:150-164 | No snapshots with a 10-year horizon gives the all-zero summary. |

## Left out

- Floating point: amounts are exact reals. Rounding in IEEE-754 doubles, and the tolerances of the tests that compare approximately, are not modelled. The model gives the exact values, e.g. a saving of exactly 1749.
- The system clock: the current year is the `currentYear` parameter, used for the membership, for the first projected year and as the default first-contribution year.
- Fractional years: `yearsToRetirement` is a `nat`. The source accepts any number. For a fractional horizon its loop runs the rounded-up number of years, while gross contributions are multiplied by the fractional value. The model does not cover this case.
- Input validation (src/validation.ts): the form schema belongs to a library that is not part of this model. Its ranges appear only as the predicate `ValidInput`, which `Simulate` uses as the hypothesis of its conditional guarantees. That predicate also asks for a stock allocation of at most 100, which the form itself does not check.
- The fund name is a label passed through unchanged. Only its presence is modelled, as an `Option` of string.
- src/main.ts (UI bootstrap), src/utils.ts (locale currency formatting) and src/types.ts (a stale interface) are not part of this model. The record shapes follow the object literals in src/simulation.ts.
- The configuration is a parameter rather than module constants. The guarantees that depend on the table's shape require `WellFormed` of it, and the repository's table is proved to satisfy it.
