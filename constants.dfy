/**
 * The configuration table the tax engine and the projection engine read:
 * IRPEF brackets, the deductible ceiling, the capital-gains rates and the
 * schedule of the tax on contributions.  The repository's values are
 * DEFAULT_CONFIG; the engines take the configuration as a parameter and rely
 * only on the shape stated by WellFormed.
 */
module Constants {

  /** Income above `threshold` (and below the next higher threshold) is taxed at `rate` percent. */
  datatype Bracket = Bracket(threshold: real, rate: real)

  datatype Config = Config(
    deductibleLimit: real,             // annual ceiling on deductible contributions
    stockGainsTaxRate: real,           // percent, on stock gains
    bondGainsTaxRate: real,            // percent, on bond gains
    minTaxRate: real,                  // percent, floor of the tax on contributions
    maxTaxRate: real,                  // percent, ceiling of the tax on contributions
    yearsBeforeTaxRateDecrease: int,   // membership years before the rate starts to fall
    taxRateDecrease: real,             // percentage points taken off per further year
    inpsContributionRate: real,        // percent of salary paid as employee social contribution
    taxBrackets: seq<Bracket>)         // IRPEF table, highest threshold first

  const DEFAULT_CONFIG: Config := Config(
    5300.0,
    20.0,
    12.5,
    9.0,
    15.0,
    15,
    0.3,
    9.19,
    [Bracket(50000.0, 43.0), Bracket(28000.0, 33.0), Bracket(0.0, 23.0)])

  /** Thresholds strictly decrease along the table. */
  predicate Descending(bs: seq<Bracket>)
  {
    forall i, j :: 0 <= i < j < |bs| ==> bs[i].threshold > bs[j].threshold
  }

  predicate RatesArePercentages(bs: seq<Bracket>)
  {
    forall i :: 0 <= i < |bs| ==> 0.0 <= bs[i].rate <= 100.0
  }

  /**
   * The shape the bracket loop depends on: a non-empty table, thresholds
   * strictly descending and ending at 0, so that every positive income falls
   * in exactly one slice per bracket.
   */
  predicate BracketsWellFormed(bs: seq<Bracket>)
  {
    && |bs| > 0
    && Descending(bs)
    && bs[|bs| - 1].threshold == 0.0
    && RatesArePercentages(bs)
  }

  /** Marginal rates rise with the threshold. */
  predicate Progressive(bs: seq<Bracket>)
  {
    forall i, j :: 0 <= i < j < |bs| ==> bs[i].rate > bs[j].rate
  }

  predicate WellFormed(c: Config)
  {
    && BracketsWellFormed(c.taxBrackets)
    && c.deductibleLimit > 0.0
    && 0.0 <= c.bondGainsTaxRate <= c.stockGainsTaxRate <= 100.0
    && 0.0 <= c.minTaxRate <= c.maxTaxRate <= 100.0
    && c.yearsBeforeTaxRateDecrease >= 0
    && c.taxRateDecrease > 0.0
    && 0.0 <= c.inpsContributionRate <= 100.0
  }

  /** The repository's table has the shape the engines rely on, and its rates are progressive. */
  lemma DefaultConfigWellFormed()
    ensures WellFormed(DEFAULT_CONFIG)
    ensures Progressive(DEFAULT_CONFIG.taxBrackets)
  {
  }

  /**
   * Number of membership years, past the decrease threshold, after which the
   * linear decay reaches the floor.
   */
  function YearsToFloor(c: Config): (r: real)
    requires c.taxRateDecrease > 0.0
    ensures c.maxTaxRate - r * c.taxRateDecrease == c.minTaxRate
  {
    (c.maxTaxRate - c.minTaxRate) / c.taxRateDecrease
  }

  /** From 15 percent at 15 years, falling 0.3 points a year, the 9 percent floor is met after 20 more years, at 35. */
  lemma DefaultFloorAtThirtyFiveYears()
    ensures YearsToFloor(DEFAULT_CONFIG) == 20.0
    ensures DEFAULT_CONFIG.yearsBeforeTaxRateDecrease + 20 == 35
  {
  }
}
