/**
 * The concrete cases of the repository's test files, stated on the model
 * with the repository's configuration.  Where the tests compare with a
 * tolerance the model's exact value is given.
 */
module Scenarios {
  import opened Constants
  import opened TaxEngine
  import opened Simulation

  lemma WeightedTaxRateExamples()
    ensures CalculateWeightedTaxRate(DEFAULT_CONFIG, 100.0) == DEFAULT_CONFIG.stockGainsTaxRate
    ensures CalculateWeightedTaxRate(DEFAULT_CONFIG, 0.0) == DEFAULT_CONFIG.bondGainsTaxRate
    ensures CalculateWeightedTaxRate(DEFAULT_CONFIG, 50.0) == 16.25
    ensures CalculateWeightedTaxRate(DEFAULT_CONFIG, 75.0) == 18.125
    ensures CalculateWeightedTaxRate(DEFAULT_CONFIG, 25.0) == 14.375
  {
  }

  /** Whatever the current year, the rate depends only on the membership it implies. */
  lemma CapitalTaxRateExamples(y: int)
    ensures CalculateCapitalTaxRate(DEFAULT_CONFIG, y, 10, y) == DEFAULT_CONFIG.maxTaxRate
    ensures CalculateCapitalTaxRate(DEFAULT_CONFIG, y, 15, y) == DEFAULT_CONFIG.maxTaxRate
    ensures CalculateCapitalTaxRate(DEFAULT_CONFIG, y, 16, y) == 14.7
    ensures CalculateCapitalTaxRate(DEFAULT_CONFIG, y, 20, y) == 13.5
    ensures CalculateCapitalTaxRate(DEFAULT_CONFIG, y, 50, y) == DEFAULT_CONFIG.minTaxRate
    ensures CalculateCapitalTaxRate(DEFAULT_CONFIG, y, 35, y) == DEFAULT_CONFIG.minTaxRate
    ensures CalculateCapitalTaxRate(DEFAULT_CONFIG, y - 5, 10, y) == DEFAULT_CONFIG.maxTaxRate
    ensures CalculateCapitalTaxRate(DEFAULT_CONFIG, y - 10, 10, y) == 13.5
    ensures CalculateCapitalTaxRate(DEFAULT_CONFIG, y - 20, 5, y) == 12.0
    ensures CalculateCapitalTaxRate(DEFAULT_CONFIG, y - 30, 10, y) == DEFAULT_CONFIG.minTaxRate
  {
  }

  lemma TaxExamples()
    ensures Tax(DEFAULT_CONFIG.taxBrackets, 60000.0) == 18000.0
    ensures Tax(DEFAULT_CONFIG.taxBrackets, 40000.0) == 10400.0
    ensures Tax(DEFAULT_CONFIG.taxBrackets, 20000.0) == 4600.0
    ensures Tax(DEFAULT_CONFIG.taxBrackets, 0.0) == 0.0
  {
    var bs := DEFAULT_CONFIG.taxBrackets;
    assert bs[1..] == [Bracket(28000.0, 33.0), Bracket(0.0, 23.0)];
    assert bs[1..][1..] == [Bracket(0.0, 23.0)];
    assert bs[1..][1..][1..] == [];
  }

  /** A deduction of 5000 inside the top bracket, and one crossing the 50000 boundary. */
  lemma TaxSavingsExamples()
    ensures CalculateTaxSavings(DEFAULT_CONFIG, 60000.0, 5000.0) == 2150.0
    ensures CalculateTaxSavings(DEFAULT_CONFIG, 52000.0, 5000.0) == 1850.0
  {
    var bs := DEFAULT_CONFIG.taxBrackets;
    DefaultConfigWellFormed();
    assert bs[1..] == [Bracket(28000.0, 33.0), Bracket(0.0, 23.0)];
    assert bs[1..][1..] == [Bracket(0.0, 23.0)];
    assert bs[1..][1..][1..] == [];
  }

  /** Only the TFR feed: 27000 / 13.5 = 2000, and nothing deducted. */
  lemma ContributionsWithOnlyTFR()
    ensures var r := CalculateAnnualContributions(DEFAULT_CONFIG, 27000.0, 0.0, 0.0, 0.0);
      && r.totalAnnualContribution == 2000.0
      && r.annualTaxSavings == 0.0
      && r.annualVoluntaryContribution == 0.0
      && r.annualEmployerContribution == 0.0
      && r.annualAdditionalContribution == 0.0
      && r.annualCashFlow == 0.0
  {
    DefaultConfigWellFormed();
  }

  /**
   * 2 percent voluntary and 2 percent employer of 50000, and 100 percent of
   * the remaining headroom: the additional contribution is 3300 and the
   * deduction of 5300 from 45405 of taxable income saves 1749 at 33 percent.
   */
  lemma ContributionsFillingTheCeiling()
    ensures var r := CalculateAnnualContributions(DEFAULT_CONFIG, 50000.0, 2.0, 2.0, 100.0);
      && r.annualVoluntaryContribution == 1000.0
      && r.annualEmployerContribution == 1000.0
      && r.annualAdditionalContribution == 3300.0
      && r.totalAnnualContribution == 50000.0 / 13.5 + 5300.0
      && r.annualTaxSavings == 1749.0
      && r.annualCashFlow == 1749.0 - 4300.0
  {
    DefaultConfigWellFormed();
    var bs := DEFAULT_CONFIG.taxBrackets;
    assert bs[1..] == [Bracket(28000.0, 33.0), Bracket(0.0, 23.0)];
    assert bs[1..][1..] == [Bracket(0.0, 23.0)];
    assert bs[1..][1..][1..] == [];
    assert TaxableIncome(DEFAULT_CONFIG, 50000.0) == 45405.0;
  }

  /** 5 years with no return and no costs close at 1000, 2000, ..., 5000. */
  lemma ProjectionWithoutGrowth(y: int)
    ensures var r := Projections(ProjectionInputs(0.0, 15.0, 1000.0, 0.0, 0.0), y, 5);
      && |r| == 5 && r[0].endValue == 1000.0 && r[1].endValue == 2000.0 && r[4].endValue == 5000.0
  {
    var p := ProjectionInputs(0.0, 15.0, 1000.0, 0.0, 0.0);
    ProjectionsWithoutGrowthOrCosts(p, y, 5, 0);
    ProjectionsWithoutGrowthOrCosts(p, y, 5, 1);
    ProjectionsWithoutGrowthOrCosts(p, y, 5, 4);
  }

  /** 10 percent return taxed at 20 percent: year 2 gains 100, keeps 80 and closes at 2080. */
  lemma ProjectionWithGrowth(y: int)
    ensures var r := Projections(ProjectionInputs(10.0, 20.0, 1000.0, 0.0, 0.0), y, 2);
      && r[0].endValue == 1000.0 && r[1].netGain == 80.0 && r[1].endValue == 2080.0
  {
  }

  /** 1 percent plus 10 of costs on 1000: costs 20, closing value 980. */
  lemma ProjectionWithCosts(y: int)
    ensures var r := Projections(ProjectionInputs(0.0, 0.0, 1000.0, 1.0, 10.0), y, 1);
      && r[0].costs == 20.0 && r[0].endValue == 980.0
  {
  }

  /** Costs larger than the growth erode the capital: 350, then 665. */
  lemma ProjectionWithErosion(y: int)
    ensures var r := Projections(ProjectionInputs(0.0, 0.0, 500.0, 10.0, 100.0), y, 2);
      && r[0].endValue == 350.0 && r[1].endValue == 665.0
  {
  }

  /** Two given years and 1000 a year over 2 years, first contribution this year: 15 percent of 2000 taken off 2045. */
  lemma SummaryExample(y: int)
    ensures var r := CalculateSimulationSummary(
              DEFAULT_CONFIG,
              [YearlySnapshot(2027, 0.0, 0.0, 10.0, 990.0), YearlySnapshot(2028, 80.0, 20.0, 25.0, 2045.0)],
              AnnualContributions(1000.0, 0.0, 0.0, 0.0, 0.0, 0.0),
              2, y, y);
      && r.totalCapitalGainsTaxPaid == 20.0
      && r.totalCostsPaid == 35.0
      && r.grossTotalContribution == 2000.0
      && r.contributionsTaxRate == 15.0
      && r.totalContributionsTaxAmount == 300.0
      && r.finalNetAmount == 1745.0
  {
    DefaultConfigWellFormed();
    var s := [YearlySnapshot(2027, 0.0, 0.0, 10.0, 990.0), YearlySnapshot(2028, 80.0, 20.0, 25.0, 2045.0)];
    assert s[..1] == [s[0]];
    assert s[..1][..0] == [];
    assert Total(s[..1], Costs) == 10.0;
    assert Total(s, Costs) == 35.0;
    assert Total(s[..1], CapitalGainsTax) == 0.0;
    assert Total(s, CapitalGainsTax) == 20.0;
  }

  lemma SummaryOfEmptyRun()
    ensures CalculateSimulationSummary(DEFAULT_CONFIG, [], AnnualContributions(1000.0, 0.0, 0.0, 0.0, 0.0, 0.0), 10, 2020, 2026)
      == EMPTY_SUMMARY
  {
    DefaultConfigWellFormed();
  }
}
