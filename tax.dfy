/**
 * Tax engine: progressive IRPEF tax and the saving a deduction brings, the
 * capital-gains rate blended by asset allocation, and the decaying tax rate
 * on contributions.  All amounts and rates are exact reals; rates are percents.
 */
module TaxEngine {
  import opened Constants

  function Max(a: real, b: real): (r: real)
    ensures r >= a && r >= b && (r == a || r == b)
  {
    if a >= b then a else b
  }

  function Min(a: real, b: real): (r: real)
    ensures r <= a && r <= b && (r == a || r == b)
  {
    if a <= b then a else b
  }

  // ---------------------------------------------------------------------
  // Capital-gains rate weighted by allocation
  // ---------------------------------------------------------------------

  /**
   * The capital-gains rate of a portfolio holding `stockAllocationPercent`
   * percent stocks and the rest bonds: the linear interpolation between the
   * bond rate (no stocks) and the stock rate (all stocks).
   */
  function CalculateWeightedTaxRate(c: Config, stockAllocationPercent: real): (r: real)
    ensures r == c.bondGainsTaxRate + stockAllocationPercent * (c.stockGainsTaxRate - c.bondGainsTaxRate) / 100.0
    ensures stockAllocationPercent == 100.0 ==> r == c.stockGainsTaxRate
    ensures stockAllocationPercent == 0.0 ==> r == c.bondGainsTaxRate
    ensures stockAllocationPercent == 50.0 ==> r == (c.stockGainsTaxRate + c.bondGainsTaxRate) / 2.0
  {
    var bondPercent := 100.0 - stockAllocationPercent;
    (stockAllocationPercent / 100.0) * c.stockGainsTaxRate + (bondPercent / 100.0) * c.bondGainsTaxRate
  }

  /** For an allocation within [0,100] the blended rate lies between the bond rate and the stock rate. */
  lemma WeightedTaxRateBetween(c: Config, stockAllocationPercent: real)
    requires c.bondGainsTaxRate <= c.stockGainsTaxRate
    requires 0.0 <= stockAllocationPercent <= 100.0
    ensures c.bondGainsTaxRate <= CalculateWeightedTaxRate(c, stockAllocationPercent) <= c.stockGainsTaxRate
  {
    WeightedTaxRateMonotone(c, 0.0, stockAllocationPercent);
    WeightedTaxRateMonotone(c, stockAllocationPercent, 100.0);
  }

  /** More stock never lowers the blended rate when stocks are taxed at least as much as bonds. */
  lemma WeightedTaxRateMonotone(c: Config, s1: real, s2: real)
    requires c.bondGainsTaxRate <= c.stockGainsTaxRate
    requires s1 <= s2
    ensures CalculateWeightedTaxRate(c, s1) <= CalculateWeightedTaxRate(c, s2)
  {
    var b, st := c.bondGainsTaxRate, c.stockGainsTaxRate;
    var k1, k2 := s1 * (st - b), s2 * (st - b);
    ScaleLe(s1, s2, st - b);
    assert k1 <= k2;
    assert CalculateWeightedTaxRate(c, s1) == b + k1 / 100.0;
    assert CalculateWeightedTaxRate(c, s2) == b + k2 / 100.0;
  }

  // ---------------------------------------------------------------------
  // Tax on contributions, decaying with membership
  // ---------------------------------------------------------------------

  /** Years of membership at retirement: the projected retirement year minus the year of first contribution. */
  function YearsOfMembership(yearOfFirstContribution: int, yearsToRetirement: int, currentYear: int): (m: int)
    ensures m + yearOfFirstContribution == currentYear + yearsToRetirement
  {
    var projectedRetirementYear := currentYear + yearsToRetirement;
    projectedRetirementYear - yearOfFirstContribution
  }

  /**
   * The schedule of the tax on contributions as a function of membership:
   * the maximum up to the threshold, then a linear decrease, never below
   * the minimum.
   */
  function MembershipTaxRate(c: Config, yearsOfMembership: int): (r: real)
    requires c.minTaxRate <= c.maxTaxRate
    requires c.taxRateDecrease >= 0.0
    ensures c.minTaxRate <= r <= c.maxTaxRate
    ensures yearsOfMembership <= c.yearsBeforeTaxRateDecrease ==> r == c.maxTaxRate
  {
    if yearsOfMembership < c.yearsBeforeTaxRateDecrease then
      c.maxTaxRate
    else
      var taxRate := c.maxTaxRate - (yearsOfMembership - c.yearsBeforeTaxRateDecrease) as real * c.taxRateDecrease;
      Max(taxRate, c.minTaxRate)
  }

  /** The rate applied to contributions, with the current year taken as a parameter. */
  function CalculateCapitalTaxRate(c: Config, yearOfFirstContribution: int, yearsToRetirement: int, currentYear: int): (r: real)
    requires c.minTaxRate <= c.maxTaxRate
    requires c.taxRateDecrease >= 0.0
    ensures r == MembershipTaxRate(c, YearsOfMembership(yearOfFirstContribution, yearsToRetirement, currentYear))
    ensures c.minTaxRate <= r <= c.maxTaxRate
    ensures currentYear + yearsToRetirement - yearOfFirstContribution <= c.yearsBeforeTaxRateDecrease ==> r == c.maxTaxRate
  {
    MembershipTaxRate(c, YearsOfMembership(yearOfFirstContribution, yearsToRetirement, currentYear))
  }

  /**
   * Past the threshold, each further year of membership lowers the rate by
   * exactly one step, until the floor is met; after that it stays at the floor.
   */
  lemma MembershipTaxRateStep(c: Config, m: int)
    requires c.minTaxRate <= c.maxTaxRate
    requires c.taxRateDecrease >= 0.0
    requires m >= c.yearsBeforeTaxRateDecrease
    ensures MembershipTaxRate(c, m + 1) == Max(MembershipTaxRate(c, m) - c.taxRateDecrease, c.minTaxRate)
  {
    var k := (m - c.yearsBeforeTaxRateDecrease) as real;
    assert c.maxTaxRate - (k + 1.0) * c.taxRateDecrease == c.maxTaxRate - k * c.taxRateDecrease - c.taxRateDecrease;
  }

  /** Longer membership never raises the rate. */
  lemma MembershipTaxRateNonIncreasing(c: Config, m1: int, m2: int)
    requires c.minTaxRate <= c.maxTaxRate
    requires c.taxRateDecrease >= 0.0
    requires m1 <= m2
    ensures MembershipTaxRate(c, m2) <= MembershipTaxRate(c, m1)
  {
    if m1 >= c.yearsBeforeTaxRateDecrease {
      var k1 := (m1 - c.yearsBeforeTaxRateDecrease) as real;
      var k2 := (m2 - c.yearsBeforeTaxRateDecrease) as real;
      ScaleLe(k1, k2, c.taxRateDecrease);
      var r1, r2 := c.maxTaxRate - k1 * c.taxRateDecrease, c.maxTaxRate - k2 * c.taxRateDecrease;
      assert r2 <= r1;
      assert MembershipTaxRate(c, m1) == Max(r1, c.minTaxRate);
      assert MembershipTaxRate(c, m2) == Max(r2, c.minTaxRate);
      assert Max(r2, c.minTaxRate) <= Max(r1, c.minTaxRate);
    }
  }

  /** Once the linear decay has reached the minimum, the rate is exactly the minimum, however long the membership. */
  lemma MembershipTaxRateFloor(c: Config, m: int)
    requires c.minTaxRate <= c.maxTaxRate
    requires c.taxRateDecrease > 0.0
    requires m >= c.yearsBeforeTaxRateDecrease
    requires (m - c.yearsBeforeTaxRateDecrease) as real >= YearsToFloor(c)
    ensures MembershipTaxRate(c, m) == c.minTaxRate
  {
    var k := (m - c.yearsBeforeTaxRateDecrease) as real;
    assert k * c.taxRateDecrease >= YearsToFloor(c) * c.taxRateDecrease;
  }

  /** Scaling both sides of an inequality by a non-negative factor keeps it. */
  lemma ScaleLe(a: real, b: real, k: real)
    requires a <= b && k >= 0.0
    ensures a * k <= b * k
  {
    assert (b - a) * k >= 0.0;
  }

  // ---------------------------------------------------------------------
  // Progressive bracket tax
  // ---------------------------------------------------------------------

  /**
   * The bracket walk: starting from the highest threshold, the part of the
   * remaining income above a bracket's threshold is taxed at that bracket's
   * rate and the remaining income drops to the threshold.
   */
  function Tax(bs: seq<Bracket>, remainingIncome: real): real
    decreases |bs|
  {
    if bs == [] then
      0.0
    else if remainingIncome > bs[0].threshold then
      (remainingIncome - bs[0].threshold) * bs[0].rate / 100.0 + Tax(bs[1..], bs[0].threshold)
    else
      Tax(bs[1..], remainingIncome)
  }

  /** The loop over the configured brackets, accumulating tax and lowering the remaining income. */
  method CalculateTax(c: Config, income: real) returns (tax: real)
    ensures tax == Tax(c.taxBrackets, income)
    ensures BracketsWellFormed(c.taxBrackets) ==> tax == PerBracketTax(c.taxBrackets, income)
  {
    var bs := c.taxBrackets;
    tax := 0.0;
    var remainingIncome := income;
    for k := 0 to |bs|
      invariant tax + Tax(bs[k..], remainingIncome) == Tax(bs, income)
    {
      var bracket := bs[k];
      assert bs[k..][1..] == bs[k + 1..];
      if remainingIncome > bracket.threshold {
        var taxableInThisBracket := remainingIncome - bracket.threshold;
        tax := tax + taxableInThisBracket * bracket.rate / 100.0;
        remainingIncome := bracket.threshold;
      }
    }
    if BracketsWellFormed(bs) {
      TaxIsPerBracketSum(bs, income);
    }
  }

  /** The most of `income` that survives the brackets above bracket k: its upper bound is the previous threshold. */
  function Ceiling(bs: seq<Bracket>, k: nat, income: real): real
    requires k <= |bs|
  {
    if k == 0 then income else Min(income, bs[k - 1].threshold)
  }

  /** The portion of `income` that lies inside bracket k: above its threshold and below the one above it. */
  function Portion(bs: seq<Bracket>, k: nat, income: real): (p: real)
    requires k < |bs|
    ensures p >= 0.0
  {
    Max(0.0, Ceiling(bs, k, income) - bs[k].threshold)
  }

  /** Sum, over brackets k and after, of rate times the portion of income in that bracket. */
  function SumOfBracketTaxes(bs: seq<Bracket>, k: nat, income: real): real
    requires k <= |bs|
    decreases |bs| - k
  {
    if k == |bs| then 0.0
    else bs[k].rate * Portion(bs, k, income) / 100.0 + SumOfBracketTaxes(bs, k + 1, income)
  }

  /** Reference definition of progressive tax: each bracket's rate applied to the income inside it. */
  function PerBracketTax(bs: seq<Bracket>, income: real): real
  {
    SumOfBracketTaxes(bs, 0, income)
  }

  lemma {:induction false} TaxSuffixIsBracketSum(bs: seq<Bracket>, k: nat, income: real)
    requires Descending(bs)
    requires k <= |bs|
    ensures Tax(bs[k..], Ceiling(bs, k, income)) == SumOfBracketTaxes(bs, k, income)
    decreases |bs| - k
  {
    if k < |bs| {
      assert bs[k..][1..] == bs[k + 1..];
      var m := Ceiling(bs, k, income);
      TaxSuffixIsBracketSum(bs, k + 1, income);
      if m > bs[k].threshold {
        assert Ceiling(bs, k + 1, income) == bs[k].threshold;
      } else {
        assert Ceiling(bs, k + 1, income) == m;
      }
    }
  }

  /** On a well-formed table, the bracket walk computes exactly the per-bracket sum. */
  lemma TaxIsPerBracketSum(bs: seq<Bracket>, income: real)
    requires BracketsWellFormed(bs)
    ensures Tax(bs, income) == PerBracketTax(bs, income)
  {
    TaxSuffixIsBracketSum(bs, 0, income);
    assert bs[0..] == bs;
  }

  /** No tax is due on an income that does not exceed the lowest threshold when all thresholds are non-negative. */
  lemma {:induction false} TaxZeroBelowThresholds(bs: seq<Bracket>, income: real)
    requires forall i :: 0 <= i < |bs| ==> bs[i].threshold >= 0.0
    requires income <= 0.0
    ensures Tax(bs, income) == 0.0
    decreases |bs|
  {
    if bs != [] {
      TaxZeroBelowThresholds(bs[1..], income);
    }
  }

  /** No rate is negative, so no tax is negative. */
  lemma {:induction false} TaxNonNegative(bs: seq<Bracket>, income: real)
    requires forall i :: 0 <= i < |bs| ==> bs[i].rate >= 0.0
    ensures Tax(bs, income) >= 0.0
    decreases |bs|
  {
    if bs != [] {
      var t := bs[0].threshold;
      if income > t {
        TaxNonNegative(bs[1..], t);
        ScaleLe(0.0, income - t, bs[0].rate);
      } else {
        TaxNonNegative(bs[1..], income);
      }
    }
  }

  /** The bracket walk is non-decreasing in income whenever no rate is negative. */
  lemma {:induction false} TaxMonotone(bs: seq<Bracket>, x: real, y: real)
    requires forall i :: 0 <= i < |bs| ==> bs[i].rate >= 0.0
    requires x <= y
    ensures Tax(bs, x) <= Tax(bs, y)
    decreases |bs|
  {
    if bs != [] {
      var t, rate := bs[0].threshold, bs[0].rate;
      if x > t {
        ScaleLe(x - t, y - t, rate);
      } else if y > t {
        TaxMonotone(bs[1..], x, t);
        ScaleLe(0.0, y - t, rate);
      } else {
        TaxMonotone(bs[1..], x, y);
      }
    }
  }

  /**
   * With one rate throughout, the walk taxes every unit of positive income
   * exactly once: the slices of a descending table ending at 0 cover the
   * income without gap or overlap.
   */
  lemma {:induction false} UniformRateCoversIncome(bs: seq<Bracket>, rate: real, income: real)
    requires |bs| > 0 && Descending(bs) && bs[|bs| - 1].threshold == 0.0
    requires forall i :: 0 <= i < |bs| ==> bs[i].rate == rate
    ensures Tax(bs, income) == rate * Max(0.0, income) / 100.0
    decreases |bs|
  {
    if |bs| == 1 {
      assert bs[1..] == [];
    } else {
      var t := bs[0].threshold;
      assert bs[1..][|bs| - 2] == bs[|bs| - 1];
      UniformRateCoversIncome(bs[1..], rate, if income > t then t else income);
      assert t > 0.0 by { assert bs[0].threshold > bs[|bs| - 1].threshold; }
    }
  }

  /** The increase of the tax between two incomes is at most the top rate applied to the difference. */
  lemma {:induction false} TaxIncreaseAtMostTopRate(bs: seq<Bracket>, top: real, x: real, y: real)
    requires top >= 0.0
    requires forall i :: 0 <= i < |bs| ==> 0.0 <= bs[i].rate <= top
    requires x <= y
    ensures Tax(bs, y) - Tax(bs, x) <= (y - x) * top / 100.0
    decreases |bs|
  {
    if bs == [] {
      ScaledNonNegative(y - x, top);
    } else {
      var t, rate := bs[0].threshold, bs[0].rate;
      if x > t {
        assert Tax(bs, y) == (y - t) * rate / 100.0 + Tax(bs[1..], t);
        assert Tax(bs, x) == (x - t) * rate / 100.0 + Tax(bs[1..], t);
        SlicesWithinTopRate(x, y, t, rate, top);
      } else if y > t {
        TaxIncreaseAtMostTopRate(bs[1..], top, x, t);
        assert Tax(bs, y) == (y - t) * rate / 100.0 + Tax(bs[1..], t);
        assert Tax(bs, x) == Tax(bs[1..], x);
        SliceAndRestWithinTopRate(x, y, t, rate, top);
      } else {
        TaxIncreaseAtMostTopRate(bs[1..], top, x, y);
        assert Tax(bs, y) == Tax(bs[1..], y);
        assert Tax(bs, x) == Tax(bs[1..], x);
      }
    }
  }

  /** The tax increase bound, for an increase of income of at most `bound`. */
  lemma TaxIncreaseWithinBound(bs: seq<Bracket>, top: real, x: real, y: real, bound: real)
    requires top >= 0.0
    requires forall i :: 0 <= i < |bs| ==> 0.0 <= bs[i].rate <= top
    requires x <= y && y - x <= bound
    ensures Tax(bs, y) - Tax(bs, x) <= bound * top / 100.0
  {
    TaxIncreaseAtMostTopRate(bs, top, x, y);
    WithinWiderGap(Tax(bs, y) - Tax(bs, x), y - x, bound, top);
  }

  /** A difference bounded by one gap at the top rate is bounded by any wider gap. */
  lemma WithinWiderGap(d: real, gap: real, bound: real, top: real)
    requires d <= gap * top / 100.0 && gap <= bound && top >= 0.0
    ensures d <= bound * top / 100.0
  {
    ScaleLe(gap, bound, top);
  }

  lemma ScaledNonNegative(a: real, k: real)
    requires a >= 0.0 && k >= 0.0
    ensures a * k / 100.0 >= 0.0
  {
    ScaleLe(0.0, a, k);
  }

  /** Two incomes above the same threshold differ in tax by their difference at that bracket's rate. */
  lemma SlicesWithinTopRate(x: real, y: real, t: real, rate: real, top: real)
    requires x <= y && 0.0 <= rate <= top
    ensures (y - t) * rate / 100.0 - (x - t) * rate / 100.0 <= (y - x) * top / 100.0
  {
    var a, b := (y - t) * rate, (x - t) * rate;
    assert a - b == (y - x) * rate;
    ScaleLe(rate, top, y - x);
    assert (y - x) * rate <= (y - x) * top;
  }

  /** The slice above the threshold at its rate, plus the rest at the top rate, is within the top rate overall. */
  lemma SliceAndRestWithinTopRate(x: real, y: real, t: real, rate: real, top: real)
    requires x <= t <= y && 0.0 <= rate <= top
    ensures (y - t) * rate / 100.0 + (t - x) * top / 100.0 <= (y - x) * top / 100.0
  {
    ScaleLe(rate, top, y - t);
    assert (y - t) * rate <= (y - t) * top;
    assert (y - t) * top + (t - x) * top == (y - x) * top;
  }

  // ---------------------------------------------------------------------
  // Savings from a deduction
  // ---------------------------------------------------------------------

  /**
   * Tax on the income minus tax on the income reduced by the deduction,
   * with the reduced income clamped at zero.
   */
  function CalculateTaxSavings(c: Config, income: real, deduction: real): (r: real)
    requires BracketsWellFormed(c.taxBrackets)
    ensures deduction >= 0.0 ==> 0.0 <= r <= Tax(c.taxBrackets, income)
    ensures deduction == 0.0 ==> r == 0.0
    ensures deduction >= income ==> r == Tax(c.taxBrackets, income)
    ensures deduction >= 0.0 && Progressive(c.taxBrackets) ==> r <= deduction * c.taxBrackets[0].rate / 100.0
  {
    var bs := c.taxBrackets;
    var taxBeforeDeduction := Tax(bs, income);
    var taxAfterDeduction := Tax(bs, Max(0.0, income - deduction));
    TaxSavingsBounds(bs, income, deduction);
    taxBeforeDeduction - taxAfterDeduction
  }

  /** The facts behind the savings contract, stated on the difference of the two taxes. */
  lemma TaxSavingsBounds(bs: seq<Bracket>, income: real, deduction: real)
    requires BracketsWellFormed(bs)
    ensures var r := Tax(bs, income) - Tax(bs, Max(0.0, income - deduction));
      && (deduction >= 0.0 ==> 0.0 <= r <= Tax(bs, income))
      && (deduction == 0.0 ==> r == 0.0)
      && (deduction >= income ==> r == Tax(bs, income))
      && (deduction >= 0.0 && Progressive(bs) ==> r <= deduction * bs[0].rate / 100.0)
  {
    var reduced := Max(0.0, income - deduction);
    var r := Tax(bs, income) - Tax(bs, reduced);
    BracketThresholdsNonNegative(bs);
    TaxNonNegative(bs, reduced);
    TaxZeroBelowThresholds(bs, 0.0);
    if income <= 0.0 {
      TaxZeroBelowThresholds(bs, income);
    }
    if deduction >= income {
      assert reduced == 0.0;
    }
    if deduction == 0.0 && income >= 0.0 {
      assert reduced == income;
    }
    if deduction >= 0.0 {
      if income >= 0.0 {
        TaxMonotone(bs, reduced, income);
      } else {
        assert reduced == 0.0 && r == 0.0;
      }
      if Progressive(bs) {
        SavingsAtMostTopRate(bs, income, deduction);
      }
    }
  }

  /** With progressive rates a deduction saves at most its amount at the top rate. */
  lemma SavingsAtMostTopRate(bs: seq<Bracket>, income: real, deduction: real)
    requires BracketsWellFormed(bs) && Progressive(bs)
    requires deduction >= 0.0
    ensures Tax(bs, income) - Tax(bs, Max(0.0, income - deduction)) <= deduction * bs[0].rate / 100.0
  {
    TopRateIsHighest(bs);
    if income >= 0.0 {
      TaxIncreaseWithinBound(bs, bs[0].rate, Max(0.0, income - deduction), income, deduction);
    } else {
      BracketThresholdsNonNegative(bs);
      TaxZeroBelowThresholds(bs, income);
      TaxZeroBelowThresholds(bs, Max(0.0, income - deduction));
      ScaledNonNegative(deduction, bs[0].rate);
    }
  }

  lemma BracketThresholdsNonNegative(bs: seq<Bracket>)
    requires BracketsWellFormed(bs)
    ensures forall i :: 0 <= i < |bs| ==> bs[i].threshold >= 0.0
  {
    forall i | 0 <= i < |bs| ensures bs[i].threshold >= 0.0 {
      if i < |bs| - 1 {
        assert bs[i].threshold > bs[|bs| - 1].threshold;
      }
    }
  }

  lemma TopRateIsHighest(bs: seq<Bracket>)
    requires BracketsWellFormed(bs) && Progressive(bs)
    ensures forall i :: 0 <= i < |bs| ==> 0.0 <= bs[i].rate <= bs[0].rate
  {
    forall i | 0 < i < |bs| ensures bs[i].rate <= bs[0].rate {
      assert bs[0].rate > bs[i].rate;
    }
  }
}
