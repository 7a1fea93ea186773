/** The "manual calculations" panel: the page works the Current figures out
    a second time, and for each projected year it re-derives the staff,
    non-staff and combined costs from the row before, to show the working
    step by step. This module models that second derivation and proves it
    shows the same figures as the projection table. */
module ManualCalculations {
  import opened Projection
  import ProjectionProperties

  /** The base figures the panel shows for the Current year. */
  datatype BaseCalculations = BaseCalculations(
    termsPerYear: real,
    effectiveDiscount: real,
    grossAnnualRevenue: real,
    discountAmount: real,
    currentAnnualRevenue: real,
    currentAnnualCosts: real,
    staffCosts: real,
    nonStaffCosts: real)

  /** The base figures, worked out on their own: non-staff costs here are
      the costs times the complement of the staff share, where the table
      takes them as costs less staff costs. */
  function BaseCalculationsFor(p: ProjectionInputs): BaseCalculations
  {
    var termsPerYear := TermsPerYear;
    var effectiveDiscount := p.calculatedDiscountEffect / 100.0;
    var grossAnnualRevenue := p.numChildren * p.feePerTerm * termsPerYear;
    var discountAmount := grossAnnualRevenue * effectiveDiscount;
    var currentAnnualRevenue := grossAnnualRevenue - discountAmount;
    var currentAnnualCosts := currentAnnualRevenue - p.currentSurplus;
    BaseCalculations(
      termsPerYear := termsPerYear,
      effectiveDiscount := effectiveDiscount,
      grossAnnualRevenue := grossAnnualRevenue,
      discountAmount := discountAmount,
      currentAnnualRevenue := currentAnnualRevenue,
      currentAnnualCosts := currentAnnualCosts,
      staffCosts := currentAnnualCosts * (p.staffCostShare / 100.0),
      nonStaffCosts := currentAnnualCosts * (1.0 - p.staffCostShare / 100.0))
  }

  /** Taking a share off a total leaves the total times the complement of
      that share. */
  lemma ComplementShare(total: real, share: real)
    ensures total * (1.0 - share / 100.0) == total - total * (share / 100.0)
  {
  }

  /** The base figures are the Current row's figures, field by field. */
  lemma BaseAgreesWithCurrentRow(p: ProjectionInputs)
    ensures var b, row := BaseCalculationsFor(p), CurrentRow(p);
      && b.effectiveDiscount == p.EffectiveDiscount()
      && b.grossAnnualRevenue == row.grossRevenue
      && b.discountAmount == row.discountAmount
      && b.currentAnnualRevenue == row.revenue
      && b.currentAnnualCosts == row.costs
      && b.staffCosts == row.staffCosts
      && b.nonStaffCosts == row.nonStaffCosts
  {
    var b := BaseCalculationsFor(p);
    ComplementShare(b.currentAnnualCosts, p.staffCostShare);
  }

  /** The panel's base figures match row 0 of the table. */
  lemma BaseMatchesTable(p: ProjectionInputs)
    ensures var b, row := BaseCalculationsFor(p), FinancialProjection(p)[0];
      && b.effectiveDiscount == p.EffectiveDiscount()
      && b.grossAnnualRevenue == row.grossRevenue
      && b.discountAmount == row.discountAmount
      && b.currentAnnualRevenue == row.revenue
      && b.currentAnnualCosts == row.costs
      && b.staffCosts == row.staffCosts
      && b.nonStaffCosts == row.nonStaffCosts
  {
    BaseAgreesWithCurrentRow(p);
    TableRows(p);
  }

  /** The working the panel shows for one projected year. */
  datatype YearWorking = YearWorking(
    yearNum: nat,
    feeIncreaseForYear: real,
    payIncreaseForYear: real,
    inflationRate: real,
    prevGrossRevenue: real,
    staffCostsAfterPay: real,
    nonStaffCostsAfterInflation: real,
    combinedCosts: real)

  /** The working for projected year `index + 1`, read off the table: the
      previous gross revenue comes from the base figures for Year 1 and
      from the row above otherwise; staff and non-staff costs are regrown
      from the row above by that year's pay increase and inflation. */
  function ManualYear(p: ProjectionInputs, base: BaseCalculations, financialData: seq<FinancialData>,
                      index: nat): YearWorking
    requires |financialData| == 4 && index < 3
  {
    var feeIncreaseForYear := p.feeIncreaseByYear.At(index);
    var payIncreaseForYear := p.payIncreaseByYear.At(index);
    var inflationRate := p.inflationByYear.At(index);
    var prevGrossRevenue :=
      if index == 0 then base.grossAnnualRevenue else financialData[index].grossRevenue;
    var previousYear := financialData[index];
    var staffCostsAfterPay := Grow(previousYear.staffCosts, payIncreaseForYear);
    var nonStaffCostsAfterInflation := Grow(previousYear.nonStaffCosts, inflationRate);
    YearWorking(
      yearNum := index + 1,
      feeIncreaseForYear := feeIncreaseForYear,
      payIncreaseForYear := payIncreaseForYear,
      inflationRate := inflationRate,
      prevGrossRevenue := prevGrossRevenue,
      staffCostsAfterPay := staffCostsAfterPay,
      nonStaffCostsAfterInflation := nonStaffCostsAfterInflation,
      combinedCosts := staffCostsAfterPay + nonStaffCostsAfterInflation)
  }

  /** The working the panel shows for each year agrees with the table: the
      previous gross revenue is the row above's, growing it by the year's
      fee increase gives the year's gross revenue, the regrown staff and
      non-staff costs are the year's, and their sum is the year's costs. */
  lemma ManualYearMatchesTable(p: ProjectionInputs, index: nat)
    requires index < 3
    ensures var rows := FinancialProjection(p);
            var w := ManualYear(p, BaseCalculationsFor(p), rows, index);
      && w.prevGrossRevenue == rows[index].grossRevenue
      && Grow(w.prevGrossRevenue, w.feeIncreaseForYear) == rows[index + 1].grossRevenue
      && w.staffCostsAfterPay == rows[index + 1].staffCosts
      && w.nonStaffCostsAfterInflation == rows[index + 1].nonStaffCosts
      && w.combinedCosts == rows[index + 1].costs
  {
    var rows := FinancialProjection(p);
    BaseMatchesTable(p);
    ProjectionProperties.CarryForward(p, index + 1);
    assert Balanced(rows[index + 1], p.EffectiveDiscount());
  }

  /** The turnover the summary card shows next to the gross revenue is the
      Current row's turnover. */
  function SummaryTurnover(numChildren: real, feePerTerm: real, calculatedDiscountEffect: real): real
  {
    (numChildren * feePerTerm * 3.0) * (1.0 - calculatedDiscountEffect / 100.0)
  }

  lemma SummaryTurnoverIsBaseTurnover(p: ProjectionInputs)
    ensures SummaryTurnover(p.numChildren, p.feePerTerm, p.calculatedDiscountEffect)
         == BaseCalculationsFor(p).currentAnnualRevenue
  {
    ComplementShare(p.numChildren * p.feePerTerm * TermsPerYear, p.calculatedDiscountEffect);
  }

  lemma SummaryTurnoverMatchesTable(p: ProjectionInputs)
    ensures SummaryTurnover(p.numChildren, p.feePerTerm, p.calculatedDiscountEffect)
         == FinancialProjection(p)[0].revenue
  {
    SummaryTurnoverIsBaseTurnover(p);
    BaseMatchesTable(p);
  }
}
