/** Properties of the projection table as a whole: how the Current row is
    seeded, how each year carries forward from the one before, and what the
    rates add up to over three years. */
module ProjectionProperties {
  import opened AppState
  import opened Projection
  import Discount
  import Resolver

  /** The Current row of the table: gross fees are roll x fee x three
      terms, costs are turnover less the known surplus, that surplus is the
      row's net position, staff costs are the staff share of costs with
      non-staff costs the rest, and no increase is reported. */
  lemma CurrentRowSeeded(p: ProjectionInputs)
    ensures var row := FinancialProjection(p)[0];
      && row.year == "Current"
      && row.grossRevenue == p.numChildren * p.feePerTerm * TermsPerYear
      && row.costs == row.revenue - p.currentSurplus
      && row.netPosition == p.currentSurplus
      && row.staffCosts == row.costs * (p.staffCostShare / 100.0)
      && row.staffCosts + row.nonStaffCosts == row.costs
      && row.feeIncrease == 0.0 && row.payIncrease == 0.0
  {
    TableRows(p);
  }

  /** Year n of the table (n = 1, 2, 3) grows row n - 1: gross revenue by
      that year's resolved fee increase, staff costs by its pay increase,
      non-staff costs by its inflation; and it reports the fee and pay
      increases it applied. */
  lemma CarryForward(p: ProjectionInputs, n: nat)
    requires 1 <= n <= 3
    ensures var rows := FinancialProjection(p);
      && rows[n].grossRevenue == Grow(rows[n - 1].grossRevenue, p.feeIncreaseByYear.At(n - 1))
      && rows[n].staffCosts == Grow(rows[n - 1].staffCosts, p.payIncreaseByYear.At(n - 1))
      && rows[n].nonStaffCosts == Grow(rows[n - 1].nonStaffCosts, p.inflationByYear.At(n - 1))
      && rows[n].feeIncrease == p.feeIncreaseByYear.At(n - 1)
      && rows[n].payIncrease == p.payIncreaseByYear.At(n - 1)
  {
    TableRows(p);
  }

  /** Every row with some gross revenue discounts it at the given rate. */
  ghost predicate DiscountRatioIs(rows: seq<FinancialData>, effectiveDiscount: real)
  {
    forall i :: 0 <= i < |rows| && rows[i].grossRevenue != 0.0 ==>
      rows[i].discountAmount / rows[i].grossRevenue == effectiveDiscount
  }

  /** Balanced rows all discount at their shared rate. */
  lemma BalancedRowsShareRatio(rows: seq<FinancialData>, effectiveDiscount: real)
    requires forall i :: 0 <= i < |rows| ==> Balanced(rows[i], effectiveDiscount)
    ensures DiscountRatioIs(rows, effectiveDiscount)
  {
    forall i | 0 <= i < |rows| && rows[i].grossRevenue != 0.0
      ensures rows[i].discountAmount / rows[i].grossRevenue == effectiveDiscount
    {
      BalancedRatio(rows[i], effectiveDiscount);
    }
  }

  /** Every row of the table discounts its gross revenue at the same rate,
      the discount effect. */
  lemma ConstantDiscountRatio(p: ProjectionInputs)
    ensures DiscountRatioIs(FinancialProjection(p), p.calculatedDiscountEffect / 100.0)
  {
    BalancedRowsShareRatio(FinancialProjection(p), p.EffectiveDiscount());
  }

  lemma BalancedRatio(row: FinancialData, effectiveDiscount: real)
    requires Balanced(row, effectiveDiscount)
    requires row.grossRevenue != 0.0
    ensures row.discountAmount / row.grossRevenue == effectiveDiscount
  {
  }

  /** The product of the growth multipliers of the first k years. */
  function Compounded(rates: Resolver.PerYear, k: nat): real
    requires k <= 3
  {
    if k == 0 then 1.0 else Compounded(rates, k - 1) * Multiplier(rates.At(k - 1))
  }

  /** A figure that grows year on year by the given rates. */
  ghost predicate GrowsBy(amounts: seq<real>, rates: Resolver.PerYear)
  {
    && |amounts| == 4
    && amounts[1] == Grow(amounts[0], rates.At(0))
    && amounts[2] == Grow(amounts[1], rates.At(1))
    && amounts[3] == Grow(amounts[2], rates.At(2))
  }

  /** A figure that grows year on year stands, after k years, at its
      starting value times the compounded multiplier of those years. */
  lemma {:induction false} GrowthCompounds(amounts: seq<real>, rates: Resolver.PerYear, k: nat)
    requires GrowsBy(amounts, rates)
    requires k <= 3
    ensures amounts[k] == amounts[0] * Compounded(rates, k)
  {
    if k == 0 {
      assert Compounded(rates, 0) == 1.0;
    } else {
      GrowthCompounds(amounts, rates, k - 1);
      GrowCompounded(amounts[0], amounts[k - 1], Compounded(rates, k - 1), rates.At(k - 1));
    }
  }

  /** One more year of growth on a compounded amount extends the product. */
  lemma GrowCompounded(base: real, amount: real, factor: real, pct: real)
    requires amount == base * factor
    ensures Grow(amount, pct) == base * (factor * Multiplier(pct))
  {
  }

  /** The gross revenue, staff cost and non-staff cost columns of a table. */
  function GrossColumn(rows: seq<FinancialData>): seq<real>
  {
    seq(|rows|, i requires 0 <= i < |rows| => rows[i].grossRevenue)
  }

  function StaffColumn(rows: seq<FinancialData>): seq<real>
  {
    seq(|rows|, i requires 0 <= i < |rows| => rows[i].staffCosts)
  }

  function NonStaffColumn(rows: seq<FinancialData>): seq<real>
  {
    seq(|rows|, i requires 0 <= i < |rows| => rows[i].nonStaffCosts)
  }

  /** Gross revenue grows by the fee increases, staff costs by the pay
      increases and non-staff costs by inflation, year on year down the
      table. */
  lemma ColumnsGrow(p: ProjectionInputs)
    ensures GrowsBy(GrossColumn(FinancialProjection(p)), p.feeIncreaseByYear)
    ensures GrowsBy(StaffColumn(FinancialProjection(p)), p.payIncreaseByYear)
    ensures GrowsBy(NonStaffColumn(FinancialProjection(p)), p.inflationByYear)
  {
    CarryForward(p, 1);
    CarryForward(p, 2);
    CarryForward(p, 3);
  }

  /** A figure that, after k years, stands at its starting value times the
      compounded multiplier of those years. */
  ghost predicate CompoundsFrom(amounts: seq<real>, rates: Resolver.PerYear)
  {
    && |amounts| == 4
    && forall k :: 0 <= k < 4 ==> amounts[k] == amounts[0] * Compounded(rates, k)
  }

  /** Growing year on year and standing at the compounded product are the
      same thing, in both directions. */
  lemma GrowsByIffCompounds(amounts: seq<real>, rates: Resolver.PerYear)
    requires |amounts| == 4
    ensures GrowsBy(amounts, rates) <==> CompoundsFrom(amounts, rates)
  {
    if GrowsBy(amounts, rates) {
      GrowthIsCompounded(amounts, rates);
    }
    if CompoundsFrom(amounts, rates) {
      CompoundedIsGrowth(amounts, rates);
    }
  }

  lemma GrowthIsCompounded(amounts: seq<real>, rates: Resolver.PerYear)
    requires GrowsBy(amounts, rates)
    ensures CompoundsFrom(amounts, rates)
  {
    forall k | 0 <= k < 4
      ensures amounts[k] == amounts[0] * Compounded(rates, k)
    {
      GrowthCompounds(amounts, rates, k);
    }
  }

  lemma CompoundedIsGrowth(amounts: seq<real>, rates: Resolver.PerYear)
    requires CompoundsFrom(amounts, rates)
    ensures GrowsBy(amounts, rates)
  {
    forall k | 1 <= k < 4
      ensures amounts[k] == Grow(amounts[k - 1], rates.At(k - 1))
    {
      var factor := Compounded(rates, k - 1);
      assert amounts[k - 1] == amounts[0] * factor;
      assert amounts[k] == amounts[0] * (factor * Multiplier(rates.At(k - 1)));
      GrowCompounded(amounts[0], amounts[k - 1], factor, rates.At(k - 1));
    }
  }

  /** Closed form of the carry-forward: after k years gross revenue, staff
      costs and non-staff costs are the Current figures times the product of
      the fee, pay and inflation multipliers of those years. */
  lemma CompoundedGrowth(p: ProjectionInputs)
    ensures CompoundsFrom(GrossColumn(FinancialProjection(p)), p.feeIncreaseByYear)
    ensures CompoundsFrom(StaffColumn(FinancialProjection(p)), p.payIncreaseByYear)
    ensures CompoundsFrom(NonStaffColumn(FinancialProjection(p)), p.inflationByYear)
  {
    ColumnsGrow(p);
    GrowsByIffCompounds(GrossColumn(FinancialProjection(p)), p.feeIncreaseByYear);
    GrowsByIffCompounds(StaffColumn(FinancialProjection(p)), p.payIncreaseByYear);
    GrowsByIffCompounds(NonStaffColumn(FinancialProjection(p)), p.inflationByYear);
  }

  /** Two rows that agree on every money figure. */
  ghost predicate SameFigures(row: FinancialData, other: FinancialData)
  {
    && row.grossRevenue == other.grossRevenue
    && row.discountAmount == other.discountAmount
    && row.revenue == other.revenue
    && row.staffCosts == other.staffCosts
    && row.nonStaffCosts == other.nonStaffCosts
    && row.costs == other.costs
    && row.netPosition == other.netPosition
  }

  /** A four-row table whose every year repeats the Current row's figures. */
  ghost predicate Steady(rows: seq<FinancialData>)
  {
    && |rows| == 4
    && forall n :: 0 <= n < 4 ==> SameFigures(rows[n], rows[0])
  }

  /** A balanced table whose three grown columns do not grow stands still. */
  lemma UngrownTableIsSteady(rows: seq<FinancialData>, effectiveDiscount: real)
    requires |rows| == 4
    requires forall i :: 0 <= i < 4 ==> Balanced(rows[i], effectiveDiscount)
    requires GrowsBy(GrossColumn(rows), Resolver.Flat(0.0))
    requires GrowsBy(StaffColumn(rows), Resolver.Flat(0.0))
    requires GrowsBy(NonStaffColumn(rows), Resolver.Flat(0.0))
    ensures Steady(rows)
  {
    forall n | 1 <= n < 4
      ensures SameFigures(rows[n], rows[n - 1])
    {
      GrowByZero(rows[n - 1].grossRevenue);
      GrowByZero(rows[n - 1].staffCosts);
      GrowByZero(rows[n - 1].nonStaffCosts);
      assert Balanced(rows[n], effectiveDiscount);
      assert Balanced(rows[n - 1], effectiveDiscount);
    }
  }

  lemma GrowByZero(amount: real)
    ensures Grow(amount, 0.0) == amount
  {
  }

  /** With every rate at zero the projection stands still: every year
      repeats the Current row's figures, surplus included. */
  lemma ZeroRatesHoldSteady(p: ProjectionInputs)
    requires p.feeIncreaseByYear == p.payIncreaseByYear == p.inflationByYear == Resolver.Flat(0.0)
    ensures Steady(FinancialProjection(p))
  {
    ColumnsGrow(p);
    UngrownTableIsSteady(FinancialProjection(p), p.EffectiveDiscount());
  }

  /** In a balanced table whose gross revenue grows from nothing, there is
      no gross revenue, discount or turnover in any year. */
  lemma NoIncomeFromNothing(rows: seq<FinancialData>, effectiveDiscount: real, rates: Resolver.PerYear)
    requires |rows| == 4
    requires forall i :: 0 <= i < 4 ==> Balanced(rows[i], effectiveDiscount)
    requires GrowsBy(GrossColumn(rows), rates)
    requires rows[0].grossRevenue == 0.0
    ensures forall n :: 0 <= n < 4 ==>
              rows[n].grossRevenue == 0.0 && rows[n].discountAmount == 0.0 && rows[n].revenue == 0.0
  {
    forall n | 0 <= n < 4
      ensures rows[n].grossRevenue == 0.0 && rows[n].discountAmount == 0.0 && rows[n].revenue == 0.0
    {
      GrowthCompounds(GrossColumn(rows), rates, n);
      assert Balanced(rows[n], effectiveDiscount);
    }
  }

  /** The table depends on the rate figures only through the resolved
      schedules, so a flat figure v projects exactly as a breakdown of
      [v, v, v] does. */
  lemma ReplicationEquivalence(a: Assumptions, b: Assumptions)
    requires !a.useYearBreakdown && b.useYearBreakdown
    requires b.feeIncreaseYear1 == b.feeIncreaseYear2 == b.feeIncreaseYear3 == a.feeIncrease
    requires b.payIncreaseYear1 == b.payIncreaseYear2 == b.payIncreaseYear3 == a.payIncrease
    requires b.inflationYear1 == b.inflationYear2 == b.inflationYear3 == a.inflationBase
    requires a.numChildren == b.numChildren && a.feePerTerm == b.feePerTerm
    requires a.currentSurplus == b.currentSurplus && a.staffCostShare == b.staffCostShare
    requires a.numStaffChildren == b.numStaffChildren && a.otherChildrenDiscount == b.otherChildrenDiscount
    ensures TableFor(a) == TableFor(b)
  {
    Resolver.FlatMatchesUniformBreakdown(a, b);
    assert InputsOf(a) == InputsOf(b);
  }

  /** With no children there is no discount and no income in any year; the
      Current row's costs are the negated surplus. */
  lemma ZeroStudents(a: Assumptions)
    requires a.numChildren == 0.0
    ensures InputsOf(a).calculatedDiscountEffect == 0.0
    ensures forall n :: 0 <= n < 4 ==>
              var row := TableFor(a)[n];
              row.grossRevenue == 0.0 && row.discountAmount == 0.0 && row.revenue == 0.0
    ensures TableFor(a)[0].costs == -a.currentSurplus
  {
    var p := InputsOf(a);
    CurrentRowSeeded(p);
    ColumnsGrow(p);
    NoIncomeFromNothing(FinancialProjection(p), p.EffectiveDiscount(), p.feeIncreaseByYear);
  }
}
