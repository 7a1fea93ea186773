/** The three-year projection table: a Current row back-solved from the known
    surplus, then Year 1 to Year 3 each compounding the row before it. */
module Projection {
  import opened AppState
  import Discount
  import Resolver

  /** Fees are charged per term, three terms a year. */
  const TermsPerYear: real := 3.0

  /** The labels of the four rows, in table order. */
  const Labels: seq<string> := ["Current", "Year 1", "Year 2", "Year 3"]

  /** One row of the projection table. `revenue` is turnover after
      discounts and `netPosition` is the surplus. */
  datatype FinancialData = FinancialData(
    year: string,
    revenue: real,
    costs: real,
    netPosition: real,
    feeIncrease: real,
    payIncrease: real,
    discountAmount: real,
    grossRevenue: real,
    staffCosts: real,
    nonStaffCosts: real
  )

  /** What one projected year applies to the row before it. */
  datatype YearStep = YearStep(year: string, feeIncrease: real, payIncrease: real, inflationRate: real)

  /** Percentage growth as a multiplier: 3% gives 1.03. */
  function Multiplier(pct: real): real { 1.0 + pct / 100.0 }

  /** An amount after growing by a percentage. */
  function Grow(amount: real, pct: real): real { amount * Multiplier(pct) }

  /** What the projection reads: the roll, the fee, the surplus and staff
      share, the discount effect in percent, and the three resolved rate
      schedules. */
  datatype ProjectionInputs = ProjectionInputs(
    numChildren: real,
    feePerTerm: real,
    feeIncreaseByYear: Resolver.PerYear,
    payIncreaseByYear: Resolver.PerYear,
    currentSurplus: real,
    calculatedDiscountEffect: real,
    staffCostShare: real,
    inflationByYear: Resolver.PerYear
  ) {
    /** The discount as a fraction of gross revenue, shared by every row. */
    function EffectiveDiscount(): real { calculatedDiscountEffect / 100.0 }

    /** What projected year i (zero-based) applies. */
    function Step(i: nat): YearStep
      requires i < 3
    {
      YearStep(Labels[i + 1], feeIncreaseByYear.At(i), payIncreaseByYear.At(i), inflationByYear.At(i))
    }

    /** The three projected years in order. */
    function Steps(): seq<YearStep>
    {
      [Step(0), Step(1), Step(2)]
    }
  }

  /** The projection's inputs drawn from the page state: the discount effect
      and the resolved schedules. */
  function InputsOf(a: Assumptions): ProjectionInputs
  {
    var r := Resolver.Resolve(a);
    ProjectionInputs(a.numChildren, a.feePerTerm, r.fee, r.pay, a.currentSurplus,
                     Discount.DiscountEffect(a.numChildren, a.numStaffChildren, a.otherChildrenDiscount),
                     a.staffCostShare, r.inflation)
  }

  /** The Current row: gross fees less discount give turnover, costs are
      whatever turnover is left once the known surplus is taken off, and
      those costs split into staff and non-staff by the staff share. */
  function CurrentRow(p: ProjectionInputs): FinancialData
  {
    var grossAnnualRevenue := p.numChildren * p.feePerTerm * TermsPerYear;
    var discountAmount := grossAnnualRevenue * p.EffectiveDiscount();
    var currentAnnualRevenue := grossAnnualRevenue - discountAmount;
    var currentAnnualCosts := currentAnnualRevenue - p.currentSurplus;
    var staffCosts := currentAnnualCosts * (p.staffCostShare / 100.0);
    FinancialData(
      year := Labels[0],
      revenue := currentAnnualRevenue,
      costs := currentAnnualCosts,
      netPosition := p.currentSurplus,
      feeIncrease := 0.0,
      payIncrease := 0.0,
      discountAmount := discountAmount,
      grossRevenue := grossAnnualRevenue,
      staffCosts := staffCosts,
      nonStaffCosts := currentAnnualCosts - staffCosts)
  }

  /** One projected year from the previous row: gross revenue grows by the
      fee increase, staff costs by the pay increase, non-staff costs by
      inflation. */
  function ProjectYear(prev: FinancialData, step: YearStep, effectiveDiscount: real): FinancialData
  {
    var grossRevenue := Grow(prev.grossRevenue, step.feeIncrease);
    var discountAmount := grossRevenue * effectiveDiscount;
    var revenue := grossRevenue - discountAmount;
    var staffCosts := Grow(prev.staffCosts, step.payIncrease);
    var nonStaffCosts := Grow(prev.nonStaffCosts, step.inflationRate);
    var costs := staffCosts + nonStaffCosts;
    FinancialData(
      year := step.year,
      revenue := revenue,
      costs := costs,
      netPosition := revenue - costs,
      feeIncrease := step.feeIncrease,
      payIncrease := step.payIncrease,
      discountAmount := discountAmount,
      grossRevenue := grossRevenue,
      staffCosts := staffCosts,
      nonStaffCosts := nonStaffCosts)
  }

  /** The row a projected year grows from: `prev` for the first, otherwise
      the row produced just before it. */
  function Previous(prev: FinancialData, rows: seq<FinancialData>, i: nat): FinancialData
    requires i <= |rows|
  {
    if i == 0 then prev else rows[i - 1]
  }

  /** `rows` is a chain grown from `prev`: each row is one step applied to
      the row before it, the first to `prev`. */
  ghost predicate IsChain(prev: FinancialData, steps: seq<YearStep>, effectiveDiscount: real,
                          rows: seq<FinancialData>)
  {
    && |rows| == |steps|
    && forall i :: 0 <= i < |rows| ==>
         rows[i] == ProjectYear(Previous(prev, rows, i), steps[i], effectiveDiscount)
  }

  /** The carry-forward fold over a list of year steps. */
  function Fold(prev: FinancialData, steps: seq<YearStep>, effectiveDiscount: real): (rows: seq<FinancialData>)
    ensures IsChain(prev, steps, effectiveDiscount, rows)
    decreases |steps|
  {
    if |steps| == 0 then []
    else
      var first := ProjectYear(prev, steps[0], effectiveDiscount);
      var rest := Fold(first, steps[1..], effectiveDiscount);
      ChainCons(prev, steps, effectiveDiscount, first, rest);
      [first] + rest
  }

  /** A first row one step from `prev`, followed by a chain grown from that
      row, is a chain grown from `prev`. */
  lemma ChainCons(prev: FinancialData, steps: seq<YearStep>, effectiveDiscount: real,
                  first: FinancialData, rest: seq<FinancialData>)
    requires |steps| > 0
    requires first == ProjectYear(prev, steps[0], effectiveDiscount)
    requires IsChain(first, steps[1..], effectiveDiscount, rest)
    ensures IsChain(prev, steps, effectiveDiscount, [first] + rest)
  {
    var rows := [first] + rest;
    forall i | 0 <= i < |rows|
      ensures rows[i] == ProjectYear(Previous(prev, rows, i), steps[i], effectiveDiscount)
    {
      if i > 0 {
        assert rows[i] == rest[i - 1];
        assert Previous(prev, rows, i) == Previous(first, rest, i - 1);
      }
    }
  }

  /** Dropping the first row of a chain leaves a chain grown from that row. */
  lemma ChainTail(prev: FinancialData, steps: seq<YearStep>, effectiveDiscount: real,
                  rows: seq<FinancialData>)
    requires |steps| > 0
    requires IsChain(prev, steps, effectiveDiscount, rows)
    ensures rows[0] == ProjectYear(prev, steps[0], effectiveDiscount)
    ensures IsChain(rows[0], steps[1..], effectiveDiscount, rows[1..])
  {
    var rest := rows[1..];
    forall i | 0 <= i < |rest|
      ensures rest[i] == ProjectYear(Previous(rows[0], rest, i), steps[1..][i], effectiveDiscount)
    {
      assert rest[i] == rows[i + 1];
      assert Previous(rows[0], rest, i) == Previous(prev, rows, i + 1);
    }
  }

  /** The fold is the only chain grown from `prev` over the given steps. */
  lemma {:induction false} FoldUnique(prev: FinancialData, steps: seq<YearStep>, effectiveDiscount: real,
                                      rows: seq<FinancialData>)
    requires IsChain(prev, steps, effectiveDiscount, rows)
    ensures rows == Fold(prev, steps, effectiveDiscount)
    decreases |steps|
  {
    if |steps| > 0 {
      ChainTail(prev, steps, effectiveDiscount, rows);
      FoldUnique(rows[0], steps[1..], effectiveDiscount, rows[1..]);
      assert rows == [rows[0]] + rows[1..];
    }
  }

  /** Every row of a projection balances: discount at the shared rate,
      turnover is gross less discount, costs are staff plus non-staff, and
      the surplus is turnover less costs. */
  ghost predicate Balanced(row: FinancialData, effectiveDiscount: real)
  {
    && row.discountAmount == row.grossRevenue * effectiveDiscount
    && row.revenue == row.grossRevenue - row.discountAmount
    && row.costs == row.staffCosts + row.nonStaffCosts
    && row.netPosition == row.revenue - row.costs
  }

  lemma CurrentRowBalanced(p: ProjectionInputs)
    ensures Balanced(CurrentRow(p), p.EffectiveDiscount())
  {
  }

  lemma ProjectYearBalanced(prev: FinancialData, step: YearStep, effectiveDiscount: real)
    ensures Balanced(ProjectYear(prev, step, effectiveDiscount), effectiveDiscount)
  {
  }

  /** The projection table, year by year as the page writes it out: the
      Current row, then Year 1, Year 2 and Year 3 each grown from the row
      before. It has exactly four rows labelled Current, Year 1, Year 2,
      Year 3, each balanced at the one shared discount rate, the
      back-solved Current row included. */
  function FinancialProjection(p: ProjectionInputs): (rows: seq<FinancialData>)
    ensures |rows| == 4
    ensures forall i :: 0 <= i < 4 ==> rows[i].year == Labels[i]
    ensures forall i :: 0 <= i < 4 ==> Balanced(rows[i], p.EffectiveDiscount())
  {
    var d := p.EffectiveDiscount();
    var current := CurrentRow(p);
    var year1 := ProjectYear(current, p.Step(0), d);
    var year2 := ProjectYear(year1, p.Step(1), d);
    var year3 := ProjectYear(year2, p.Step(2), d);
    CurrentRowBalanced(p);
    ProjectYearBalanced(current, p.Step(0), d);
    ProjectYearBalanced(year1, p.Step(1), d);
    ProjectYearBalanced(year2, p.Step(2), d);
    [current, year1, year2, year3]
  }

  /** The table row by row: the Current row, then each year one step on from
      the row above it. */
  lemma TableRows(p: ProjectionInputs)
    ensures var rows, d := FinancialProjection(p), p.EffectiveDiscount();
      && rows[0] == CurrentRow(p)
      && rows[1] == ProjectYear(rows[0], p.Step(0), d)
      && rows[2] == ProjectYear(rows[1], p.Step(1), d)
      && rows[3] == ProjectYear(rows[2], p.Step(2), d)
  {
  }

  /** The table is the only four-row sequence that starts at the Current
      row and grows each year from the row above it. */
  lemma TableUnique(p: ProjectionInputs, rows: seq<FinancialData>)
    requires |rows| == 4
    requires rows[0] == CurrentRow(p)
    requires forall i :: 1 <= i <= 3 ==>
               rows[i] == ProjectYear(rows[i - 1], p.Step(i - 1), p.EffectiveDiscount())
    ensures rows == FinancialProjection(p)
  {
    TableRows(p);
    assert rows[1] == ProjectYear(rows[0], p.Step(0), p.EffectiveDiscount());
    assert rows[2] == ProjectYear(rows[1], p.Step(1), p.EffectiveDiscount());
    assert rows[3] == ProjectYear(rows[2], p.Step(2), p.EffectiveDiscount());
  }

  /** The year-by-year table is the carry-forward fold over the three
      projected years, seeded with the Current row. */
  lemma ProjectionIsFold(p: ProjectionInputs)
    ensures FinancialProjection(p) == [CurrentRow(p)] + Fold(CurrentRow(p), p.Steps(), p.EffectiveDiscount())
  {
    var rows, d, steps := FinancialProjection(p), p.EffectiveDiscount(), p.Steps();
    var years := rows[1..];
    TableRows(p);
    forall i | 0 <= i < 3
      ensures years[i] == ProjectYear(Previous(CurrentRow(p), years, i), steps[i], d)
    {
      assert Previous(CurrentRow(p), years, i) == rows[i];
    }
    assert IsChain(CurrentRow(p), steps, d, years);
    FoldUnique(CurrentRow(p), steps, d, years);
    assert rows == [CurrentRow(p)] + years;
  }

  /** The table for a page state. */
  function TableFor(a: Assumptions): seq<FinancialData>
  {
    FinancialProjection(InputsOf(a))
  }

  /** The page's running staff and non-staff totals, written as a loop:
      the two totals are updated in place and one row is pushed per year. */
  method ComputeFinancialData(p: ProjectionInputs) returns (projections: seq<FinancialData>)
    ensures projections == FinancialProjection(p)
  {
    var effectiveDiscount := p.EffectiveDiscount();
    var current := CurrentRow(p);
    var grossRevenue := current.grossRevenue;
    var staffCosts := current.staffCosts;
    var nonStaffCosts := current.nonStaffCosts;
    projections := [current];
    var k := 0;
    while k < 3
      invariant 0 <= k <= 3
      invariant |projections| == k + 1
      invariant projections[0] == current
      invariant forall i :: 1 <= i <= k ==>
                  projections[i] == ProjectYear(projections[i - 1], p.Step(i - 1), effectiveDiscount)
      invariant grossRevenue == projections[k].grossRevenue
      invariant staffCosts == projections[k].staffCosts
      invariant nonStaffCosts == projections[k].nonStaffCosts
    {
      var step := p.Step(k);
      ghost var prevRow := projections[k];
      grossRevenue := Grow(grossRevenue, step.feeIncrease);
      var discountAmount := grossRevenue * effectiveDiscount;
      var revenue := grossRevenue - discountAmount;
      staffCosts := Grow(staffCosts, step.payIncrease);
      nonStaffCosts := Grow(nonStaffCosts, step.inflationRate);
      var costs := staffCosts + nonStaffCosts;
      var row := FinancialData(step.year, revenue, costs, revenue - costs,
                               step.feeIncrease, step.payIncrease, discountAmount,
                               grossRevenue, staffCosts, nonStaffCosts);
      assert row == ProjectYear(prevRow, step, effectiveDiscount);
      projections := projections + [row];
      k := k + 1;
    }
    TableUnique(p, projections);
  }
}
