/** Per-year rates: one switch, "break down increases by year", decides for
    fee increases, pay increases and inflation at once whether the single
    figure is used for every year or the three year-specific figures are. */
module Resolver {
  import opened AppState

  /** A figure for each of Year 1, Year 2 and Year 3. */
  datatype PerYear = PerYear(year1: real, year2: real, year3: real) {
    /** The figure for the year at zero-based index i. */
    function At(i: nat): real
      requires i < 3
    {
      if i == 0 then year1 else if i == 1 then year2 else year3
    }
  }

  /** One figure copied into all three years. */
  function Flat(v: real): (r: PerYear)
    ensures forall i :: 0 <= i < 3 ==> r.At(i) == v
  {
    PerYear(v, v, v)
  }

  /** The single figure in every year when the breakdown is off; the three
      year-specific figures, in order, when it is on. */
  function ByYear(useYearBreakdown: bool, single: real, year1: real, year2: real, year3: real): (r: PerYear)
    ensures !useYearBreakdown ==> forall i :: 0 <= i < 3 ==> r.At(i) == single
    ensures useYearBreakdown ==> r.At(0) == year1 && r.At(1) == year2 && r.At(2) == year3
  {
    if useYearBreakdown then PerYear(year1, year2, year3) else Flat(single)
  }

  /** The three resolved schedules the projection reads. */
  datatype Rates = Rates(fee: PerYear, pay: PerYear, inflation: PerYear)

  function FeeIncreaseByYear(a: Assumptions): PerYear
  {
    ByYear(a.useYearBreakdown, a.feeIncrease, a.feeIncreaseYear1, a.feeIncreaseYear2, a.feeIncreaseYear3)
  }

  function PayIncreaseByYear(a: Assumptions): PerYear
  {
    ByYear(a.useYearBreakdown, a.payIncrease, a.payIncreaseYear1, a.payIncreaseYear2, a.payIncreaseYear3)
  }

  function InflationByYear(a: Assumptions): PerYear
  {
    ByYear(a.useYearBreakdown, a.inflationBase, a.inflationYear1, a.inflationYear2, a.inflationYear3)
  }

  /** Resolving the schedules: the one switch governs all three together, so
      either all three are flat or all three follow their year figures. */
  function Resolve(a: Assumptions): (r: Rates)
    ensures !a.useYearBreakdown ==>
              r.fee == Flat(a.feeIncrease) && r.pay == Flat(a.payIncrease) && r.inflation == Flat(a.inflationBase)
    ensures a.useYearBreakdown ==>
              && r.fee == PerYear(a.feeIncreaseYear1, a.feeIncreaseYear2, a.feeIncreaseYear3)
              && r.pay == PerYear(a.payIncreaseYear1, a.payIncreaseYear2, a.payIncreaseYear3)
              && r.inflation == PerYear(a.inflationYear1, a.inflationYear2, a.inflationYear3)
  {
    Rates(FeeIncreaseByYear(a), PayIncreaseByYear(a), InflationByYear(a))
  }

  /** A flat figure v and an explicit breakdown [v, v, v] resolve to the same
      schedules; the figures the inactive mode holds are ignored. */
  lemma FlatMatchesUniformBreakdown(a: Assumptions, b: Assumptions)
    requires !a.useYearBreakdown && b.useYearBreakdown
    requires b.feeIncreaseYear1 == b.feeIncreaseYear2 == b.feeIncreaseYear3 == a.feeIncrease
    requires b.payIncreaseYear1 == b.payIncreaseYear2 == b.payIncreaseYear3 == a.payIncrease
    requires b.inflationYear1 == b.inflationYear2 == b.inflationYear3 == a.inflationBase
    ensures Resolve(a) == Resolve(b)
  {
  }
}
