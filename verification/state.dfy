/** The calculator's input state: one record holding every assumption the
    projection reads, with the values the page starts from. Money is in
    pounds and every rate is a percentage (3.0 means 3%), all as exact reals. */
module AppState {

  datatype Assumptions = Assumptions(
    numChildren: real,
    feePerTerm: real,
    feeIncrease: real,
    feeIncreaseYear1: real,
    feeIncreaseYear2: real,
    feeIncreaseYear3: real,
    payIncrease: real,
    payIncreaseYear1: real,
    payIncreaseYear2: real,
    payIncreaseYear3: real,
    currentSurplus: real,
    numStaffChildren: real,
    otherChildrenDiscount: real,
    staffCostShare: real,
    useYearBreakdown: bool,
    inflationBase: real,
    inflationYear1: real,
    inflationYear2: real,
    inflationYear3: real
  )

  /** The state the page opens with. */
  const Initial: Assumptions := Assumptions(
    numChildren := 200.0,
    feePerTerm := 7000.0,
    feeIncrease := 3.0,
    feeIncreaseYear1 := 3.0,
    feeIncreaseYear2 := 3.0,
    feeIncreaseYear3 := 3.0,
    payIncrease := 2.0,
    payIncreaseYear1 := 2.0,
    payIncreaseYear2 := 2.0,
    payIncreaseYear3 := 2.0,
    currentSurplus := 100000.0,
    numStaffChildren := 0.0,
    otherChildrenDiscount := 15.0,
    staffCostShare := 70.0,
    useYearBreakdown := false,
    inflationBase := 2.5,
    inflationYear1 := 2.5,
    inflationYear2 := 2.3,
    inflationYear3 := 2.2
  )
}
