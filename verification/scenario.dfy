/** The page as it first opens: the default assumptions worked through the
    discount, the resolver and the first two rows of the table. */
module DefaultScenario {
  import opened AppState
  import opened Projection
  import Discount
  import Resolver

  /** The inputs the default state resolves to: a 15% discount effect and
      flat 3% fee, 2% pay and 2.5% inflation schedules. The per-year
      inflation figures held in the state are not used while the year
      breakdown is off. */
  lemma DefaultInputs()
    ensures Discount.DiscountEffect(Initial.numChildren, Initial.numStaffChildren,
                                    Initial.otherChildrenDiscount) == 15.0
    ensures InputsOf(Initial)
         == ProjectionInputs(200.0, 7000.0, Resolver.Flat(3.0), Resolver.Flat(2.0), 100000.0,
                             15.0, 70.0, Resolver.Flat(2.5))
  {
    assert Discount.OtherChildren(200.0, 0.0) == 200.0;
  }

  /** The default Current row: 4,200,000 gross, 630,000 discount,
      3,570,000 turnover, 3,470,000 costs split 2,429,000 staff and
      1,041,000 non-staff, and the 100,000 surplus. */
  lemma DefaultCurrentRow()
    ensures CurrentRow(InputsOf(Initial))
         == FinancialData("Current", 3570000.0, 3470000.0, 100000.0, 0.0, 0.0,
                          630000.0, 4200000.0, 2429000.0, 1041000.0)
  {
    DefaultInputs();
  }

  /** The default Year 1: gross up 3% to 4,326,000, turnover 3,677,100,
      staff costs up 2% to 2,477,580, non-staff costs up 2.5% to
      1,067,025, and a surplus of 132,495. */
  lemma DefaultYearOne()
    ensures ProjectYear(CurrentRow(InputsOf(Initial)), InputsOf(Initial).Step(0), 0.15)
         == FinancialData("Year 1", 3677100.0, 3544605.0, 132495.0, 3.0, 2.0,
                          648900.0, 4326000.0, 2477580.0, 1067025.0)
  {
    DefaultInputs();
    DefaultCurrentRow();
  }

  /** The first two rows of the default table. */
  lemma DefaultTable()
    ensures TableFor(Initial)[0]
         == FinancialData("Current", 3570000.0, 3470000.0, 100000.0, 0.0, 0.0,
                          630000.0, 4200000.0, 2429000.0, 1041000.0)
    ensures TableFor(Initial)[1]
         == FinancialData("Year 1", 3677100.0, 3544605.0, 132495.0, 3.0, 2.0,
                          648900.0, 4326000.0, 2477580.0, 1067025.0)
  {
    DefaultInputs();
    DefaultCurrentRow();
    DefaultYearOne();
    TableRows(InputsOf(Initial));
  }
}
