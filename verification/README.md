# School fee and cost projection: a Dafny model

The application is a one-page calculator for a school's finances. It takes:

- the roll (number of children);
- the fee per term;
- the discounts given to children of staff and to other children;
- the known current surplus;
- the staff share of costs;
- fee-increase, pay-increase and inflation rates, either one figure for all years or one per year.

From these it produces a four-row table: the Current year, then Year 1, Year 2 and Year 3. Gross fees grow by the fee increase and are reduced by one blended discount rate. Costs are back-solved from the current surplus and split into staff and non-staff costs, which then grow by the pay increase and by inflation. A "manual calculations" panel shows the same figures worked out a second time, step by step.

This project models that calculation engine as pure functions over exact reals and proves what it promises:

| file | module | what it holds |
|---|---|---|
| `state.dfy` | `AppState` | The input state (`Assumptions`) and the state the page opens with. |
| `discount.dfy` | `Discount` | The blended discount effect. The staff-children input clamp. Weighted-average, bounds and edge-case lemmas. |
| `resolver.dfy` | `Resolver` | The per-year rate schedules chosen by the single "break down by year" switch. |
| `projection.dfy` | `Projection` | The table row (`FinancialData`), the Current row, one projected year, and the table. The table is given both as a straight-line definition and as the page's running staff and non-staff totals, written as a loop. It is linked to a general carry-forward fold. |
| `properties.dfy` | `ProjectionProperties` | The Current row's seeding, the year-on-year recurrences and their compounded closed form, the zero-rate and zero-roll cases, and the flat-versus-breakdown equivalence. |
| `manual.dfy` | `ManualCalculations` | The manual panel's base figures and per-year working. The summary card's turnover. Proofs that all of these agree with the table. |
| `scenario.dfy` | `DefaultScenario` | The default page state worked through to concrete figures. |

All money and percentages are exact `real`s, so a percentage rate `r` grows an amount by the factor `1 + r/100` exactly.

Two facts about the code worth stating up front:

- Inflation uses the same breakdown switch as fees and pay (src/App.tsx:167-171): one flat figure when the breakdown is off, the three year figures when it is on.
- From the default state, Year 1 has non-staff costs of 1,067,025 (1,041,000 grown by 2.5%) and a surplus of 132,495. `DefaultScenario.DefaultYearOne` states these figures.

## Model

| member | source | states |
|---|---|---|
| Discount.OtherChildren | src/App.tsx:146 | The count of non-staff children is never negative. It is the roll less the staff children when those fit in the roll, and zero when they do not. |
| Discount.DiscountEffect | src/App.tsx:145-153 | The blended rate is zero, not a division by zero, when the roll is zero or negative. |
| Discount.DiscountIsWeightedAverage | src/App.tsx:145-153 | For any roll > 0 and any staff count, the rate times the roll equals 50 x staff plus other-rate x max(0, roll - staff). With roll > 0 and staff <= roll, this is 50 x staff plus other-rate x (roll - staff), so the rate is the headcount-weighted average of 50% and the other-children rate. |
| Discount.DiscountBetweenRates | src/App.tsx:145-153 | With 0 <= staff <= roll and roll > 0, the rate lies between 50 and the other-children rate. When the other rate is in [0, 100], so is the blended rate. |
| Discount.DiscountWithoutStaffChildren | src/App.tsx:145-153 | For a positive roll with no staff children, the rate is exactly the other-children rate. |
| Discount.DiscountAllStaffChildren | src/App.tsx:145-153 | For a positive roll in which every child is a staff child, the rate is exactly 50. |
| Discount.StaleStaffCountOvershoots | src/App.tsx:145-153 | The rate itself does not clamp. For a positive roll, a staff count above the roll gives exactly 50 x staff / roll. That is more than 50%, and more than 100% past twice the roll. |
| Discount.ClampStaffChildren | src/App.tsx:417 | The clamped staff count lies in [0, roll] for a non-negative roll and is 0 for a negative roll. It leaves in-range values alone, maps negatives to 0 and maps values above the roll to the roll. |
| Discount.ClampIdempotent | src/App.tsx:417 | Clamping twice is the same as clamping once. |
| Discount.ClampedDiscountBounded | src/App.tsx:417 | Any value typed into the staff field, once clamped against a positive roll, gives a rate in [0, 100] when the other rate is in [0, 100]. |
| Resolver.Flat | src/App.tsx:155-171 | A flat schedule has the same figure in each of the three years. |
| Resolver.ByYear | src/App.tsx:155-159 | With the switch off, every year gets the single figure. With it on, Years 1-3 get the three year figures in order. |
| Resolver.Resolve | src/App.tsx:155-171 | One switch governs fees, pay and inflation together. They are either all flat at their single figures or all follow their year figures. |
| Resolver.FlatMatchesUniformBreakdown | src/App.tsx:155-171 | A flat figure v and an explicit breakdown [v, v, v] resolve to identical schedules, whatever the inactive mode holds. |
| Projection.CurrentRowBalanced | src/App.tsx:175-197 | The Current row balances: discount is gross times the rate, turnover is gross less discount, costs are staff plus non-staff, and net is turnover less costs. |
| Projection.ProjectYearBalanced | src/App.tsx:199-226 | Every projected year balances in the same four identities. |
| Projection.Fold | src/App.tsx:199-284 | The carry-forward fold yields one row per step, each one step from the row before it. |
| Projection.FoldUnique | src/App.tsx:199-284 | The fold is the only sequence with that property. |
| Projection.FinancialProjection | src/App.tsx:174-296 | The table has exactly four rows labelled Current, Year 1, Year 2 and Year 3 in order. Every row balances at the one shared discount rate. |
| Projection.ProjectionIsFold | src/App.tsx:199-286 | The table is the Current row followed by the carry-forward fold over the three year steps. |
| Projection.ComputeFinancialData | src/App.tsx:174-286 | The page's running staff and non-staff totals, written as a loop that updates them in place and pushes one row per year, produce exactly the table. |
| ProjectionProperties.CurrentRowSeeded | src/App.tsx:175-197 | The Current row has gross = roll x fee x 3, costs = turnover - surplus, net = surplus, staff = costs x share/100 and staff + non-staff = costs. Its reported fee and pay increases are 0. |
| ProjectionProperties.CarryForward | src/App.tsx:199-284 | For n = 1..3, row n's gross, staff and non-staff figures are row n-1's grown by that year's fee increase, pay increase and inflation. Row n reports the fee and pay increases it applied. |
| ProjectionProperties.BalancedRowsShareRatio | src/App.tsx:174-284 | In any sequence of rows balanced at one rate, every row with non-zero gross has discount / gross equal to that rate. |
| ProjectionProperties.ConstantDiscountRatio | src/App.tsx:174-284 | In every row of the table with non-zero gross, discount / gross is the same: the blended rate / 100. |
| ProjectionProperties.GrowthCompounds | src/App.tsx:199-284 | A figure that grows year on year stands, after k years, at its start times the product of those k years' multipliers. |
| ProjectionProperties.GrowsByIffCompounds | src/App.tsx:199-284 | Year-on-year growth and the compounded closed form are equivalent, in both directions. |
| ProjectionProperties.ColumnsGrow | src/App.tsx:199-284 | Down the table, gross grows by the fee schedule, staff costs by the pay schedule and non-staff costs by inflation. |
| ProjectionProperties.CompoundedGrowth | src/App.tsx:199-284 | Year k's gross, staff and non-staff figures are the Current figures times the compounded fee, pay and inflation multipliers of the first k years. |
| ProjectionProperties.UngrownTableIsSteady | src/App.tsx:199-284 | A balanced table whose three grown columns do not grow repeats its first row's figures in every row. |
| ProjectionProperties.ZeroRatesHoldSteady | src/App.tsx:199-284 | With every fee, pay and inflation rate at 0, every year repeats the Current row's gross, discount, turnover, costs and surplus. |
| ProjectionProperties.NoIncomeFromNothing | src/App.tsx:199-284 | In a balanced table whose gross starts at 0 and grows by any rates, every row has zero gross, discount and turnover. |
| ProjectionProperties.ReplicationEquivalence | src/App.tsx:155-171 | A state with a flat figure v and one with the breakdown [v, v, v], otherwise equal, give identical tables. |
| ProjectionProperties.ZeroStudents | src/App.tsx:145-197 | With no children the blended rate is 0. Every row has zero gross, discount and turnover, and the Current costs are the negated surplus. |
| ManualCalculations.BaseAgreesWithCurrentRow | src/App.tsx:329-347 | The panel's base figures equal the Current row's, field by field. Its non-staff costs, costs x (1 - share/100), equal the row's costs - staff. |
| ManualCalculations.BaseMatchesTable | src/App.tsx:329-347 | The same agreement, stated against row 0 of the table. |
| ManualCalculations.ManualYearMatchesTable | src/App.tsx:961-971 | For each year, the panel's working matches the table. Its previous gross is the row above's, and grown by the fee increase it is the year's gross. Its regrown staff and non-staff costs are the year's. Their sum is the year's costs. |
| ManualCalculations.SummaryTurnoverIsBaseTurnover | src/App.tsx:618-619 | The summary card's turnover, (roll x fee x 3) x (1 - rate/100), is the base figures' turnover. |
| ManualCalculations.SummaryTurnoverMatchesTable | src/App.tsx:618-619 | The summary card's turnover is the Current row's turnover. |
| DefaultScenario.DefaultInputs | src/App.tsx:125-171 | The default state resolves to a 15% rate and flat schedules of 3% fees, 2% pay and 2.5% inflation. The year inflation figures 2.3 and 2.2 are unused. |
| DefaultScenario.DefaultCurrentRow | src/App.tsx:174-197 | The default Current row is 4,200,000 gross, 630,000 discount, 3,570,000 turnover and 3,470,000 costs, split 2,429,000 staff and 1,041,000 non-staff, with a 100,000 surplus. |
| DefaultScenario.DefaultYearOne | src/App.tsx:199-226 | The default Year 1 is 4,326,000 gross, 648,900 discount and 3,677,100 turnover. Staff costs are 2,477,580, non-staff 1,067,025 and total costs 3,544,605, leaving a 132,495 surplus. |
| DefaultScenario.DefaultTable | src/App.tsx:125-226 | The first two rows of the default table are those two rows. |

## Left out

- Rendering, styling, sliders, accordions and charts (src/App.tsx:349-1019, apart from the manual working and the summary turnover). This is presentation with no behaviour beyond the figures modelled here.
- The formatting helpers `formatCurrency`, `formatNumber` and `formatTooltipValue` (src/App.tsx:298-327). They wrap the host's number formatting, which is outside the model. The manual panel is modelled by the figures it shows, not by its text.
- The memo and state-hook mechanics and their dependency lists. Each memo body is a pure function of its inputs. The page's state is the `Assumptions` record, and every input handler except the staff-children clamp is a plain field update.
- Floating-point behaviour: rounding error, NaN or Infinity from non-numeric or out-of-range text. All arithmetic is exact real arithmetic, so the agreement lemmas say the figures agree exactly. In the page they agree up to rounding.
- Slider ranges: these are interface limits, not checks in the calculation. The model admits any real input, and lemmas state the ranges they need as preconditions.
- Features the code does not have, so they are not modelled:
  - a cumulative surplus;
  - per-year enrolment or fees;
  - detailed staffing;
  - salary rounding.
- The page clamps the staff-children count only when that field is edited. Lowering the roll afterwards leaves the old count in place, and nothing re-clamps it. The clamp is modelled as a function of one edit, and what the stale count does to the rate is stated by Discount.StaleStaffCountOvershoots.
