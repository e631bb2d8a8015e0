# Mandexor Memory production planner

A Dafny model of the production planner behind the Mandexor Memory
dashboard (OATY 3.0 case study). The planner holds a 12-month demand table
and the case parameters. It has two operations:

- `apply_scenario` returns a scaled copy of the demand table. 'optimistic'
  multiplies demand by 1.15, 'pessimistic' by 0.85, and 'volatile' by one
  multiplier per month. Any other name leaves demand as it is. The copy gets
  two extra columns: normal capacity (production weeks times weekly capacity)
  and capacity gap (demand minus capacity).
- `optimize_strategy` scans the months in order and carries one inventory
  value. A surplus month adds its surplus to inventory and pays 2% holding
  cost on the new inventory. A shortfall month first draws on inventory.
  Any shortfall still left goes to overtime, capped at both
  `ot_weight * remaining` and 10% of capacity. The rest is subcontracted,
  priced at 150 per overtime unit and 125 per subcontracted unit. Each month
  is labelled 'Inventory Build', 'Overtime' or 'Mixed'. The operation returns
  the rows and the total cost.

Files:

- `planner.dfy` (module `Planner`) holds the data model, the
  `ProductionPlanner` value with `ApplyScenario` and `OptimizeStrategy`, and
  the specification of the monthly scan. `MonthStep` is one month, `Plan` is
  the whole scan and `TotalCost` is the sum of the cost column.
  `OptimizeStrategy` is the imperative loop of the original, with its body
  in `AllocateMonth`. It is proved to return exactly `Plan` of its input and
  the `TotalCost` of those rows.
- `properties.dfy` (module `PlannerProperties`) proves what the scenario
  table contains and the invariants each month of a plan keeps.
- `case_study.dfy` (module `CaseStudy`) holds the case constants. It checks
  the January breakdown and the whole base-scenario year with overtime
  weight 0.6. The year's total cost is 17518080, and November is labelled
  'Overtime' at zero cost because inventory alone covers it.

Quantities are exact `real`s, so 1.15, 0.85, 0.1 and 0.02 are exact
rationals. The planner object never changes after it is built, so it is a
datatype value rather than a class. In Dafny, "the planner's demand table is
left unchanged" therefore holds by construction. `OptimizeStrategy` reads the
gap column as given and does not recompute it. Material balance is therefore
proved for tables whose gaps are demand minus capacity (`GapsDerived`), and
`ApplyScenario` guarantees that property.

## Model

| member | source | states |
|---|---|---|
| `Planner.ProductionPlanner.ApplyScenario` | app.py:77-97 | the scenario table has one row per case month, and every gap is that row's demand minus its capacity |
| `Planner.ProductionPlanner.AllocateMonth` | app.py:106-132 | the body of the month loop produces exactly the month's step: its overtime, subcontract, closing inventory, label and cost |
| `Planner.ProductionPlanner.OptimizeStrategy` | app.py:99-148 | the loop returns exactly the month-by-month plan of its input from the planner's opening inventory, and a total equal to the sum of the returned rows' costs |
| `Planner.Scaled` | app.py:81-91 | for a non-negative value, 'optimistic' and 'pessimistic' stay within 85% to 115% of it and any other name except 'volatile' leaves it in that band; 'volatile' with a multiplier in [0.8, 1.2] stays within 80% to 120%; the Scenario lemmas state the exact factors |
| `Planner.Remaining` | app.py:118-122 | the shortfall left after drawing on inventory is never negative, is positive exactly when the gap exceeds both zero and the inventory, and with inventory on hand is at most the gap |
| `Planner.MonthStep` | app.py:110-132 | one month's row copies the month, demand, capacity and gap; overtime plus subcontract equal the shortfall left after inventory; the month is 'Inventory Build' exactly when its gap is at most zero; StepInventory, StepBalance, StepOvertimeCeiling, StepSurplus and StepShortfall state the rest |
| `Planner.TotalCost` | app.py:103-134 | the sum of the cost column is non-negative when every monthly cost is; TotalCostAppend and OptimizeStrategy tie it to the running total |
| `Planner.Plan` | app.py:101-146 | the plan has exactly as many rows as the input table |
| `Planner.PlanSnoc` | app.py:105-146 | appending a month to the input appends one row, computed from the closing inventory of the shorter plan; this is the step the loop takes |
| `Planner.PlanAt` | app.py:105-146 | row i of the plan is month i's step from the inventory carried into month i |
| `PlannerProperties.ScenarioColumns` | app.py:79-95 | the copy keeps month, production and sales weeks; capacity is weeks times weekly capacity; gap is demand minus capacity |
| `PlannerProperties.ScenarioOptimistic` | app.py:81-83 | 'optimistic' multiplies total and average weekly demand by 1.15 |
| `PlannerProperties.ScenarioPessimistic` | app.py:84-86 | 'pessimistic' multiplies total and average weekly demand by 0.85 |
| `PlannerProperties.ScenarioVolatile` | app.py:87-91 | 'volatile' multiplies month i by multiplier i; with multipliers in [0.8, 1.2], non-negative demand stays between 80% and 120% of the case's |
| `PlannerProperties.ScenarioUnscaled` | app.py:79-92 | any other scenario name ('base' included) gives back the case's rows unchanged in their original columns |
| `PlannerProperties.ScenarioOrdering` | app.py:81-86 | for non-negative demand, pessimistic <= base <= optimistic month by month |
| `PlannerProperties.StepInventory` | app.py:114-122 | a surplus month adds abs(gap) to inventory; a shortfall month withdraws min(gap, inventory), which for non-negative inventory is non-negative and never more than is held, so inventory stays non-negative |
| `PlannerProperties.StepBalance` | app.py:114-128 | capacity + overtime + subcontract + opening inventory = demand + closing inventory in one month |
| `PlannerProperties.StepOvertimeCeiling` | app.py:124-128 | with ot_weight in [0, 1], overtime is at most 10% of capacity and at most ot_weight times the remaining shortfall, and overtime and subcontract are non-negative and sum to that shortfall |
| `PlannerProperties.StepSurplus` | app.py:114-117 | a surplus month has no overtime and no subcontract, is labelled 'Inventory Build' and costs 0.02 times the increased inventory |
| `PlannerProperties.StepShortfall` | app.py:118-132 | a shortfall month costs 150 per overtime unit plus 125 per subcontracted unit while a shortfall remains, else 0; it is 'Mixed' exactly when it subcontracts, else 'Overtime'; a month covered by inventory is 'Overtime' at zero cost |
| `PlannerProperties.SubcontractNegativeAboveSliderRange` | app.py:126-128 | with an overtime weight of 1.5, outside the slider range, the subcontracted amount goes negative |
| `PlannerProperties.PlanCopiesInput` | app.py:105-146 | one result row per input month, in input order, copying month, demand, capacity and gap |
| `PlannerProperties.PlanInventoryNonNegative` | app.py:102-121 | with a non-negative opening inventory, closing inventory is non-negative after every month |
| `PlannerProperties.PlanInventoryFlow` | app.py:114-122 | in every month of the plan, inventory moves from the month's opening value to its closing value as a surplus or a shortfall month says; from a non-negative opening inventory, every withdrawal is non-negative and never more than is held |
| `PlannerProperties.PlanBalance` | app.py:105-128 | when every gap is demand minus capacity, material balance holds in every month of the plan |
| `PlannerProperties.PlanOvertimeCeiling` | app.py:124-128 | every month of the plan keeps the overtime ceilings and the non-negative, exact split of the remaining shortfall |
| `PlannerProperties.PlanSurplusMonths` | app.py:114-117 | every surplus month of the plan has no overtime or subcontract, is 'Inventory Build' and costs 0.02 times its closing inventory |
| `PlannerProperties.PlanShortfallMonths` | app.py:118-132 | every shortfall month of the plan follows the pricing and labelling rule of a shortfall month |
| `PlannerProperties.PlanFromSteps` | app.py:101-146 | any table whose rows each follow from the previous row's closing inventory is the plan; the plan is determined month by month |
| `PlannerProperties.TotalCostAppend` | app.py:103-134 | the total of a concatenation is the sum of the totals, so the running total adds the months up in any grouping |
| `PlannerProperties.TotalCostNonNegative` | app.py:102-134 | with non-negative opening inventory and capacities and ot_weight in [0, 1], every monthly cost and the total are non-negative |
| `PlannerProperties.ScenarioPlanBalance` | app.py:93-128 | the plan of any scenario table keeps the material balance in every month |
| `CaseStudy.LoadCaseData` | app.py:43-68 | the case has 12 months, each with positive production weeks and demand, weekly capacity 16500 and opening inventory 0 |
| `CaseStudy.CaseJanuary` | app.py:47-66 | January of the base case has capacity 66000 and gap 5520; with ot_weight 0.6 it uses 3312 overtime and 2208 subcontracted units at cost 772800 |
| `CaseStudy.CaseBaseYear` | app.py:47-66 | the whole base-case year with ot_weight 0.6, month by month, totals 17518080 |

## Left out

- The dashboard (`main`, app.py:151-416): page layout, sidebar widgets, charts, metric text, the decision table and the CSV download. These are UI and I/O.
- The random draw of the 'volatile' scenario (`np.random.seed(42)` and `np.random.uniform(0.8, 1.2, n)`): the multipliers are an input, `variation`, of `ApplyScenario`. The model requires one multiplier per month, as the original draws exactly that many.
- `@st.cache_data` memoisation of the case data: framework plumbing with no effect on values.
- `create_excel_from_case.py` is not part of this model: it only writes fixed exhibit tables to a spreadsheet.
- pandas DataFrames: a table is a sequence of row records. Column arithmetic becomes per-row arithmetic.
- Floating point: every quantity is an exact real. The original computes in binary floating point, so its totals may differ in the last digits.
- `OptimizeStrategy` accepts `subWeight` and never reads it, as in the original. The original's default arguments (`scenario='base'` for `apply_scenario`, 0.6 and 0.4 for `optimize_strategy`) have no Dafny counterpart; callers pass the scenario name and the weights.
- Other strategies (chase, level, hybrid, subcontract-heavy), cost multipliers from the parameter table and a strategy comparator do not exist in this code, which uses the single heuristic above with fixed unit costs 150 and 125 and ignores `overtime_cost_weekday`, `overtime_cost_sunday`, `subcontract_cost`, `inventory_holding_cost` and `warehouse_capacity`.
