/** The production planner of the Mandexor Memory dashboard.

    The planner holds the case's 12-month demand table and its parameters. It
    has two operations. `ApplyScenario` scales demand for a named scenario and
    adds the normal-capacity and capacity-gap columns. `OptimizeStrategy` scans
    the months in order and carries one inventory value. A surplus month adds
    its surplus to inventory. A shortfall month draws on that inventory first,
    then splits what is left between overtime and subcontracting.

    All quantities are exact reals: the model does not reproduce the
    floating-point rounding of the original. */
module Planner {

  /** One row of the case's demand table. */
  datatype CaseMonth = CaseMonth(
    month: string,
    productionWeeks: int,
    salesWeeks: int,
    avgWeeklyDemand: real,
    totalDemand: real)

  /** One row of the table that `ApplyScenario` returns: the case row with its
      demand scaled, plus the derived capacity and gap columns. */
  datatype ScenarioMonth = ScenarioMonth(
    month: string,
    productionWeeks: int,
    salesWeeks: int,
    avgWeeklyDemand: real,
    totalDemand: real,
    normalCapacity: real,
    capacityGap: real)

  /** The named scalar parameters of the case. Only `weeklyCapacity` and
      `openingInventory` are read by the planner. */
  datatype Params = Params(
    weeklyCapacity: real,
    inventoryHoldingCost: real,
    overtimeCostWeekday: real,
    overtimeCostSunday: real,
    subcontractCost: real,
    warehouseCapacity: real,
    openingInventory: real)

  /** The label a month of the plan is given. */
  datatype Label = InventoryBuild | Overtime | Mixed
  {
    /** The text shown in the `Strategy` column. */
    function Name(): string
    {
      match this
      case InventoryBuild => "Inventory Build"
      case Overtime => "Overtime"
      case Mixed => "Mixed"
    }
  }

  /** One row of the plan `OptimizeStrategy` returns. `inventory` is the
      inventory at the end of the month. */
  datatype PlanRow = PlanRow(
    month: string,
    demand: real,
    capacity: real,
    gap: real,
    overtime: real,
    subcontract: real,
    inventory: real,
    strategy: Label,
    cost: real)

  const OptimisticFactor: real := 1.15
  const PessimisticFactor: real := 0.85
  /** Overtime is capped at this share of the month's normal capacity. */
  const OvertimeShare: real := 0.1
  /** Holding cost charged on the inventory at the end of a surplus month. */
  const MonthlyHoldingRate: real := 0.02
  const OvertimeUnitCost: real := 150.0
  const SubcontractUnitCost: real := 125.0

  function Abs(x: real): real
  {
    if x < 0.0 then -x else x
  }

  /** The smaller of two values; on a tie it gives the first, as Python's
      `min` does. */
  function Min(a: real, b: real): real
  {
    if b < a then b else a
  }

  /** A demand column value after scaling for `scenario`. A non-negative
      value never moves outside 85%..115% of itself for a named scenario, and
      outside 80%..120% for 'volatile' with a multiplier in [0.8, 1.2]. */
  function Scaled(x: real, scenario: string, variation: seq<real>, i: nat): (r: real)
    requires scenario == "volatile" ==> i < |variation|
    ensures x >= 0.0 && scenario != "volatile" ==> 0.85 * x <= r <= 1.15 * x
    ensures x >= 0.0 && scenario == "volatile" && 0.8 <= variation[i] <= 1.2 ==> 0.8 * x <= r <= 1.2 * x
  {
    if scenario == "optimistic" then x * OptimisticFactor
    else if scenario == "pessimistic" then x * PessimisticFactor
    else if scenario == "volatile" then
      var m := variation[i];
      assert x >= 0.0 && 0.8 <= m <= 1.2 ==> 0.8 * x <= x * m <= 1.2 * x by {
        if x >= 0.0 && 0.8 <= m <= 1.2 {
          var d, e := m - 0.8, 1.2 - m;
          assert d * x >= 0.0 && e * x >= 0.0;
        }
      }
      x * m
    else x
  }

  /** True when every row's gap is its demand minus its normal capacity, as
      `ApplyScenario` derives it. */
  predicate GapsDerived(rows: seq<ScenarioMonth>)
  {
    forall i :: 0 <= i < |rows| ==> rows[i].capacityGap == rows[i].totalDemand - rows[i].normalCapacity
  }

  /** The shortfall a month still has after its opening inventory is drawn
      on. It is never negative; it is positive exactly when the gap exceeds
      both zero and the inventory; with inventory on hand it is at most the
      gap. */
  function Remaining(row: ScenarioMonth, inventory: real): (r: real)
    ensures r >= 0.0
    ensures r > 0.0 <==> row.capacityGap > 0.0 && row.capacityGap > inventory
    ensures inventory >= 0.0 && row.capacityGap > 0.0 ==> r <= row.capacityGap
  {
    if row.capacityGap <= 0.0 then 0.0
    else row.capacityGap - Min(row.capacityGap, inventory)
  }

  /** The plan row for one month, given the inventory at its start. The row
      copies the month's columns, overtime and subcontracting together cover
      exactly the shortfall left after the inventory, and the month is an
      inventory build exactly when it has no shortfall. */
  function MonthStep(row: ScenarioMonth, inventory: real, otWeight: real): (r: PlanRow)
    ensures r.month == row.month && r.demand == row.totalDemand
    ensures r.capacity == row.normalCapacity && r.gap == row.capacityGap
    ensures r.overtime + r.subcontract == Remaining(row, inventory)
    ensures r.strategy == InventoryBuild <==> row.capacityGap <= 0.0
  {
    var gap := row.capacityGap;
    if gap <= 0.0 then
      var stock := inventory + Abs(gap);
      PlanRow(row.month, row.totalDemand, row.normalCapacity, gap, 0.0, 0.0,
              stock, InventoryBuild, stock * MonthlyHoldingRate)
    else
      var fromInventory := Min(gap, inventory);
      var remaining := gap - fromInventory;
      var overtime := if remaining > 0.0 then Min(remaining * otWeight, row.normalCapacity * OvertimeShare) else 0.0;
      var subcontract := if remaining > 0.0 then remaining - overtime else 0.0;
      var cost := if remaining > 0.0 then overtime * OvertimeUnitCost + subcontract * SubcontractUnitCost else 0.0;
      PlanRow(row.month, row.totalDemand, row.normalCapacity, gap, overtime, subcontract,
              inventory - fromInventory, if subcontract > 0.0 then Mixed else Overtime, cost)
  }

  /** The plan for `rows`, scanned in order from the opening `inventory`. */
  function Plan(rows: seq<ScenarioMonth>, inventory: real, otWeight: real): (results: seq<PlanRow>)
    ensures |results| == |rows|
    decreases |rows|
  {
    if rows == [] then []
    else
      var first := MonthStep(rows[0], inventory, otWeight);
      [first] + Plan(rows[1..], first.inventory, otWeight)
  }

  /** The inventory at the start of month `i` of a plan that opened with
      `opening`; for `i == |results|` it is the closing inventory. */
  function Opening(results: seq<PlanRow>, opening: real, i: nat): real
    requires i <= |results|
  {
    if i == 0 then opening else results[i - 1].inventory
  }

  /** The sum of the `cost` column; it is non-negative when every monthly
      cost is. */
  function TotalCost(results: seq<PlanRow>): (r: real)
    ensures (forall i :: 0 <= i < |results| ==> results[i].cost >= 0.0) ==> r >= 0.0
  {
    if results == [] then 0.0
    else TotalCost(results[..|results| - 1]) + results[|results| - 1].cost
  }

  /** Extending the input by one month extends the plan by that month's row,
      computed from the closing inventory of the shorter plan. */
  lemma {:induction false} PlanSnoc(rows: seq<ScenarioMonth>, last: ScenarioMonth, inventory: real, otWeight: real)
    ensures Plan(rows + [last], inventory, otWeight)
         == Plan(rows, inventory, otWeight)
            + [MonthStep(last, Opening(Plan(rows, inventory, otWeight), inventory, |rows|), otWeight)]
    decreases |rows|
  {
    if rows != [] {
      var first := MonthStep(rows[0], inventory, otWeight);
      assert (rows + [last])[0] == rows[0];
      assert (rows + [last])[1..] == rows[1..] + [last];
      PlanSnoc(rows[1..], last, first.inventory, otWeight);
      var tail := Plan(rows[1..], first.inventory, otWeight);
      assert Opening(tail, first.inventory, |rows| - 1) == Opening(Plan(rows, inventory, otWeight), inventory, |rows|);
    }
  }

  /** Row `i` of a plan is the month step of input row `i` from the inventory
      the plan holds at the start of that month. */
  lemma {:induction false} PlanAt(rows: seq<ScenarioMonth>, inventory: real, otWeight: real, i: nat)
    requires i < |rows|
    ensures Plan(rows, inventory, otWeight)[i]
         == MonthStep(rows[i], Opening(Plan(rows, inventory, otWeight), inventory, i), otWeight)
    decreases i
  {
    if i > 0 {
      var first := MonthStep(rows[0], inventory, otWeight);
      PlanAt(rows[1..], first.inventory, otWeight, i - 1);
    }
  }

  /** The planner: the case's demand table and parameters. The original
      object never changes after construction, so it is a value here. */
  datatype ProductionPlanner = ProductionPlanner(demandData: seq<CaseMonth>, params: Params)
  {
    /** A scaled copy of the demand table with the capacity and gap columns
        added; `scenario == "volatile"` multiplies each month by the matching
        entry of `variation`. */
    function ApplyScenario(scenario: string, variation: seq<real>): (table: seq<ScenarioMonth>)
      requires scenario == "volatile" ==> |variation| == |demandData|
      ensures |table| == |demandData|
      ensures GapsDerived(table)
    {
      seq(|demandData|, i requires 0 <= i < |demandData| =>
        var m := demandData[i];
        var demand := Scaled(m.totalDemand, scenario, variation, i);
        var capacity := m.productionWeeks as real * params.weeklyCapacity;
        ScenarioMonth(m.month, m.productionWeeks, m.salesWeeks,
                      Scaled(m.avgWeeklyDemand, scenario, variation, i),
                      demand, capacity, demand - capacity))
    }

    /** One pass of the month loop: the month's row of the plan, given the
        inventory carried into it. */
    static method AllocateMonth(row: ScenarioMonth, inventory: real, otWeight: real) returns (planRow: PlanRow)
      ensures planRow == MonthStep(row, inventory, otWeight)
    {
      var demand, capacity, gap := row.totalDemand, row.normalCapacity, row.capacityGap;
      var stock := inventory;
      var overtime, subcontract, cost := 0.0, 0.0, 0.0;
      var strategy: Label;
      if gap <= 0.0 {
        stock := stock + Abs(gap);
        cost := stock * MonthlyHoldingRate;
        strategy := InventoryBuild;
      } else {
        var fromInventory := Min(gap, stock);
        stock := stock - fromInventory;
        var remaining := gap - fromInventory;
        if remaining > 0.0 {
          var maxOvertime := capacity * OvertimeShare;
          overtime := Min(remaining * otWeight, maxOvertime);
          subcontract := remaining - overtime;
          cost := overtime * OvertimeUnitCost + subcontract * SubcontractUnitCost;
        }
        strategy := if subcontract > 0.0 then Mixed else Overtime;
      }
      planRow := PlanRow(row.month, demand, capacity, gap, overtime, subcontract, stock, strategy, cost);
    }

    /** The month-by-month plan and its total cost. `subWeight` is accepted
        and never read, as in the original. */
    method OptimizeStrategy(rows: seq<ScenarioMonth>, otWeight: real, subWeight: real)
      returns (results: seq<PlanRow>, totalCost: real)
      ensures results == Plan(rows, params.openingInventory, otWeight)
      ensures totalCost == TotalCost(results)
    {
      results := [];
      var inventory := params.openingInventory;
      totalCost := 0.0;
      for idx := 0 to |rows|
        invariant results == Plan(rows[..idx], params.openingInventory, otWeight)
        invariant inventory == Opening(results, params.openingInventory, idx)
        invariant totalCost == TotalCost(results)
      {
        var row := rows[idx];
        var planRow := AllocateMonth(row, inventory, otWeight);
        inventory := planRow.inventory;
        totalCost := totalCost + planRow.cost;
        assert rows[..idx + 1] == rows[..idx] + [row];
        PlanSnoc(rows[..idx], row, params.openingInventory, otWeight);
        assert (results + [planRow])[..idx] == results;
        results := results + [planRow];
      }
      assert rows[..|rows|] == rows;
    }
  }
}
