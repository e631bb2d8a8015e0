/** Properties of the planner: what `ApplyScenario` returns, and the
    invariants every month of a `Plan` keeps. */
module PlannerProperties {
  import opened Planner

  // ---------------------------------------------------------------------
  // ApplyScenario
  // ---------------------------------------------------------------------

  /** The scenario table has one row per case month, in order. It copies the
      month and the week counts, sets capacity to production weeks times the
      weekly capacity, and sets gap to demand minus capacity. */
  lemma ScenarioColumns(p: ProductionPlanner, scenario: string, variation: seq<real>)
    requires scenario == "volatile" ==> |variation| == |p.demandData|
    ensures var table := p.ApplyScenario(scenario, variation);
      |table| == |p.demandData| &&
      forall i :: 0 <= i < |table| ==>
        table[i].month == p.demandData[i].month &&
        table[i].productionWeeks == p.demandData[i].productionWeeks &&
        table[i].salesWeeks == p.demandData[i].salesWeeks &&
        table[i].normalCapacity == p.demandData[i].productionWeeks as real * p.params.weeklyCapacity &&
        table[i].capacityGap == table[i].totalDemand - table[i].normalCapacity
  {
  }

  /** 'optimistic' multiplies both demand columns by 1.15. */
  lemma ScenarioOptimistic(p: ProductionPlanner, variation: seq<real>)
    ensures var table := p.ApplyScenario("optimistic", variation);
      forall i :: 0 <= i < |table| ==>
        table[i].totalDemand == 1.15 * p.demandData[i].totalDemand &&
        table[i].avgWeeklyDemand == 1.15 * p.demandData[i].avgWeeklyDemand
  {
  }

  /** 'pessimistic' multiplies both demand columns by 0.85. */
  lemma ScenarioPessimistic(p: ProductionPlanner, variation: seq<real>)
    ensures var table := p.ApplyScenario("pessimistic", variation);
      forall i :: 0 <= i < |table| ==>
        table[i].totalDemand == 0.85 * p.demandData[i].totalDemand &&
        table[i].avgWeeklyDemand == 0.85 * p.demandData[i].avgWeeklyDemand
  {
  }

  /** 'volatile' multiplies month i's demand columns by variation[i]; with
      every multiplier in [0.8, 1.2], non-negative demand stays within 80% and
      120% of the case's demand. */
  lemma ScenarioVolatile(p: ProductionPlanner, variation: seq<real>)
    requires |variation| == |p.demandData|
    ensures var table := p.ApplyScenario("volatile", variation);
      forall i :: 0 <= i < |table| ==>
        table[i].totalDemand == variation[i] * p.demandData[i].totalDemand &&
        table[i].avgWeeklyDemand == variation[i] * p.demandData[i].avgWeeklyDemand
    ensures (forall i :: 0 <= i < |variation| ==> 0.8 <= variation[i] <= 1.2) ==>
      var table := p.ApplyScenario("volatile", variation);
      forall i :: 0 <= i < |table| && p.demandData[i].totalDemand >= 0.0 ==>
        0.8 * p.demandData[i].totalDemand <= table[i].totalDemand <= 1.2 * p.demandData[i].totalDemand
  {
    var table := p.ApplyScenario("volatile", variation);
    forall i | 0 <= i < |table| && p.demandData[i].totalDemand >= 0.0 && 0.8 <= variation[i] <= 1.2
      ensures 0.8 * p.demandData[i].totalDemand <= table[i].totalDemand <= 1.2 * p.demandData[i].totalDemand
    {
      var d := p.demandData[i].totalDemand;
      assert table[i].totalDemand == variation[i] * d;
      assert (variation[i] - 0.8) * d >= 0.0;
      assert (1.2 - variation[i]) * d >= 0.0;
    }
  }

  /** Every other scenario name ('base' included) leaves the demand columns
      as they are: projecting the scenario table back onto the case columns
      gives the planner's demand table. */
  lemma ScenarioUnscaled(p: ProductionPlanner, scenario: string, variation: seq<real>)
    requires scenario != "optimistic" && scenario != "pessimistic" && scenario != "volatile"
    ensures var table := p.ApplyScenario(scenario, variation);
      forall i :: 0 <= i < |table| ==>
        CaseMonth(table[i].month, table[i].productionWeeks, table[i].salesWeeks, table[i].avgWeeklyDemand, table[i].totalDemand)
          == p.demandData[i]
  {
  }

  /** For non-negative demand, the pessimistic scenario never exceeds the
      base one, and the base one never exceeds the optimistic one. */
  lemma ScenarioOrdering(p: ProductionPlanner, variation: seq<real>)
    ensures var lo := p.ApplyScenario("pessimistic", variation);
      var mid := p.ApplyScenario("base", variation);
      var hi := p.ApplyScenario("optimistic", variation);
      forall i :: 0 <= i < |p.demandData| && p.demandData[i].totalDemand >= 0.0 ==>
        lo[i].totalDemand <= mid[i].totalDemand <= hi[i].totalDemand
  {
  }

  // ---------------------------------------------------------------------
  // One month
  // ---------------------------------------------------------------------

  /** How one month moves inventory: a surplus month adds |gap|, a shortfall
      month withdraws min(gap, inventory), which is non-negative and never
      more than is held when the held amount is non-negative. */
  lemma StepInventory(row: ScenarioMonth, inventory: real, otWeight: real)
    ensures var r := MonthStep(row, inventory, otWeight);
      (row.capacityGap <= 0.0 ==> r.inventory == inventory + Abs(row.capacityGap)) &&
      (row.capacityGap > 0.0 ==> r.inventory == inventory - Min(row.capacityGap, inventory)) &&
      (row.capacityGap > 0.0 && inventory >= 0.0 ==> 0.0 <= Min(row.capacityGap, inventory) <= inventory) &&
      (inventory >= 0.0 ==> r.inventory >= 0.0)
  {
  }

  /** Material balance of one month: capacity, overtime, subcontracting and
      opening inventory together equal demand plus closing inventory. */
  lemma StepBalance(row: ScenarioMonth, inventory: real, otWeight: real)
    requires row.capacityGap == row.totalDemand - row.normalCapacity
    ensures var r := MonthStep(row, inventory, otWeight);
      r.capacity + r.overtime + r.subcontract + inventory == r.demand + r.inventory
  {
  }

  /** The overtime rule of one month: overtime is at most 10% of capacity
      and at most `otWeight` times the shortfall `rem` left after the
      inventory; overtime and subcontracting are non-negative and together
      cover exactly `rem`. */
  predicate OvertimeSplit(r: PlanRow, rem: real, otWeight: real)
  {
    r.overtime <= 0.1 * r.capacity &&
    r.overtime <= otWeight * rem &&
    0.0 <= r.overtime && 0.0 <= r.subcontract &&
    r.overtime + r.subcontract == rem
  }

  /** With `otWeight` in the slider's range [0, 1] and a capacity that is not
      negative, every month follows the overtime rule. */
  lemma StepOvertimeCeiling(row: ScenarioMonth, inventory: real, otWeight: real)
    requires row.normalCapacity >= 0.0
    requires 0.0 <= otWeight <= 1.0
    ensures OvertimeSplit(MonthStep(row, inventory, otWeight), Remaining(row, inventory), otWeight)
  {
    var r := MonthStep(row, inventory, otWeight);
    var rem := Remaining(row, inventory);
    if row.capacityGap > 0.0 && rem > 0.0 {
      WeightedShare(rem, otWeight);
      assert r.overtime == Min(rem * otWeight, row.normalCapacity * OvertimeShare);
      assert r.subcontract == rem - r.overtime;
    } else {
      assert r.overtime == 0.0 && r.subcontract == 0.0;
    }
  }

  /** A weight in [0, 1] takes a share of a non-negative amount that is
      itself non-negative and no larger than the amount. */
  lemma WeightedShare(amount: real, weight: real)
    requires amount >= 0.0 && 0.0 <= weight <= 1.0
    ensures 0.0 <= amount * weight <= amount && amount * weight == weight * amount
  {
    assert amount * (1.0 - weight) >= 0.0;
  }

  /** A surplus month uses neither overtime nor subcontracting, is labelled
      'Inventory Build' and costs 0.02 times the inventory after the surplus
      is added. */
  lemma StepSurplus(row: ScenarioMonth, inventory: real, otWeight: real)
    requires row.capacityGap <= 0.0
    ensures var r := MonthStep(row, inventory, otWeight);
      r.overtime == 0.0 && r.subcontract == 0.0 &&
      r.strategy == InventoryBuild && r.strategy.Name() == "Inventory Build" &&
      r.inventory == inventory - row.capacityGap &&
      r.cost == 0.02 * r.inventory
  {
  }

  /** A shortfall month costs 150 per overtime unit and 125 per subcontracted
      unit when a shortfall remains after the inventory, and nothing
      otherwise; it is labelled 'Mixed' exactly when it subcontracts and
      'Overtime' otherwise, so a month covered by inventory alone is
      'Overtime' at zero cost. */
  lemma StepShortfall(row: ScenarioMonth, inventory: real, otWeight: real)
    requires row.capacityGap > 0.0
    ensures var r := MonthStep(row, inventory, otWeight);
      var rem := Remaining(row, inventory);
      (rem > 0.0 ==> r.cost == 150.0 * r.overtime + 125.0 * r.subcontract) &&
      (rem <= 0.0 ==> r.cost == 0.0 && r.overtime == 0.0 && r.subcontract == 0.0) &&
      (r.strategy == Mixed <==> r.subcontract > 0.0) &&
      (r.strategy == Overtime <==> r.subcontract <= 0.0) &&
      (inventory >= row.capacityGap ==> r.strategy == Overtime && r.cost == 0.0 &&
                                         r.inventory == inventory - row.capacityGap)
  {
  }

  /** Outside the slider's range [0, 1] the split is not safe: an overtime
      weight of 1.5 makes the subcontracted amount negative. */
  lemma SubcontractNegativeAboveSliderRange()
    ensures var r := MonthStep(ScenarioMonth("Jan", 4, 4, 0.0, 66100.0, 66000.0, 100.0), 0.0, 1.5);
      r.overtime == 150.0 && r.subcontract == -50.0
  {
    assert Min(100.0, 0.0) == 0.0;
    assert 100.0 * 1.5 == 150.0;
    assert Min(150.0, 66000.0 * OvertimeShare) == 150.0;
  }

  // ---------------------------------------------------------------------
  // The whole plan
  // ---------------------------------------------------------------------

  /** One result row per input month, in input order, copying the month,
      demand, capacity and gap of its input row. */
  lemma {:induction false} PlanCopiesInput(rows: seq<ScenarioMonth>, inventory: real, otWeight: real)
    ensures var res := Plan(rows, inventory, otWeight);
      |res| == |rows| &&
      forall i :: 0 <= i < |rows| ==>
        res[i].month == rows[i].month && res[i].demand == rows[i].totalDemand &&
        res[i].capacity == rows[i].normalCapacity && res[i].gap == rows[i].capacityGap
  {
    var res := Plan(rows, inventory, otWeight);
    forall i | 0 <= i < |rows|
      ensures res[i].month == rows[i].month && res[i].demand == rows[i].totalDemand &&
              res[i].capacity == rows[i].normalCapacity && res[i].gap == rows[i].capacityGap
    {
      PlanAt(rows, inventory, otWeight, i);
    }
  }

  /** With a non-negative opening inventory, the inventory at the end of every
      month is non-negative. */
  lemma {:induction false} PlanInventoryNonNegative(rows: seq<ScenarioMonth>, inventory: real, otWeight: real)
    requires inventory >= 0.0
    ensures var res := Plan(rows, inventory, otWeight);
      forall i :: 0 <= i < |res| ==> res[i].inventory >= 0.0
    decreases |rows|
  {
    if rows != [] {
      var first := MonthStep(rows[0], inventory, otWeight);
      StepInventory(rows[0], inventory, otWeight);
      PlanInventoryNonNegative(rows[1..], first.inventory, otWeight);
      var res := Plan(rows, inventory, otWeight);
      assert forall i :: 1 <= i < |res| ==> res[i] == Plan(rows[1..], first.inventory, otWeight)[i - 1];
    }
  }

  /** Every month's opening inventory is non-negative when the plan's is. */
  lemma OpeningNonNegative(rows: seq<ScenarioMonth>, inventory: real, otWeight: real, i: nat)
    requires inventory >= 0.0 && i <= |rows|
    ensures Opening(Plan(rows, inventory, otWeight), inventory, i) >= 0.0
  {
    PlanInventoryNonNegative(rows, inventory, otWeight);
  }

  /** Each month moves the carried inventory as `StepInventory` says: a
      surplus month adds |gap|, a shortfall month withdraws min(gap, opening),
      which is non-negative and never more than is held when the plan's
      opening inventory is non-negative. */
  lemma {:induction false} PlanInventoryFlow(rows: seq<ScenarioMonth>, inventory: real, otWeight: real)
    ensures var res := Plan(rows, inventory, otWeight);
      forall i :: 0 <= i < |rows| ==>
        var open := Opening(res, inventory, i);
        (rows[i].capacityGap <= 0.0 ==> res[i].inventory == open + Abs(rows[i].capacityGap)) &&
        (rows[i].capacityGap > 0.0 ==>
          res[i].inventory == open - Min(rows[i].capacityGap, open) &&
          (inventory >= 0.0 ==> 0.0 <= Min(rows[i].capacityGap, open) <= open))
  {
    var res := Plan(rows, inventory, otWeight);
    forall i | 0 <= i < |rows|
      ensures var open := Opening(res, inventory, i);
        (rows[i].capacityGap <= 0.0 ==> res[i].inventory == open + Abs(rows[i].capacityGap)) &&
        (rows[i].capacityGap > 0.0 ==>
          res[i].inventory == open - Min(rows[i].capacityGap, open) &&
          (inventory >= 0.0 ==> 0.0 <= Min(rows[i].capacityGap, open) <= open))
    {
      PlanAt(rows, inventory, otWeight, i);
      StepInventory(rows[i], Opening(res, inventory, i), otWeight);
      if inventory >= 0.0 {
        OpeningNonNegative(rows, inventory, otWeight, i);
      }
    }
  }

  /** Material balance holds in every month of the plan when every gap is
      demand minus capacity. */
  lemma {:induction false} PlanBalance(rows: seq<ScenarioMonth>, inventory: real, otWeight: real)
    requires GapsDerived(rows)
    ensures var res := Plan(rows, inventory, otWeight);
      forall i :: 0 <= i < |rows| ==>
        res[i].capacity + res[i].overtime + res[i].subcontract + Opening(res, inventory, i)
          == res[i].demand + res[i].inventory
  {
    var res := Plan(rows, inventory, otWeight);
    forall i | 0 <= i < |rows|
      ensures res[i].capacity + res[i].overtime + res[i].subcontract + Opening(res, inventory, i)
              == res[i].demand + res[i].inventory
    {
      PlanAt(rows, inventory, otWeight, i);
      StepBalance(rows[i], Opening(res, inventory, i), otWeight);
    }
  }

  /** Every month of the plan follows the overtime rule `OvertimeSplit`,
      measured against the shortfall left after that month's opening
      inventory. */
  lemma {:induction false} PlanOvertimeCeiling(rows: seq<ScenarioMonth>, inventory: real, otWeight: real)
    requires forall i :: 0 <= i < |rows| ==> rows[i].normalCapacity >= 0.0
    requires 0.0 <= otWeight <= 1.0
    ensures var res := Plan(rows, inventory, otWeight);
      forall i :: 0 <= i < |rows| ==>
        OvertimeSplit(res[i], Remaining(rows[i], Opening(res, inventory, i)), otWeight)
  {
    var res := Plan(rows, inventory, otWeight);
    forall i | 0 <= i < |rows|
      ensures OvertimeSplit(res[i], Remaining(rows[i], Opening(res, inventory, i)), otWeight)
    {
      PlanAt(rows, inventory, otWeight, i);
      StepOvertimeCeiling(rows[i], Opening(res, inventory, i), otWeight);
    }
  }

  /** Every surplus month of the plan uses neither overtime nor
      subcontracting, is labelled 'Inventory Build' and costs 0.02 times its
      closing inventory. */
  lemma {:induction false} PlanSurplusMonths(rows: seq<ScenarioMonth>, inventory: real, otWeight: real)
    ensures var res := Plan(rows, inventory, otWeight);
      forall i :: 0 <= i < |rows| && rows[i].capacityGap <= 0.0 ==>
        res[i].overtime == 0.0 && res[i].subcontract == 0.0 &&
        res[i].strategy == InventoryBuild && res[i].cost == 0.02 * res[i].inventory
  {
    var res := Plan(rows, inventory, otWeight);
    forall i | 0 <= i < |rows| && rows[i].capacityGap <= 0.0
      ensures res[i].overtime == 0.0 && res[i].subcontract == 0.0 &&
              res[i].strategy == InventoryBuild && res[i].cost == 0.02 * res[i].inventory
    {
      PlanAt(rows, inventory, otWeight, i);
      StepSurplus(rows[i], Opening(res, inventory, i), otWeight);
    }
  }

  /** Every shortfall month of the plan is priced at 150 per overtime unit and
      125 per subcontracted unit when a shortfall remains after the
      inventory, and at zero otherwise; it is labelled 'Mixed' exactly when
      it subcontracts and 'Overtime' otherwise. */
  lemma {:induction false} PlanShortfallMonths(rows: seq<ScenarioMonth>, inventory: real, otWeight: real)
    ensures var res := Plan(rows, inventory, otWeight);
      forall i :: 0 <= i < |rows| && rows[i].capacityGap > 0.0 ==>
        var rem := Remaining(rows[i], Opening(res, inventory, i));
        (rem > 0.0 ==> res[i].cost == 150.0 * res[i].overtime + 125.0 * res[i].subcontract) &&
        (rem <= 0.0 ==> res[i].cost == 0.0 && res[i].strategy == Overtime) &&
        (res[i].strategy == Mixed <==> res[i].subcontract > 0.0) &&
        (res[i].strategy == Overtime <==> res[i].subcontract <= 0.0)
  {
    var res := Plan(rows, inventory, otWeight);
    forall i | 0 <= i < |rows| && rows[i].capacityGap > 0.0
      ensures var rem := Remaining(rows[i], Opening(res, inventory, i));
        (rem > 0.0 ==> res[i].cost == 150.0 * res[i].overtime + 125.0 * res[i].subcontract) &&
        (rem <= 0.0 ==> res[i].cost == 0.0 && res[i].strategy == Overtime) &&
        (res[i].strategy == Mixed <==> res[i].subcontract > 0.0) &&
        (res[i].strategy == Overtime <==> res[i].subcontract <= 0.0)
    {
      PlanAt(rows, inventory, otWeight, i);
      StepShortfall(rows[i], Opening(res, inventory, i), otWeight);
    }
  }

  /** A plan is determined month by month: any table whose every row is the
      month step from the previous row's closing inventory is the plan. */
  lemma {:induction false} PlanFromSteps(rows: seq<ScenarioMonth>, want: seq<PlanRow>, inventory: real, otWeight: real)
    requires |rows| == |want|
    requires forall i :: 0 <= i < |rows| ==> MonthStep(rows[i], Opening(want, inventory, i), otWeight) == want[i]
    ensures Plan(rows, inventory, otWeight) == want
    decreases |rows|
  {
    if rows != [] {
      var tail := want[1..];
      forall i | 0 <= i < |rows[1..]|
        ensures MonthStep(rows[1..][i], Opening(tail, want[0].inventory, i), otWeight) == tail[i]
      {
        assert Opening(tail, want[0].inventory, i) == Opening(want, inventory, i + 1);
      }
      PlanFromSteps(rows[1..], tail, want[0].inventory, otWeight);
      assert want == [want[0]] + tail;
    }
  }

  /** The total is the sum of the monthly costs: it adds up month by month
      over any split of the plan. */
  lemma {:induction false} TotalCostAppend(a: seq<PlanRow>, b: seq<PlanRow>)
    ensures TotalCost(a + b) == TotalCost(a) + TotalCost(b)
    decreases |b|
  {
    if b != [] {
      var b' := b[..|b| - 1];
      assert (a + b)[..|a + b| - 1] == a + b';
      assert (a + b)[|a + b| - 1] == b[|b| - 1];
      TotalCostAppend(a, b');
    } else {
      assert a + b == a;
    }
  }

  /** With a non-negative opening inventory, capacities that are not
      negative and `otWeight` in [0, 1], every monthly cost and so the total
      cost is non-negative. */
  lemma {:induction false} TotalCostNonNegative(rows: seq<ScenarioMonth>, inventory: real, otWeight: real)
    requires inventory >= 0.0
    requires forall i :: 0 <= i < |rows| ==> rows[i].normalCapacity >= 0.0
    requires 0.0 <= otWeight <= 1.0
    ensures var res := Plan(rows, inventory, otWeight);
      (forall i :: 0 <= i < |res| ==> res[i].cost >= 0.0) && TotalCost(res) >= 0.0
  {
    var res := Plan(rows, inventory, otWeight);
    forall i | 0 <= i < |res| ensures res[i].cost >= 0.0 {
      PlanAt(rows, inventory, otWeight, i);
      var open := Opening(res, inventory, i);
      OpeningNonNegative(rows, inventory, otWeight, i);
      StepInventory(rows[i], open, otWeight);
      StepOvertimeCeiling(rows[i], open, otWeight);
    }
  }

  /** End to end: on any scenario table the plan keeps the material balance
      in every month, because the table's gaps are derived from its demand
      and capacity. */
  lemma ScenarioPlanBalance(p: ProductionPlanner, scenario: string, variation: seq<real>, otWeight: real)
    requires scenario == "volatile" ==> |variation| == |p.demandData|
    ensures var table := p.ApplyScenario(scenario, variation);
      var res := Plan(table, p.params.openingInventory, otWeight);
      forall i :: 0 <= i < |table| ==>
        res[i].capacity + res[i].overtime + res[i].subcontract + Opening(res, p.params.openingInventory, i)
          == res[i].demand + res[i].inventory
  {
    PlanBalance(p.ApplyScenario(scenario, variation), p.params.openingInventory, otWeight);
  }
}
