/** The OATY 3.0 case data the dashboard loads, and the plan the planner
    makes of it under the base scenario with the default overtime weight
    0.6. */
module CaseStudy {
  import opened Planner
  import opened PlannerProperties

  /** The case's demand table and parameters. */
  function LoadCaseData(): (data: (seq<CaseMonth>, Params))
    ensures |data.0| == 12
    ensures forall i :: 0 <= i < |data.0| ==> data.0[i].productionWeeks > 0 && data.0[i].totalDemand > 0.0
    ensures data.1.weeklyCapacity == 16500.0 && data.1.openingInventory == 0.0
  {
    ([CaseMonth("Jan", 4, 4, 17880.0, 71520.0),
      CaseMonth("Feb", 3, 4, 18860.0, 75440.0),
      CaseMonth("Mar", 4, 5, 18700.0, 93500.0),
      CaseMonth("Apr", 4, 4, 19600.0, 78400.0),
      CaseMonth("May", 5, 5, 17150.0, 85750.0),
      CaseMonth("Jun", 4, 4, 15000.0, 60000.0),
      CaseMonth("Jul", 3, 4, 15000.0, 60000.0),
      CaseMonth("Aug", 3, 5, 15000.0, 75000.0),
      CaseMonth("Sep", 4, 4, 15500.0, 62000.0),
      CaseMonth("Oct", 5, 5, 16500.0, 82500.0),
      CaseMonth("Nov", 4, 4, 17000.0, 68000.0),
      CaseMonth("Dec", 4, 4, 24000.0, 96000.0)],
     Params(16500.0, 0.20, 1.50, 2.00, 1.25, 20000.0, 0.0))
  }

  function CasePlanner(): ProductionPlanner
  {
    var (demand, params) := LoadCaseData();
    ProductionPlanner(demand, params)
  }

  /** The base-scenario table of the case with capacities and gaps. */
  function BaseTable(): seq<ScenarioMonth>
  {
    CasePlanner().ApplyScenario("base", [])
  }

  /** January of the base scenario: capacity 4 x 16500 = 66000 and gap 5520;
      with overtime weight 0.6 the overtime is min(3312, 6600) = 3312, the
      subcontracted amount 2208 and the cost 772800. */
  lemma CaseJanuary()
    ensures BaseTable()[0].normalCapacity == 66000.0 && BaseTable()[0].capacityGap == 5520.0
    ensures Plan(BaseTable(), 0.0, 0.6)[0] == PlanRow("Jan", 71520.0, 66000.0, 5520.0, 3312.0, 2208.0, 0.0, Mixed, 772800.0)
  {
    var table := BaseTable();
    assert table[0] == ScenarioMonth("Jan", 4, 4, 17880.0, 71520.0, 66000.0, 5520.0);
    PlanAt(table, 0.0, 0.6, 0);
    assert Min(5520.0 * 0.6, 66000.0 * OvertimeShare) == 3312.0;
  }

  /** The plan of the whole base-scenario year with overtime weight 0.6. */
  function ExpectedBasePlan(): seq<PlanRow>
  {
    [PlanRow("Jan", 71520.0, 66000.0, 5520.0, 3312.0, 2208.0, 0.0, Mixed, 772800.0),
     PlanRow("Feb", 75440.0, 49500.0, 25940.0, 4950.0, 20990.0, 0.0, Mixed, 3366250.0),
     PlanRow("Mar", 93500.0, 66000.0, 27500.0, 6600.0, 20900.0, 0.0, Mixed, 3602500.0),
     PlanRow("Apr", 78400.0, 66000.0, 12400.0, 6600.0, 5800.0, 0.0, Mixed, 1715000.0),
     PlanRow("May", 85750.0, 82500.0, 3250.0, 1950.0, 1300.0, 0.0, Mixed, 455000.0),
     PlanRow("Jun", 60000.0, 66000.0, -6000.0, 0.0, 0.0, 6000.0, InventoryBuild, 120.0),
     PlanRow("Jul", 60000.0, 49500.0, 10500.0, 2700.0, 1800.0, 0.0, Mixed, 630000.0),
     PlanRow("Aug", 75000.0, 49500.0, 25500.0, 4950.0, 20550.0, 0.0, Mixed, 3311250.0),
     PlanRow("Sep", 62000.0, 66000.0, -4000.0, 0.0, 0.0, 4000.0, InventoryBuild, 80.0),
     PlanRow("Oct", 82500.0, 82500.0, 0.0, 0.0, 0.0, 4000.0, InventoryBuild, 80.0),
     PlanRow("Nov", 68000.0, 66000.0, 2000.0, 0.0, 0.0, 2000.0, Overtime, 0.0),
     PlanRow("Dec", 96000.0, 66000.0, 30000.0, 6600.0, 21400.0, 0.0, Mixed, 3665000.0)]
  }

  /** The base-scenario year: June, September and October build inventory
      (October's gap is exactly zero), November is covered by inventory alone
      and so is labelled 'Overtime' at zero cost, and the total cost is
      17518080. */
  lemma CaseBaseYear()
    ensures Plan(BaseTable(), 0.0, 0.6) == ExpectedBasePlan()
    ensures TotalCost(Plan(BaseTable(), 0.0, 0.6)) == 17518080.0
  {
    var table := BaseTable();
    var want := ExpectedBasePlan();
    forall i | 0 <= i < |table| ensures MonthStep(table[i], Opening(want, 0.0, i), 0.6) == want[i] {
      var m := LoadCaseData().0[i];
      assert table[i] == ScenarioMonth(m.month, m.productionWeeks, m.salesWeeks, m.avgWeeklyDemand, m.totalDemand,
                                    m.productionWeeks as real * 16500.0, m.totalDemand - m.productionWeeks as real * 16500.0);
      BaseStep(table[i], Opening(want, 0.0, i), want, i);
    }
    PlanFromSteps(table, want, 0.0, 0.6);
    SumOfExpected();
  }

  /** Month i of the case, started from the closing inventory of the expected
      previous month, gives the expected row. */
  lemma BaseStep(row: ScenarioMonth, open: real, want: seq<PlanRow>, i: nat)
    requires want == ExpectedBasePlan() && i < 12
    requires open == (if i == 0 then 0.0 else want[i - 1].inventory)
    requires var m := LoadCaseData().0[i];
      row == ScenarioMonth(m.month, m.productionWeeks, m.salesWeeks, m.avgWeeklyDemand, m.totalDemand,
                           m.productionWeeks as real * 16500.0, m.totalDemand - m.productionWeeks as real * 16500.0)
    ensures MonthStep(row, open, 0.6) == want[i]
  {
    if i < 3 {
      BaseQuarter1(row, open, want, i);
    } else if i < 6 {
      BaseQuarter2(row, open, want, i);
    } else if i < 9 {
      BaseQuarter3(row, open, want, i);
    } else {
      BaseQuarter4(row, open, want, i);
    }
  }

  /** Months 1 to 3 of the base year, each with its scenario row and
      opening inventory written out. */
  lemma BaseQuarter1(row: ScenarioMonth, open: real, want: seq<PlanRow>, i: nat)
    requires want == ExpectedBasePlan() && i < 3
    requires open == (if i == 0 then 0.0 else want[i - 1].inventory)
    requires var m := LoadCaseData().0[i];
      row == ScenarioMonth(m.month, m.productionWeeks, m.salesWeeks, m.avgWeeklyDemand, m.totalDemand,
                           m.productionWeeks as real * 16500.0, m.totalDemand - m.productionWeeks as real * 16500.0)
    ensures MonthStep(row, open, 0.6) == want[i]
  {
    if i == 0 {
      assert row == ScenarioMonth("Jan", 4, 4, 17880.0, 71520.0, 66000.0, 5520.0) && open == 0.0;
    } else if i == 1 {
      assert row == ScenarioMonth("Feb", 3, 4, 18860.0, 75440.0, 49500.0, 25940.0) && open == 0.0;
    } else {
      assert row == ScenarioMonth("Mar", 4, 5, 18700.0, 93500.0, 66000.0, 27500.0) && open == 0.0;
    }
  }

  /** Months 4 to 6 of the base year, each with its scenario row and
      opening inventory written out. */
  lemma BaseQuarter2(row: ScenarioMonth, open: real, want: seq<PlanRow>, i: nat)
    requires want == ExpectedBasePlan() && 3 <= i < 6
    requires open == (if i == 0 then 0.0 else want[i - 1].inventory)
    requires var m := LoadCaseData().0[i];
      row == ScenarioMonth(m.month, m.productionWeeks, m.salesWeeks, m.avgWeeklyDemand, m.totalDemand,
                           m.productionWeeks as real * 16500.0, m.totalDemand - m.productionWeeks as real * 16500.0)
    ensures MonthStep(row, open, 0.6) == want[i]
  {
    if i == 3 {
      assert row == ScenarioMonth("Apr", 4, 4, 19600.0, 78400.0, 66000.0, 12400.0) && open == 0.0;
    } else if i == 4 {
      assert row == ScenarioMonth("May", 5, 5, 17150.0, 85750.0, 82500.0, 3250.0) && open == 0.0;
    } else {
      assert row == ScenarioMonth("Jun", 4, 4, 15000.0, 60000.0, 66000.0, -6000.0) && open == 0.0;
    }
  }

  /** Months 7 to 9 of the base year, each with its scenario row and
      opening inventory written out. */
  lemma BaseQuarter3(row: ScenarioMonth, open: real, want: seq<PlanRow>, i: nat)
    requires want == ExpectedBasePlan() && 6 <= i < 9
    requires open == (if i == 0 then 0.0 else want[i - 1].inventory)
    requires var m := LoadCaseData().0[i];
      row == ScenarioMonth(m.month, m.productionWeeks, m.salesWeeks, m.avgWeeklyDemand, m.totalDemand,
                           m.productionWeeks as real * 16500.0, m.totalDemand - m.productionWeeks as real * 16500.0)
    ensures MonthStep(row, open, 0.6) == want[i]
  {
    if i == 6 {
      assert row == ScenarioMonth("Jul", 3, 4, 15000.0, 60000.0, 49500.0, 10500.0) && open == 6000.0;
    } else if i == 7 {
      assert row == ScenarioMonth("Aug", 3, 5, 15000.0, 75000.0, 49500.0, 25500.0) && open == 0.0;
    } else {
      assert row == ScenarioMonth("Sep", 4, 4, 15500.0, 62000.0, 66000.0, -4000.0) && open == 0.0;
    }
  }

  /** Months 10 to 12 of the base year, each with its scenario row and
      opening inventory written out. */
  lemma BaseQuarter4(row: ScenarioMonth, open: real, want: seq<PlanRow>, i: nat)
    requires want == ExpectedBasePlan() && 9 <= i < 12
    requires open == (if i == 0 then 0.0 else want[i - 1].inventory)
    requires var m := LoadCaseData().0[i];
      row == ScenarioMonth(m.month, m.productionWeeks, m.salesWeeks, m.avgWeeklyDemand, m.totalDemand,
                           m.productionWeeks as real * 16500.0, m.totalDemand - m.productionWeeks as real * 16500.0)
    ensures MonthStep(row, open, 0.6) == want[i]
  {
    if i == 9 {
      assert row == ScenarioMonth("Oct", 5, 5, 16500.0, 82500.0, 82500.0, 0.0) && open == 4000.0;
    } else if i == 10 {
      assert row == ScenarioMonth("Nov", 4, 4, 17000.0, 68000.0, 66000.0, 2000.0) && open == 4000.0;
    } else {
      assert row == ScenarioMonth("Dec", 4, 4, 24000.0, 96000.0, 66000.0, 30000.0) && open == 2000.0;
    }
  }

  lemma SumOfExpected()
    ensures TotalCost(ExpectedBasePlan()) == 17518080.0
  {
    var w := ExpectedBasePlan();
    assert w[..0] == [];
    assert TotalCost(w[..1]) == 772800.0;
    assert TotalCost(w[..2]) == TotalCost(w[..1]) + 3366250.0 by { assert w[..2][..1] == w[..1]; }
    assert TotalCost(w[..3]) == TotalCost(w[..2]) + 3602500.0 by { assert w[..3][..2] == w[..2]; }
    assert TotalCost(w[..4]) == TotalCost(w[..3]) + 1715000.0 by { assert w[..4][..3] == w[..3]; }
    assert TotalCost(w[..5]) == TotalCost(w[..4]) + 455000.0 by { assert w[..5][..4] == w[..4]; }
    assert TotalCost(w[..6]) == TotalCost(w[..5]) + 120.0 by { assert w[..6][..5] == w[..5]; }
    assert TotalCost(w[..7]) == TotalCost(w[..6]) + 630000.0 by { assert w[..7][..6] == w[..6]; }
    assert TotalCost(w[..8]) == TotalCost(w[..7]) + 3311250.0 by { assert w[..8][..7] == w[..7]; }
    assert TotalCost(w[..9]) == TotalCost(w[..8]) + 80.0 by { assert w[..9][..8] == w[..8]; }
    assert TotalCost(w[..10]) == TotalCost(w[..9]) + 80.0 by { assert w[..10][..9] == w[..9]; }
    assert TotalCost(w[..11]) == TotalCost(w[..10]) + 0.0 by { assert w[..11][..10] == w[..10]; }
    assert TotalCost(w) == TotalCost(w[..11]) + 3665000.0 by { assert w[..11] == w[..|w| - 1]; }
  }
}
