/** The per-session month store: twelve month records, created together the
    first time anything asks for them and never recreated afterwards. */
module MonthStore {
  import opened BudgetTypes
  import opened CostModel
  import opened ComputeEngine

  /** A month record with exactly one production row per language and one
      overhead row per role, in the fixed order. */
  predicate WellShapedRecord(md: MonthRecord)
  {
    && |md.prod| == |Languages|
    && |md.oh| == |Roles|
    && (forall i :: 0 <= i < |md.prod| ==> md.prod[i].lang == Languages[i])
    && (forall i :: 0 <= i < |md.oh| ==> md.oh[i].role == Roles[i])
  }

  /** Every one of the twelve months has a well-shaped record. */
  predicate WellShapedStore(months: map<Month, MonthRecord>)
  {
    forall m: Month :: m in months && WellShapedRecord(months[m])
  }

  /** The record a month starts with: no input overrides, and every production
      and overhead slot present with all numbers at 0. */
  function FreshRecord(): (md: MonthRecord)
    ensures WellShapedRecord(md)
    ensures md.inputs == MonthInputs(None, None, None)
    ensures forall i :: 0 <= i < |md.prod| ==> md.prod[i].hc == md.prod[i].salary == md.prod[i].up == 0.0
    ensures forall i :: 0 <= i < |md.oh| ==> md.oh[i].hc == md.oh[i].salary == 0.0
  {
    MonthRecord(
      MonthInputs(None, None, None),
      seq(|Languages|, i requires 0 <= i < |Languages| => ProductionRow(Languages[i], 0.0, 0.0, 0.0)),
      seq(|Roles|, i requires 0 <= i < |Roles| => OverheadRow(Roles[i], 0.0, 0.0)))
  }

  /** The store of one session. `hasData` records whether the month records have
      been created; before that `months` holds nothing of meaning. */
  class SessionStore {
    var hasData: bool
    var months: map<Month, MonthRecord>

    /** Once created, the store holds a well-shaped record for every month. */
    ghost predicate Valid()
      reads this
    {
      hasData ==> WellShapedStore(months)
    }

    /** A new session, before any month record exists. */
    constructor ()
      ensures Valid() && !hasData
    {
      hasData := false;
      months := map[];
    }

    /** Creates the twelve fresh month records unless they already exist; an
        existing store is left exactly as it is, so calling this again changes nothing. */
    method EnsureStorage()
      requires Valid()
      modifies this
      ensures Valid() && hasData
      ensures old(hasData) ==> months == old(months)
      ensures !old(hasData) ==> forall m: Month :: m in months && months[m] == FreshRecord()
    {
      if hasData {
        return;
      }
      var created: map<Month, MonthRecord> := map[];
      for i := 0 to |Months|
        invariant forall j :: 0 <= j < i ==> Months[j] in created && created[Months[j]] == FreshRecord()
      {
        created := created[Months[i] := FreshRecord()];
      }
      forall m: Month ensures m in created && created[m] == FreshRecord() && WellShapedRecord(created[m]) {
        assert Months[MonthIndex(m)] == m;
      }
      hasData, months := true, created;
      assert WellShapedStore(months);
    }

    /** The record of month `m`, creating the store first if needed. */
    method GetMonthData(m: Month) returns (md: MonthRecord)
      requires Valid()
      modifies this
      ensures Valid() && hasData
      ensures old(hasData) ==> months == old(months)
      ensures !old(hasData) ==> forall m': Month :: m' in months && months[m'] == FreshRecord()
      ensures m in months && md == months[m] && WellShapedRecord(md)
    {
      EnsureStorage();
      md := months[m];
    }

    /** Revenue, total cost, margin and gross margin of month `m` as stored. */
    method ComputeFromMonthStore(m: Month, g: Drivers) returns (s: Summary)
      requires Valid()
      modifies this
      ensures Valid() && hasData
      ensures old(hasData) ==> months == old(months)
      ensures !old(hasData) ==> forall m': Month :: m' in months && months[m'] == FreshRecord()
      ensures m in months && s == MonthSummary(months[m], g)
    {
      var md := GetMonthData(m);
      s := ComputeMonth(md, g);
    }
  }

  /** A month nobody has edited yet shows all four aggregates at 0. */
  lemma FreshMonthIsZero(g: Drivers)
    ensures MonthSummary(FreshRecord(), g) == Summary(0.0, 0.0, 0.0, 0.0)
  {
    ZeroHeadcountSummary(FreshRecord(), g);
  }

  /** The month of the worked example: a month as the store creates it, with the
      DE row set to ten agents at salary 30000 billed at unit price 5. */
  function ExampleMonth(): MonthRecord
  {
    var blank := FreshRecord();
    blank.(prod := blank.prod[0 := ProductionRow("DE", 10.0, 30000.0, 5.0)])
  }

  /** With the sidebar's starting drivers and no month overrides (FX 38, 180
      hours, shrinkage 0.15), the example month earns 290700 ... */
  lemma ExampleMonthRevenue(g: Drivers)
    requires g == SidebarDefaults
    ensures MonthRevenue(ExampleMonth(), g) == 290700.0
  {
    var blank := FreshRecord();
    var row := ProductionRow("DE", 10.0, 30000.0, 5.0);
    var hours, fx := MonthHours(blank, g), MonthFx(blank, g);
    assert hours == 153.0 && fx == 38.0;
    var md := blank.(prod := blank.prod[0 := row]);
    assert MonthHours(md, g) == hours && MonthFx(md, g) == fx;
    ExampleRevenue(g, blank.prod, row, hours, fx);
    assert ExampleMonth() == md;
  }

  /** ... and costs 619500. */
  lemma ExampleMonthCost(g: Drivers)
    requires g == SidebarDefaults
    ensures MonthCost(ExampleMonth(), g) == 619500.0
  {
    var blank := FreshRecord();
    var row := ProductionRow("DE", 10.0, 30000.0, 5.0);
    ExampleCost(g, blank, row);
    assert ExampleMonth() == blank.(prod := blank.prod[0 := row]);
  }

  lemma ExampleRevenue(g: Drivers, prod: seq<ProductionRow>, row: ProductionRow, hours: real, fx: real)
    requires |prod| > 0 && forall i :: 0 <= i < |prod| ==> prod[i].hc == 0.0
    requires row.hc == 10.0 && row.up == 5.0 && hours == 153.0 && fx == 38.0
    ensures ProductionRevenue(prod[0 := row], hours, fx) == 290700.0
  {
    ZeroHeadcountProduction(g, prod, hours, fx);
    ProductionRowReplaced(g, prod, 0, row, hours, fx);
    assert RowRevenue(prod[0], hours, fx) == 0.0;
  }

  lemma ExampleCost(g: Drivers, blank: MonthRecord, row: ProductionRow)
    requires g == SidebarDefaults && |blank.prod| > 0
    requires forall i :: 0 <= i < |blank.prod| ==> blank.prod[i].hc == 0.0
    requires forall i :: 0 <= i < |blank.oh| ==> blank.oh[i].hc == 0.0
    requires row.hc == 10.0 && row.salary == 30000.0
    ensures MonthCost(blank.(prod := blank.prod[0 := row]), g) == 619500.0
  {
    ZeroHeadcountProduction(g, blank.prod, 0.0, 0.0);
    ZeroHeadcountOverhead(g, blank.oh);
    ProductionRowReplaced(g, blank.prod, 0, row, 0.0, 0.0);
    assert HeadsCost(g, blank.prod[0].hc, blank.prod[0].salary) == 0.0;
    assert AgentCost(g, 30000.0) == 61950.0;
  }

  /** The example month's summary: margin -328800 and gross margin -328800/290700. */
  lemma SingleRowExample(g: Drivers)
    requires g == SidebarDefaults
    ensures MonthSummary(ExampleMonth(), g) == Summary(290700.0, 619500.0, -328800.0, -328800.0 / 290700.0)
  {
    ExampleMonthRevenue(g);
    ExampleMonthCost(g);
  }
}
