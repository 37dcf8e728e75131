/** Month-over-month analysis: the default comparison month, the deltas between
    two months' aggregates and the margin bridge built from them. */
module Comparison {
  import opened BudgetTypes
  import opened ComputeEngine
  import opened MonthStore

  /** The month offered for comparison when `selected` is chosen: the previous
      calendar month, or January itself when January is selected (no wrap to December). */
  function DefaultComparisonMonth(selected: Month): (m: Month)
    ensures selected == Jan ==> m == Jan
    ensures selected != Jan ==> MonthIndex(m) + 1 == MonthIndex(selected)
  {
    var idx := MonthIndex(selected);
    if idx > 0 then Months[idx - 1] else Months[0]
  }

  /** Current month minus comparison month; the gross-margin change is in
      percentage points. */
  datatype Deltas = Deltas(revenue: real, cost: real, margin: real, gmPoints: real)

  /** The deltas that, added to the comparison month's figures, give the current
      month's; the gross-margin delta is measured on the percentage scale. */
  function MonthOverMonth(cur: Summary, prev: Summary): (d: Deltas)
    ensures prev.revenue + d.revenue == cur.revenue
    ensures prev.totalCost + d.cost == cur.totalCost
    ensures prev.margin + d.margin == cur.margin
    ensures prev.gm * 100.0 + d.gmPoints == cur.gm * 100.0
  {
    Deltas(cur.revenue - prev.revenue, cur.totalCost - prev.totalCost,
           cur.margin - prev.margin, (cur.gm - prev.gm) * 100.0)
  }

  /** Relative revenue change in percent; shown as 0 when the comparison month
      has no revenue (any non-zero revenue, even negative, is divided by). */
  function RevenueChangePercent(revDelta: real, prevRevenue: real): (p: real)
    ensures prevRevenue != 0.0 ==> p * prevRevenue == revDelta * 100.0
    ensures prevRevenue == 0.0 ==> p == 0.0
  {
    if prevRevenue != 0.0 then revDelta / prevRevenue * 100.0 else 0.0
  }

  /** One line of the margin bridge. */
  datatype BridgeRow = BridgeRow(driver: string, impact: real)

  /** The margin bridge: the revenue change, the cost change with its sign
      flipped (a cost increase hurts margin) and the net margin change. */
  function MarginBridge(d: Deltas): (rows: seq<BridgeRow>)
    ensures |rows| == 3
    ensures rows[0].impact == d.revenue && rows[2].impact == d.margin
    ensures rows[1].impact + d.cost == 0.0
  {
    [BridgeRow("Revenue change", d.revenue),
     BridgeRow("Cost change", -d.cost),
     BridgeRow("Net Margin impact", d.margin)]
  }

  /** Comparing a month with itself gives all-zero deltas and a 0% revenue change. */
  lemma SelfComparisonIsZero(md: MonthRecord, g: Drivers)
    ensures MonthOverMonth(MonthSummary(md, g), MonthSummary(md, g)) == Deltas(0.0, 0.0, 0.0, 0.0)
    ensures RevenueChangePercent(0.0, MonthSummary(md, g).revenue) == 0.0
  {
  }

  /** Swapping the two months negates every delta. */
  lemma SwappedComparisonNegates(a: Summary, b: Summary)
    ensures var ab := MonthOverMonth(a, b);
            var ba := MonthOverMonth(b, a);
            ab.revenue == -ba.revenue && ab.cost == -ba.cost
            && ab.margin == -ba.margin && ab.gmPoints == -ba.gmPoints
  {
  }

  /** For any two months the bridge balances: the revenue line plus the cost
      line equals the net margin line. */
  lemma BridgeBalances(cur: MonthRecord, prev: MonthRecord, g: Drivers)
    ensures var rows := MarginBridge(MonthOverMonth(MonthSummary(cur, g), MonthSummary(prev, g)));
            rows[0].impact + rows[1].impact == rows[2].impact
  {
  }

  /** The analysis as the page runs it: compute the selected month, then the
      comparison month, each from the store with its own resolved inputs, and
      derive the deltas, the revenue change in percent and the bridge. */
  method AnalyseMonthOverMonth(store: SessionStore, selected: Month, compare: Month, g: Drivers)
    returns (d: Deltas, revenuePct: real, bridge: seq<BridgeRow>)
    requires store.Valid()
    modifies store
    ensures store.Valid() && store.hasData
    ensures old(store.hasData) ==> store.months == old(store.months)
    ensures !old(store.hasData) ==> forall m: Month :: m in store.months && store.months[m] == FreshRecord()
    ensures selected in store.months && compare in store.months
    ensures var cur := MonthSummary(store.months[selected], g);
            var prev := MonthSummary(store.months[compare], g);
            && d == MonthOverMonth(cur, prev)
            && revenuePct == RevenueChangePercent(cur.revenue - prev.revenue, prev.revenue)
    ensures bridge == MarginBridge(d)
    ensures bridge[0].impact + bridge[1].impact == bridge[2].impact
  {
    var cur := store.ComputeFromMonthStore(selected, g);
    ghost var afterFirst := store.months;
    assert !old(store.hasData) ==> forall m: Month :: m in afterFirst && afterFirst[m] == FreshRecord();
    var prev := store.ComputeFromMonthStore(compare, g);
    assert store.months == afterFirst;
    assert cur == MonthSummary(store.months[selected], g);
    d := MonthOverMonth(cur, prev);
    assert d.revenue == cur.revenue - prev.revenue;
    revenuePct := RevenueChangePercent(d.revenue, prev.revenue);
    bridge := MarginBridge(d);
    assert cur.margin == cur.revenue - cur.totalCost && prev.margin == prev.revenue - prev.totalCost;
  }

  /** The first analysis of a new session compares two months as the store
      creates them, so every delta and the revenue change are 0. */
  method FirstAnalysisOfSession(selected: Month, compare: Month, g: Drivers)
    returns (d: Deltas, revenuePct: real)
    ensures d == Deltas(0.0, 0.0, 0.0, 0.0) && revenuePct == 0.0
  {
    var store := new SessionStore();
    var bridge;
    d, revenuePct, bridge := AnalyseMonthOverMonth(store, selected, compare, g);
    FreshMonthIsZero(g);
  }
}
