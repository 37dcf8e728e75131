/** Revenue, total cost, margin and gross margin of one month's record. */
module ComputeEngine {
  import opened BudgetTypes
  import opened CostModel

  /** The four aggregates the summary shows for a month. */
  datatype Summary = Summary(revenue: real, totalCost: real, margin: real, gm: real)

  /** Month input resolution with falsy coalescing: an unset input AND an input
      stored as 0 both fall back to the global default; any other stored value wins. */
  function ResolveOverride(stored: Option<real>, default: real): (r: real)
    ensures stored.None? ==> r == default
    ensures stored == Some(0.0) ==> r == default
    ensures stored.Some? && stored.value != 0.0 ==> r == stored.value
  {
    match stored
    case None => default
    case Some(v) => if v != 0.0 then v else default
  }

  /** Hours per head that can be billed: worked hours less the shrinkage share. */
  function ProductiveHours(wh: real, sh: real): (h: real)
    ensures h == wh - wh * sh
    ensures 0.0 <= sh <= 1.0 && wh >= 0.0 ==> 0.0 <= h <= wh
  {
    wh * (1.0 - sh)
  }

  /** The FX rate, worked hours and shrinkage in force for a month. */
  function MonthFx(md: MonthRecord, g: Drivers): real
  {
    ResolveOverride(md.inputs.fx, g.fxDefault)
  }

  function MonthHours(md: MonthRecord, g: Drivers): real
  {
    ProductiveHours(ResolveOverride(md.inputs.workedHours, g.whDefault),
                    ResolveOverride(md.inputs.shrinkage, g.shDefault))
  }

  /** Cost of `hc` heads at base salary `salary`. */
  function HeadsCost(g: Drivers, hc: real, salary: real): real
  {
    hc * AgentCost(g, salary)
  }

  /** Revenue of one production row: heads times billable hours times the unit
      price converted to local currency. */
  function RowRevenue(r: ProductionRow, hours: real, fx: real): real
  {
    r.hc * hours * (r.up * fx)
  }

  /** Sum of the cost of the production rows, accumulated in row order. */
  function ProductionCost(g: Drivers, rows: seq<ProductionRow>): real
  {
    if rows == [] then 0.0
    else ProductionCost(g, rows[..|rows| - 1]) + HeadsCost(g, rows[|rows| - 1].hc, rows[|rows| - 1].salary)
  }

  /** Sum of the revenue of the production rows, accumulated in row order. */
  function ProductionRevenue(rows: seq<ProductionRow>, hours: real, fx: real): real
  {
    if rows == [] then 0.0
    else ProductionRevenue(rows[..|rows| - 1], hours, fx) + RowRevenue(rows[|rows| - 1], hours, fx)
  }

  /** Sum of the cost of the overhead rows, accumulated in row order. */
  function OverheadCost(g: Drivers, rows: seq<OverheadRow>): real
  {
    if rows == [] then 0.0
    else OverheadCost(g, rows[..|rows| - 1]) + HeadsCost(g, rows[|rows| - 1].hc, rows[|rows| - 1].salary)
  }

  /** Gross margin as a fraction of revenue, defined as 0 when there is no positive revenue. */
  function GrossMargin(margin: real, revenue: real): (gm: real)
    ensures revenue > 0.0 ==> gm * revenue == margin
    ensures revenue <= 0.0 ==> gm == 0.0
  {
    if revenue > 0.0 then margin / revenue else 0.0
  }

  /** The month's aggregates: revenue from production rows only, cost from
      production and overhead rows, margin and the guarded gross margin. */
  function MonthSummary(md: MonthRecord, g: Drivers): Summary
  {
    var revenue := MonthRevenue(md, g);
    var cost := MonthCost(md, g);
    Summary(revenue, cost, revenue - cost, GrossMargin(revenue - cost, revenue))
  }

  /** Revenue of a month: its production rows at the month's hours and FX. */
  function MonthRevenue(md: MonthRecord, g: Drivers): real
  {
    ProductionRevenue(md.prod, MonthHours(md, g), MonthFx(md, g))
  }

  /** Total cost of a month: production plus overhead. */
  function MonthCost(md: MonthRecord, g: Drivers): real
  {
    ProductionCost(g, md.prod) + OverheadCost(g, md.oh)
  }

  /** The engine as it runs: resolve the inputs, then walk the production rows
      accumulating cost and revenue, then the overhead rows accumulating cost. */
  method ComputeMonth(md: MonthRecord, g: Drivers) returns (s: Summary)
    ensures s == MonthSummary(md, g)
    ensures s.margin == s.revenue - s.totalCost
    ensures s.revenue > 0.0 ==> s.gm * s.revenue == s.margin
    ensures s.revenue <= 0.0 ==> s.gm == 0.0
  {
    var fx := ResolveOverride(md.inputs.fx, g.fxDefault);
    var wh := ResolveOverride(md.inputs.workedHours, g.whDefault);
    var sh := ResolveOverride(md.inputs.shrinkage, g.shDefault);
    var prodHours := wh * (1.0 - sh);

    var totalProdCost, totalRevenue, totalOh := 0.0, 0.0, 0.0;

    for i := 0 to |md.prod|
      invariant totalProdCost == ProductionCost(g, md.prod[..i])
      invariant totalRevenue == ProductionRevenue(md.prod[..i], prodHours, fx)
    {
      var r := md.prod[i];
      var upTry := r.up * fx;
      var cost := r.hc * AgentCost(g, r.salary);
      var revenue := r.hc * prodHours * upTry;
      assert md.prod[..i + 1][..i] == md.prod[..i] && md.prod[..i + 1][i] == r;
      assert cost == HeadsCost(g, r.hc, r.salary) && revenue == RowRevenue(r, prodHours, fx);
      totalProdCost := totalProdCost + cost;
      totalRevenue := totalRevenue + revenue;
    }
    assert md.prod[..|md.prod|] == md.prod;

    for i := 0 to |md.oh|
      invariant totalOh == OverheadCost(g, md.oh[..i])
    {
      assert md.oh[..i + 1][..i] == md.oh[..i] && md.oh[..i + 1][i] == md.oh[i];
      totalOh := totalOh + md.oh[i].hc * AgentCost(g, md.oh[i].salary);
    }
    assert md.oh[..|md.oh|] == md.oh;

    assert prodHours == MonthHours(md, g) && fx == MonthFx(md, g);
    var totalCost := totalProdCost + totalOh;
    var margin := totalRevenue - totalCost;
    var gm := if totalRevenue > 0.0 then margin / totalRevenue else 0.0;
    s := Summary(totalRevenue, totalCost, margin, gm);
  }

  // ---------------------------------------------------------------------------
  // Properties of the sums

  /** Rows with no heads contribute nothing. */
  lemma {:induction false} ZeroHeadcountProduction(g: Drivers, rows: seq<ProductionRow>, hours: real, fx: real)
    requires forall i :: 0 <= i < |rows| ==> rows[i].hc == 0.0
    ensures ProductionCost(g, rows) == 0.0 && ProductionRevenue(rows, hours, fx) == 0.0
  {
    if rows != [] {
      ZeroHeadcountProduction(g, rows[..|rows| - 1], hours, fx);
    }
  }

  lemma {:induction false} ZeroHeadcountOverhead(g: Drivers, rows: seq<OverheadRow>)
    requires forall i :: 0 <= i < |rows| ==> rows[i].hc == 0.0
    ensures OverheadCost(g, rows) == 0.0
  {
    if rows != [] {
      ZeroHeadcountOverhead(g, rows[..|rows| - 1]);
    }
  }

  /** Replacing one production row changes each production total by exactly the
      difference between the new row's and the old row's contribution. */
  lemma {:induction false} ProductionRowReplaced(g: Drivers, rows: seq<ProductionRow>, i: nat, r: ProductionRow, hours: real, fx: real)
    requires i < |rows|
    ensures ProductionCost(g, rows[i := r])
         == ProductionCost(g, rows) - HeadsCost(g, rows[i].hc, rows[i].salary) + HeadsCost(g, r.hc, r.salary)
    ensures ProductionRevenue(rows[i := r], hours, fx)
         == ProductionRevenue(rows, hours, fx) - RowRevenue(rows[i], hours, fx) + RowRevenue(r, hours, fx)
  {
    var n := |rows|;
    if i == n - 1 {
      assert rows[i := r][..n - 1] == rows[..n - 1];
    } else {
      assert rows[i := r][..n - 1] == rows[..n - 1][i := r];
      ProductionRowReplaced(g, rows[..n - 1], i, r, hours, fx);
    }
  }

  /** Replacing one overhead row changes the overhead cost by exactly the
      difference between the new row's and the old row's cost. */
  lemma {:induction false} OverheadRowReplaced(g: Drivers, rows: seq<OverheadRow>, i: nat, r: OverheadRow)
    requires i < |rows|
    ensures OverheadCost(g, rows[i := r])
         == OverheadCost(g, rows) - HeadsCost(g, rows[i].hc, rows[i].salary) + HeadsCost(g, r.hc, r.salary)
  {
    var n := |rows|;
    if i == n - 1 {
      assert rows[i := r][..n - 1] == rows[..n - 1];
    } else {
      assert rows[i := r][..n - 1] == rows[..n - 1][i := r];
      OverheadRowReplaced(g, rows[..n - 1], i, r);
    }
  }

  lemma NonNegativeProduct(a: real, b: real)
    requires a >= 0.0 && b >= 0.0
    ensures a * b >= 0.0
  {
  }

  lemma ScaleStrict(a: real, b: real, c: real)
    requires a > b && c > 0.0
    ensures a * c > b * c
  {
  }

  lemma ExtraHeadsOne(hc: real, k: real, y: real)
    ensures (hc + k) * y == hc * y + k * y
  {
  }

  lemma ExtraHeads(hc: real, k: real, x: real, y: real)
    ensures (hc + k) * x * y == hc * x * y + k * x * y
  {
    assert (hc + k) * x == hc * x + k * x;
  }

  /** With sane drivers, non-negative headcounts and salaries cost a non-negative amount. */
  lemma {:induction false} ProductionCostNonNegative(g: Drivers, rows: seq<ProductionRow>)
    requires SaneDrivers(g)
    requires forall i :: 0 <= i < |rows| ==> rows[i].hc >= 0.0 && rows[i].salary >= 0.0
    ensures ProductionCost(g, rows) >= 0.0
  {
    if rows != [] {
      var last := rows[|rows| - 1];
      ProductionCostNonNegative(g, rows[..|rows| - 1]);
      AgentCostMonotoneInSalary(g, 0.0, last.salary);
      NonNegativeProduct(last.hc, AgentCost(g, last.salary));
    }
  }

  lemma {:induction false} OverheadCostNonNegative(g: Drivers, rows: seq<OverheadRow>)
    requires SaneDrivers(g)
    requires forall i :: 0 <= i < |rows| ==> rows[i].hc >= 0.0 && rows[i].salary >= 0.0
    ensures OverheadCost(g, rows) >= 0.0
  {
    if rows != [] {
      var last := rows[|rows| - 1];
      OverheadCostNonNegative(g, rows[..|rows| - 1]);
      AgentCostMonotoneInSalary(g, 0.0, last.salary);
      NonNegativeProduct(last.hc, AgentCost(g, last.salary));
    }
  }

  // ---------------------------------------------------------------------------
  // Properties of a month's summary

  /** Every headcount at 0 gives revenue, cost, margin and gross margin all 0,
      whatever the salaries, prices and inputs. */
  lemma ZeroHeadcountSummary(md: MonthRecord, g: Drivers)
    requires forall i :: 0 <= i < |md.prod| ==> md.prod[i].hc == 0.0
    requires forall i :: 0 <= i < |md.oh| ==> md.oh[i].hc == 0.0
    ensures MonthSummary(md, g) == Summary(0.0, 0.0, 0.0, 0.0)
  {
    ZeroHeadcountProduction(g, md.prod, MonthHours(md, g), MonthFx(md, g));
    ZeroHeadcountOverhead(g, md.oh);
  }

  /** Overhead rows never earn revenue: two records that differ only in their
      overhead rows have the same revenue. */
  lemma RevenueIgnoresOverhead(md: MonthRecord, oh: seq<OverheadRow>, g: Drivers)
    ensures MonthSummary(md.(oh := oh), g).revenue == MonthSummary(md, g).revenue
  {
  }

  /** Adding `k` heads to overhead row `i` leaves revenue unchanged and raises total
      cost by what `k` heads at that row's salary cost. */
  lemma OverheadHeadcountEffect(md: MonthRecord, g: Drivers, i: nat, k: real)
    requires i < |md.oh|
    ensures var row := md.oh[i];
            var md' := md.(oh := md.oh[i := row.(hc := row.hc + k)]);
            && MonthRevenue(md', g) == MonthRevenue(md, g)
            && MonthCost(md', g) == MonthCost(md, g) + HeadsCost(g, k, row.salary)
  {
    var row := md.oh[i];
    OverheadRowReplaced(g, md.oh, i, row.(hc := row.hc + k));
    ExtraHeadsOne(row.hc, k, AgentCost(g, row.salary));
  }

  /** Adding `k` heads to production row `i` raises revenue by what `k` heads of
      that row earn (`k` times the productive hours times the converted unit price)
      and total cost by what they cost (`k` times the loaded cost of its salary). */
  lemma ProductionHeadcountEffect(md: MonthRecord, g: Drivers, i: nat, k: real)
    requires i < |md.prod|
    ensures var row := md.prod[i];
            var md' := md.(prod := md.prod[i := row.(hc := row.hc + k)]);
            && MonthRevenue(md', g) == MonthRevenue(md, g) + RowRevenue(row.(hc := k), MonthHours(md, g), MonthFx(md, g))
            && MonthCost(md', g) == MonthCost(md, g) + HeadsCost(g, k, row.salary)
  {
    var md' := md.(prod := md.prod[i := md.prod[i].(hc := md.prod[i].hc + k)]);
    var hours, fx := MonthHours(md, g), MonthFx(md, g);
    assert MonthHours(md', g) == hours && MonthFx(md', g) == fx;
    ExtraProductionHeads(g, md.prod, i, k, hours, fx);
  }

  lemma ExtraProductionHeads(g: Drivers, rows: seq<ProductionRow>, i: nat, k: real, hours: real, fx: real)
    requires i < |rows|
    ensures var rows' := rows[i := rows[i].(hc := rows[i].hc + k)];
            && ProductionRevenue(rows', hours, fx) == ProductionRevenue(rows, hours, fx) + RowRevenue(rows[i].(hc := k), hours, fx)
            && ProductionCost(g, rows') == ProductionCost(g, rows) + HeadsCost(g, k, rows[i].salary)
  {
    var row := rows[i];
    var row' := row.(hc := row.hc + k);
    ProductionRowReplaced(g, rows, i, row', hours, fx);
    ExtraHeads(row.hc, k, hours, row.up * fx);
    assert RowRevenue(row', hours, fx) == RowRevenue(row, hours, fx) + RowRevenue(row.(hc := k), hours, fx);
    ExtraHeadsOne(row.hc, k, AgentCost(g, row.salary));
    assert HeadsCost(g, row'.hc, row'.salary) == HeadsCost(g, row.hc, row.salary) + HeadsCost(g, k, row.salary);
  }

  /** Each month input on its own: one stored as 0 is indistinguishable from an
      unset one, so the summary is the one computed with that global default. */
  lemma ZeroInputsAreDefaults(md: MonthRecord, g: Drivers)
    ensures md.inputs.fx == Some(0.0)
            ==> MonthSummary(md, g) == MonthSummary(md.(inputs := md.inputs.(fx := None)), g)
    ensures md.inputs.workedHours == Some(0.0)
            ==> MonthSummary(md, g) == MonthSummary(md.(inputs := md.inputs.(workedHours := None)), g)
    ensures md.inputs.shrinkage == Some(0.0)
            ==> MonthSummary(md, g) == MonthSummary(md.(inputs := md.inputs.(shrinkage := None)), g)
  {
  }

  /** With sane drivers, non-negative rows and positive revenue, the gross margin
      is at most 1, and it is negative exactly when the margin is. */
  lemma GrossMarginBounds(md: MonthRecord, g: Drivers)
    requires SaneDrivers(g)
    requires forall i :: 0 <= i < |md.prod| ==> md.prod[i].hc >= 0.0 && md.prod[i].salary >= 0.0
    requires forall i :: 0 <= i < |md.oh| ==> md.oh[i].hc >= 0.0 && md.oh[i].salary >= 0.0
    requires MonthSummary(md, g).revenue > 0.0
    ensures MonthSummary(md, g).gm <= 1.0
    ensures MonthSummary(md, g).gm < 0.0 <==> MonthSummary(md, g).margin < 0.0
  {
    ProductionCostNonNegative(g, md.prod);
    OverheadCostNonNegative(g, md.oh);
    var s := MonthSummary(md, g);
    FractionBounds(s.gm, s.revenue, s.totalCost);
  }

  /** A ratio `gm` with `gm * revenue == revenue - cost` for positive revenue and
      non-negative cost is at most 1, and negative exactly when cost exceeds revenue. */
  lemma FractionBounds(gm: real, revenue: real, cost: real)
    requires revenue > 0.0 && cost >= 0.0 && gm * revenue == revenue - cost
    ensures gm <= 1.0
    ensures gm < 0.0 <==> revenue - cost < 0.0
  {
    if gm > 1.0 {
      ScaleStrict(gm, 1.0, revenue);
    }
    if gm < 0.0 {
      ScaleStrict(0.0, gm, revenue);
    } else {
      NonNegativeProduct(gm, revenue);
    }
  }
}
