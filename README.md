# Budget calculator engine — a Dafny model

This project models the calculation engine of a workforce budgeting page
(`streamlit_app.py`). For each of the twelve months the page keeps a record with
three optional inputs (FX rate, worked hours, shrinkage), six production rows
(one per language: DE, EN, TR, FR, IT, NL, each with headcount, base salary and a
foreign-currency unit price) and five overhead rows (Team Manager, QA, Ops,
Trainer, RTA/WFM, each with headcount and base salary). From a month's record and
the global drivers it derives revenue, total cost, margin and gross margin, and it
compares the selected month with another one (deltas, relative revenue change,
margin bridge).

Modules, one per part of the engine:

- `BudgetTypes` (`budget_types.dfy`): months, language and role slots, rows,
  month records, and the global drivers as an explicit immutable `Drivers`
  record (the page keeps them in module-level variables read by the functions).
  `SidebarDefaults` holds the values the sidebar starts with; for the number
  inputs these are also their minimum values (the second positional argument of
  `number_input` is its minimum), and shrinkage is a slider over [0, 0.5].
  `SidebarRange` is the set of drivers the sidebar can supply.
- `CostModel` (`cost_model.dfy`): the fully loaded cost of one head,
  `(salary + salary·bonusPct·bonusMultiplier)·salaryMultiplier + mealCard`.
- `ComputeEngine` (`compute_engine.dfy`): input resolution, productive hours,
  the row sums as specification functions, `MonthSummary`, and `ComputeMonth`,
  the imperative engine (two accumulating loops) proved equal to `MonthSummary`.
- `MonthStore` (`month_store.dfy`): the session's store as a class
  `SessionStore` holding a map from month to record; the records are created
  once, eagerly, for all twelve months.
- `Comparison` (`comparison.dfy`): the default comparison month, the
  month-over-month deltas, the relative revenue change and the margin bridge.

Money, hours and rates are `real`; floating-point rounding is not modelled.

Input resolution follows the code, which writes `stored or default`: an unset
input and an input stored as `0` both fall back to the global default, so a
deliberately entered 0 FX rate, 0 hours or 0 shrinkage can never take effect
(`ResolveOverride`, `ZeroInputsAreDefaults`). Treating only an unset value as
"no override" is not what the code does; the model follows the code.
The file offers no widget that stores a month input, so the behaviour is latent.

## Model

| member | source | states |
|---|---|---|
| BudgetTypes.MonthIndex | streamlit_app.py:35 | the position of a month in the fixed twelve-month list, below 12, and the list holds that month there |
| CostModel.AgentCost | streamlit_app.py:89-91 | the loaded cost of one head: salary plus bonus (salary·bonusPct·bonusMultiplier), times the salary multiplier, plus the meal card |
| CostModel.SidebarRangeIsSane | streamlit_app.py:64-75 | every set of drivers the sidebar can supply (each number input at or above its minimum, shrinkage in [0, 0.5]) has a positive salary multiplier and non-negative bonus settings and meal card |
| CostModel.AgentCostIsAffine | streamlit_app.py:89-91 | the loaded cost per head is the meal card plus the salary times `salaryMultiplier·(1 + bonusPct·bonusMultiplier)` |
| CostModel.SidebarDefaultsExample | streamlit_app.py:68-71 | with the starting drivers 1.70, 0.10, 1.00 and 5850, salary 30000 costs 61950 |
| CostModel.ZeroSalaryCostsMealCard | streamlit_app.py:89-91 | a head with salary 0 costs exactly the meal card |
| CostModel.AgentCostMonotoneInSalary | streamlit_app.py:89-91 | for a positive multiplier and non-negative bonus settings and meal card, cost is at least the meal card and never decreases as salary grows |
| CostModel.AgentCostMonotoneInDrivers | streamlit_app.py:89-91 | for a non-negative salary, raising any of salary multiplier, bonus %, bonus multiplier or meal card never lowers the cost |
| ComputeEngine.ResolveOverride | streamlit_app.py:95-97 | an unset input or one stored as 0 yields the global default; any other stored value is used as is |
| ComputeEngine.ZeroInputsAreDefaults | streamlit_app.py:95-97 | each input on its own: a month with its FX rate, its worked hours or its shrinkage stored as 0 has exactly the summary of the same month with that one input unset |
| ComputeEngine.ProductiveHours | streamlit_app.py:98 | productive hours are worked hours less the shrinkage share, and lie between 0 and the worked hours when shrinkage is in [0, 1] |
| ComputeEngine.MonthFx | streamlit_app.py:95 | the FX rate in force for a month: its stored rate, or the global default when that is unset or 0 |
| ComputeEngine.MonthHours | streamlit_app.py:96-98 | the productive hours per head in a month: resolved worked hours times one minus resolved shrinkage |
| ComputeEngine.HeadsCost | streamlit_app.py:105 | the cost of a row: its headcount times the loaded cost of its salary |
| ComputeEngine.RowRevenue | streamlit_app.py:104-106 | the revenue of a production row: headcount times productive hours times unit price converted at the month's FX rate |
| ComputeEngine.ProductionCost | streamlit_app.py:102-107 | the sum of the production rows' costs, accumulated in row order |
| ComputeEngine.ProductionRevenue | streamlit_app.py:102-108 | the sum of the production rows' revenues, accumulated in row order |
| ComputeEngine.OverheadCost | streamlit_app.py:110-111 | the sum of the overhead rows' costs, accumulated in row order |
| ComputeEngine.MonthRevenue | streamlit_app.py:93-108 | a month's revenue: its production rows at the month's productive hours and FX rate; overhead rows earn nothing |
| ComputeEngine.MonthCost | streamlit_app.py:93-113 | a month's total cost: production cost plus overhead cost |
| ComputeEngine.MonthSummary | streamlit_app.py:93-122 | a month's revenue, total cost, margin as their difference, and the gross margin as margin over revenue when revenue is positive, else 0 |
| ComputeEngine.GrossMargin | streamlit_app.py:115 | for positive revenue the gross margin times revenue is the margin; otherwise it is exactly 0 |
| ComputeEngine.ComputeMonth | streamlit_app.py:93-122 | the two accumulating loops produce `MonthSummary` of the record: margin is revenue minus total cost, and gross margin is guarded as above |
| ComputeEngine.ZeroHeadcountProduction | streamlit_app.py:102-108 | production rows that all have headcount 0 add no cost and no revenue |
| ComputeEngine.ZeroHeadcountOverhead | streamlit_app.py:110-111 | overhead rows that all have headcount 0 add no cost |
| ComputeEngine.ProductionRowReplaced | streamlit_app.py:102-108 | replacing one production row changes production cost and revenue by exactly the new row's minus the old row's contribution; every row contributes independently |
| ComputeEngine.OverheadRowReplaced | streamlit_app.py:110-111 | replacing one overhead row changes overhead cost by exactly the new row's minus the old row's cost |
| ComputeEngine.ProductionCostNonNegative | streamlit_app.py:102-108 | with sane drivers and non-negative headcounts and salaries, production cost is non-negative |
| ComputeEngine.OverheadCostNonNegative | streamlit_app.py:110-111 | with sane drivers and non-negative headcounts and salaries, overhead cost is non-negative |
| ComputeEngine.ZeroHeadcountSummary | streamlit_app.py:100-115 | every headcount at 0 gives revenue, total cost, margin and gross margin all 0 |
| ComputeEngine.RevenueIgnoresOverhead | streamlit_app.py:110-111 | two records that differ only in their overhead rows have the same revenue |
| ComputeEngine.OverheadHeadcountEffect | streamlit_app.py:110-113 | k more heads in an overhead row leave revenue unchanged and raise total cost by k times that row's loaded cost |
| ComputeEngine.ProductionHeadcountEffect | streamlit_app.py:102-113 | k more heads in a production row raise revenue by k·hours·unit price·FX and total cost by k times that row's loaded cost |
| ComputeEngine.GrossMarginBounds | streamlit_app.py:113-115 | with sane drivers, non-negative rows and positive revenue, gross margin is at most 1 and negative exactly when margin is |
| MonthStore.FreshRecord | streamlit_app.py:49-53 | a new month has no input overrides, one row per language and per role in the fixed order, and every number at 0 |
| MonthStore.FreshMonthIsZero | streamlit_app.py:49-53 | a month as first created shows revenue, cost, margin and gross margin all 0 |
| MonthStore.ExampleMonthRevenue | streamlit_app.py:93-108 | a fresh month with the DE row set to 10 heads at salary 30000 and unit price 5 earns 290700 with the starting drivers (FX 38, 180 hours, shrinkage 0.15) |
| MonthStore.ExampleMonthCost | streamlit_app.py:93-113 | the same month costs 619500 (ten heads at 61950; every other row has no heads) |
| MonthStore.SingleRowExample | streamlit_app.py:93-122 | the same month's summary: revenue 290700, cost 619500, margin −328800, gross margin −328800/290700 |
| MonthStore.SessionStore.constructor | streamlit_app.py:45 | a new session holds no month data yet |
| MonthStore.SessionStore.EnsureStorage | streamlit_app.py:44-53 | afterwards the store exists with a well-shaped record for every month; an existing store is left unchanged (so a second call changes nothing), a new one holds the fresh record for all twelve months |
| MonthStore.SessionStore.GetMonthData | streamlit_app.py:55-57 | returns the stored record of the month, after creating the store if it did not exist |
| MonthStore.SessionStore.ComputeFromMonthStore | streamlit_app.py:93-94 | returns `MonthSummary` of the month's stored record, creating the store first if needed |
| Comparison.DefaultComparisonMonth | streamlit_app.py:144-145 | the previous calendar month, or January when January is selected |
| Comparison.MonthOverMonth | streamlit_app.py:155-158 | the comparison month's figures plus the deltas give the current month's; the gross-margin delta is in percentage points |
| Comparison.RevenueChangePercent | streamlit_app.py:162 | for non-zero comparison revenue the percentage times that revenue is 100 times the delta; for zero revenue it is 0 |
| Comparison.MarginBridge | streamlit_app.py:167-171 | three lines: revenue change, cost change with its sign flipped, net margin change |
| Comparison.SelfComparisonIsZero | streamlit_app.py:153-162 | comparing a month with itself gives zero revenue, cost, margin and gross-margin deltas and a 0% revenue change |
| Comparison.SwappedComparisonNegates | streamlit_app.py:155-158 | swapping the two months negates every delta |
| Comparison.BridgeBalances | streamlit_app.py:167-171 | the revenue line plus the cost line of the bridge equals the net margin line |
| Comparison.AnalyseMonthOverMonth | streamlit_app.py:130-171 | creates the store if needed (every month then holds the fresh record; an existing store is left unchanged), computes both months from it, each with its own resolved inputs, and returns the deltas, the revenue change in percent and a balanced bridge |
| Comparison.FirstAnalysisOfSession | streamlit_app.py:80-171 | the first analysis of a new session, whichever two months it compares, shows all deltas and the revenue change as 0 |

## Left out

- Streamlit page configuration, CSS, sidebar and select-box widgets, metrics and charts (lines 5-30, 62-84, 127-186): the values they supply are parameters (`Drivers`, the selected and comparison months).
- The `selected_month` session entry (lines 81-84): the selected month is a parameter.
- pandas data frames and `st.dataframe`/`st.bar_chart`: only the bridge numbers are modelled.
- `fmt0` and the f-string formatting of metrics: presentation of floats.
- The unused currency selection (line 74).
- `st.session_state` as a per-session mechanism: the store is one plain object.
- IEEE-754 rounding: all quantities are `real`.
- CostModel.AgentCostMonotoneInSalary: stated for non-negative salaries only. Every driver set the sidebar can supply is sane (`SidebarRangeIsSane`). No widget in this file writes a salary, so each one keeps the fresh record's 0.
- CostModel.AgentCostMonotoneInDrivers: stated for a non-negative salary only, for the same reason; the sidebar's minimums already make the bonus settings and multiplier non-negative.
- ComputeEngine.ProductionCostNonNegative: stated for non-negative headcounts and salaries only; no widget in this file writes a row, so every row keeps the fresh record's zeros.
- ComputeEngine.OverheadCostNonNegative: stated for non-negative headcounts and salaries only, for the same reason.
- ComputeEngine.GrossMarginBounds: stated for non-negative headcounts and salaries only, for the same reason.
- Spreadsheet import/export, absenteeism, attrition, overtime, billing models and multi-solution rows: none of them is in this file.
