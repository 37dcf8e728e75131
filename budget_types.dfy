/** Entities of the budget calculator: the twelve months, the fixed language
    and role slots, the per-month record and the global cost drivers. */
module BudgetTypes {

  /** An optional numeric input; `None` is the "not set" state of a month input. */
  datatype Option<T> = None | Some(value: T)

  /** The fixed set of calendar months; no other month key exists. */
  datatype Month = Jan | Feb | Mar | Apr | May | Jun | Jul | Aug | Sep | Oct | Nov | Dec

  /** The months in calendar order, as the application lists them. */
  const Months: seq<Month> := [Jan, Feb, Mar, Apr, May, Jun, Jul, Aug, Sep, Oct, Nov, Dec]

  /** The production languages, one production row each. */
  const Languages: seq<string> := ["DE", "EN", "TR", "FR", "IT", "NL"]

  /** The overhead roles, one overhead row each. */
  const Roles: seq<string> := ["Team Manager", "QA", "Ops", "Trainer", "RTA/WFM"]

  /** Position of a month in `Months` (0 for Jan, 11 for Dec). */
  function MonthIndex(m: Month): (i: nat)
    ensures i < |Months| && Months[i] == m
  {
    match m
    case Jan => 0  case Feb => 1  case Mar => 2  case Apr => 3
    case May => 4  case Jun => 5  case Jul => 6  case Aug => 7
    case Sep => 8  case Oct => 9  case Nov => 10 case Dec => 11
  }

  /** Per-month overrides of the global FX rate, worked hours and shrinkage. */
  datatype MonthInputs = MonthInputs(fx: Option<real>, workedHours: Option<real>, shrinkage: Option<real>)

  /** A billable production slot: headcount, base salary and unit price (foreign currency). */
  datatype ProductionRow = ProductionRow(lang: string, hc: real, salary: real, up: real)

  /** A non-billable overhead slot: headcount and base salary. */
  datatype OverheadRow = OverheadRow(role: string, hc: real, salary: real)

  /** Everything stored for one month. */
  datatype MonthRecord = MonthRecord(inputs: MonthInputs, prod: seq<ProductionRow>, oh: seq<OverheadRow>)

  /** The global drivers the sidebar supplies, passed explicitly instead of read
      from module-level variables. */
  datatype Drivers = Drivers(
    whDefault: real,          // worked hours per agent per month
    shDefault: real,          // shrinkage fraction
    salaryMultiplier: real,
    bonusPct: real,
    bonusMultiplier: real,
    mealCard: real,           // flat amount per head, local currency
    fxDefault: real           // local currency per unit of the price currency
  )

  /** The values the sidebar widgets start with. For the number inputs these are
      also their minimum values; shrinkage is a slider over [0, 0.5]. */
  const SidebarDefaults: Drivers := Drivers(180.0, 0.15, 1.70, 0.10, 1.00, 5850.0, 38.0)

  /** The drivers the sidebar can supply: each number input at or above its
      minimum, shrinkage within the slider's range. */
  predicate SidebarRange(g: Drivers)
  {
    && g.whDefault >= 180.0
    && 0.0 <= g.shDefault <= 0.5
    && g.salaryMultiplier >= 1.70
    && g.bonusPct >= 0.10
    && g.bonusMultiplier >= 1.00
    && g.mealCard >= 5850.0
    && g.fxDefault >= 38.0
  }
}
