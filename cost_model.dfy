/** Fully loaded monthly cost of one head. */
module CostModel {
  import opened BudgetTypes

  /** Cost of one agent with base salary `salary`: salary plus bonus, scaled by the
      salary multiplier, plus the flat meal card. */
  function AgentCost(g: Drivers, salary: real): real
  {
    var bonus := salary * g.bonusPct * g.bonusMultiplier;
    (salary + bonus) * g.salaryMultiplier + g.mealCard
  }

  /** The loaded cost is affine in the salary: the meal card plus the salary
      scaled by the combined factor `salaryMultiplier * (1 + bonusPct * bonusMultiplier)`. */
  lemma AgentCostIsAffine(g: Drivers, salary: real)
    ensures AgentCost(g, salary) - g.mealCard
         == salary * (g.salaryMultiplier * (1.0 + g.bonusPct * g.bonusMultiplier))
  {
    var b := g.bonusPct * g.bonusMultiplier;
    assert salary * g.bonusPct * g.bonusMultiplier == salary * b;
    assert (salary + salary * b) * g.salaryMultiplier == salary * (g.salaryMultiplier * (1.0 + b));
  }

  /** Drivers as the business defines them: a positive multiplier and
      non-negative bonus settings and meal card. */
  predicate SaneDrivers(g: Drivers)
  {
    g.salaryMultiplier > 0.0 && g.bonusPct >= 0.0 && g.bonusMultiplier >= 0.0 && g.mealCard >= 0.0
  }

  /** Every set of drivers the sidebar can supply is sane. */
  lemma SidebarRangeIsSane(g: Drivers)
    requires SidebarRange(g)
    ensures SaneDrivers(g)
  {
  }

  lemma ScaleMonotone(a: real, b: real, c: real)
    requires a <= b && c >= 0.0
    ensures a * c <= b * c && c * a <= c * b
  {
  }

  /** With the sidebar's starting drivers, a base salary of 30000 costs 61950. */
  lemma SidebarDefaultsExample()
    ensures AgentCost(SidebarDefaults, 30000.0) == 61950.0
  {
  }

  /** A head with no salary still costs exactly the meal card. */
  lemma ZeroSalaryCostsMealCard(g: Drivers)
    ensures AgentCost(g, 0.0) == g.mealCard
  {
  }

  /** For sane drivers a non-negative salary never costs less than the meal card,
      and a higher salary never costs less. */
  lemma AgentCostMonotoneInSalary(g: Drivers, s1: real, s2: real)
    requires SaneDrivers(g) && 0.0 <= s1 <= s2
    ensures g.mealCard <= AgentCost(g, s1) <= AgentCost(g, s2)
  {
    var k := g.salaryMultiplier * (1.0 + g.bonusPct * g.bonusMultiplier);
    assert g.bonusPct * g.bonusMultiplier >= 0.0;
    assert k > 0.0;
    assert s1 * k <= s2 * k;
    AgentCostIsAffine(g, s1);
    AgentCostIsAffine(g, s2);
  }

  /** For a non-negative salary the cost never decreases when any one of the four
      drivers it reads is raised (the others kept, the bonus settings non-negative). */
  lemma AgentCostMonotoneInDrivers(g: Drivers, h: Drivers, salary: real)
    requires salary >= 0.0
    requires g.salaryMultiplier >= 0.0 && g.bonusPct >= 0.0 && g.bonusMultiplier >= 0.0
    requires g.salaryMultiplier <= h.salaryMultiplier && g.bonusPct <= h.bonusPct
    requires g.bonusMultiplier <= h.bonusMultiplier && g.mealCard <= h.mealCard
    ensures AgentCost(g, salary) <= AgentCost(h, salary)
  {
    var bg := g.bonusPct * g.bonusMultiplier;
    var bh := h.bonusPct * h.bonusMultiplier;
    ScaleMonotone(0.0, g.bonusPct, g.bonusMultiplier);
    assert 0.0 <= bg;
    ScaleMonotone(g.bonusPct, h.bonusPct, g.bonusMultiplier);
    assert bg <= h.bonusPct * g.bonusMultiplier;
    ScaleMonotone(g.bonusMultiplier, h.bonusMultiplier, h.bonusPct);
    assert h.bonusPct * g.bonusMultiplier <= bh;
    var kg := g.salaryMultiplier * (1.0 + bg);
    var kh := h.salaryMultiplier * (1.0 + bh);
    ScaleMonotone(g.salaryMultiplier, h.salaryMultiplier, 1.0 + bg);
    assert kg <= h.salaryMultiplier * (1.0 + bg);
    ScaleMonotone(1.0 + bg, 1.0 + bh, h.salaryMultiplier);
    assert h.salaryMultiplier * (1.0 + bg) <= kh;
    ScaleMonotone(kg, kh, salary);
    assert salary * kg <= salary * kh;
    AgentCostIsAffine(g, salary);
    AgentCostIsAffine(h, salary);
    assert AgentCost(g, salary) == g.mealCard + salary * kg;
    assert AgentCost(h, salary) == h.mealCard + salary * kh;
  }
}
