/**
 * The dashboard's "financial health" score: three clamped percentages weighted
 * 0.5, 0.3 and 0.2, and 0 for a month without income. Also the progress shown
 * for a savings goal.
 */
module Health {
  import opened Wrappers
  import opened Records

  /** Python's `min(a, b)`: `a` unless `b` is smaller. */
  function Min(a: real, b: real): (r: real)
    ensures r <= a && r <= b && (r == a || r == b)
  {
    if b < a then b else a
  }

  /** Python's `max(a, b)`: `a` unless `b` is larger. */
  function Max(a: real, b: real): (r: real)
    ensures r >= a && r >= b && (r == a || r == b)
  {
    if b > a then b else a
  }

  /** `max(0, min((balance / income) * 100, 100))`: how much of the income was kept. */
  function SpendEfficiency(balance: real, income: real): (r: real)
    requires income > 0.0
    ensures 0.0 <= r <= 100.0
    ensures r == 100.0 <==> balance >= income
    ensures r == 0.0 <==> balance <= 0.0
    ensures 0.0 < r < 100.0 ==> r * income == balance * 100.0
  {
    var x := (balance / income) * 100.0;
    assert x * income == balance * 100.0;
    assert x >= 100.0 <==> balance >= income by {
      if x >= 100.0 { assert x * income >= 100.0 * income; }
      if balance >= income { assert balance / income >= 1.0; }
    }
    assert x <= 0.0 <==> balance <= 0.0 by {
      if x <= 0.0 { assert x * income <= 0.0; }
      if balance <= 0.0 { assert balance / income <= 0.0; }
    }
    Max(0.0, Min(x, 100.0))
  }

  /**
   * `(spent / total * 100) if total > 0 else 100.0`: how much of the budgeted
   * amount the month's capped spending reaches.
   */
  function BudgetEfficiency(spent: real, total: real): (r: real)
    ensures total <= 0.0 ==> r == 100.0
    ensures total > 0.0 ==> r * total == spent * 100.0
  {
    if total > 0.0 then spent / total * 100.0 else 100.0
  }

  /** Capped spending within a positive budget gives a percentage between 0 and 100. */
  lemma BudgetEfficiencyBounds(spent: real, total: real)
    requires 0.0 <= spent <= total
    ensures 0.0 <= BudgetEfficiency(spent, total) <= 100.0
  {
    if total > 0.0 {
      var r := BudgetEfficiency(spent, total);
      assert r * total <= 100.0 * total;
    }
  }

  /** `min((savings / income) * 100, 100)`: capped above, not below. */
  function SavingRatio(savings: real, income: real): (r: real)
    requires income > 0.0
    ensures r <= 100.0
    ensures r == 100.0 <==> savings >= income
    ensures r < 100.0 ==> r * income == savings * 100.0
    ensures savings < 0.0 ==> r < 0.0
  {
    var x := (savings / income) * 100.0;
    assert x * income == savings * 100.0;
    assert x >= 100.0 <==> savings >= income by {
      if x >= 100.0 { assert x * income >= 100.0 * income; }
      if savings >= income { assert savings / income >= 1.0; }
    }
    assert savings < 0.0 ==> x < 0.0;
    Min(x, 100.0)
  }

  /** The score: 0 without income, else the weighted sum of the three parts. */
  function HealthScore(income: real, balance: real, spent: real, totalBudget: real, savings: real): (h: real)
    ensures income <= 0.0 ==> h == 0.0
  {
    if income > 0.0 then
      SpendEfficiency(balance, income) * 0.5 + BudgetEfficiency(spent, totalBudget) * 0.3 + SavingRatio(savings, income) * 0.2
    else 0.0
  }

  /**
   * The score never exceeds 100 when the capped spending stays within the
   * budget total, and it is not negative when spending and savings are not
   * negative (the saving ratio has no lower clamp, so negative savings can
   * pull it below 0).
   */
  lemma HealthBounds(income: real, balance: real, spent: real, totalBudget: real, savings: real)
    requires spent <= totalBudget || totalBudget <= 0.0
    ensures HealthScore(income, balance, spent, totalBudget, savings) <= 100.0
    ensures 0.0 <= spent && 0.0 <= savings ==> 0.0 <= HealthScore(income, balance, spent, totalBudget, savings)
  {
    if income > 0.0 {
      var b := BudgetEfficiency(spent, totalBudget);
      if totalBudget > 0.0 {
        assert b * totalBudget <= 100.0 * totalBudget;
        if 0.0 <= spent { assert b >= 0.0; }
      }
      if 0.0 <= savings {
        assert SavingRatio(savings, income) >= 0.0 by {
          assert SavingRatio(savings, income) == 100.0 || SavingRatio(savings, income) * income == savings * 100.0;
        }
      }
    }
  }

  /**
   * The full score of 100 is reached exactly by a month that keeps all its
   * income, reaches its budget total (or has none) and has savings of at least
   * one month's income.
   */
  lemma FullHealth(income: real, balance: real, spent: real, totalBudget: real, savings: real)
    requires income > 0.0 && (totalBudget <= 0.0 || spent == totalBudget)
    requires balance >= income && savings >= income
    ensures HealthScore(income, balance, spent, totalBudget, savings) == 100.0
  {
    if totalBudget > 0.0 {
      var b := BudgetEfficiency(spent, totalBudget);
      assert b * totalBudget == 100.0 * totalBudget;
    }
  }

  /** The worked example: income 1000, spending 300, 250 of a 250 budget used, savings 100. */
  lemma HealthExample()
    ensures HealthScore(1000.0, 700.0, 250.0, 250.0, 100.0) == 67.0
  {
    assert SpendEfficiency(700.0, 1000.0) == 70.0;
    assert BudgetEfficiency(250.0, 250.0) == 100.0;
    assert SavingRatio(100.0, 1000.0) == 10.0;
  }

  /** `(current / target * 100) if target > 0 else 0`, with no cap at 100. */
  function GoalPercent(g: Goal): (r: real)
    ensures g.target > 0.0 ==> r * g.target == g.current * 100.0
    ensures g.target <= 0.0 ==> r == 0.0
  {
    if g.target > 0.0 then g.current / g.target * 100.0 else 0.0
  }

  /** A goal with a positive target shows 100% or more exactly when it is reached. */
  lemma GoalReached(g: Goal)
    requires g.target > 0.0
    ensures GoalPercent(g) >= 100.0 <==> g.current >= g.target
    ensures g.current >= 0.0 ==> GoalPercent(g) >= 0.0
  {
    var r := GoalPercent(g);
    if r >= 100.0 { assert r * g.target >= 100.0 * g.target; }
    if g.current >= g.target { assert g.current / g.target >= 1.0; }
    if g.current >= 0.0 { assert g.current / g.target >= 0.0; }
  }

  /** An overshooting goal is shown above 100%. */
  lemma GoalPercentExample()
    ensures GoalPercent(Goal(1, 1, "car", 100.0, 150.0, None)) == 150.0
  {
  }
}
