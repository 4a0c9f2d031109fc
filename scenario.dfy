/**
 * One month of one user, followed through the whole dashboard: an income of
 * 1000, two food expenses of 200 and 100 against a food budget of 250, and a
 * goal holding 100.
 */
module Scenario {
  import opened Wrappers
  import opened Text
  import opened Records
  import opened Dict
  import opened Period
  import opened Aggregation
  import opened Health
  import opened Dashboard
  import opened DashboardProperties

  const Salary := Transaction(1, 1, Income, "salary", 1000.0, "Card", "2024-05-01", "")
  const Lunch := Transaction(2, 1, Expense, "food", 200.0, "Cash", "2024-05-02", "")
  const Dinner := Transaction(3, 1, Expense, "food", 100.0, "Cash", "2024-05-03", "")
  const Rows := [Salary, Lunch, Dinner]
  const Limits := [Budget(1, 1, "food", 250.0)]
  const Goals := [Goal(1, 1, "car", 1000.0, 100.0, None)]

  lemma MayPrefix()
    ensures MonthPrefix(2024, 5) == "2024-05"
  {
    assert NatToString(2024) == NatToString(202) + ['4'];
    assert NatToString(202) == NatToString(20) + ['2'];
    assert NatToString(20) == NatToString(2) + ['0'];
    assert IntToString(2024) == "2024";
    assert NatToString(5) == "5";
    assert ZeroPad(5, 2) == "05";
  }

  lemma RowsSplit()
    ensures [] + [Salary] == [Salary] && [Salary] + [Lunch] == [Salary, Lunch] && [Salary, Lunch] + [Dinner] == Rows
    ensures [] + [Lunch] == [Lunch] && [Lunch] + [Dinner] == [Lunch, Dinner]
  {
  }

  lemma MayRows()
    ensures MonthTransactions(Rows, 1, Selection(5, 2024)) == Rows
  {
    MayPrefix();
    RowsSplit();
    OwnedByAppend([], Salary, 1);
    OwnedByAppend([Salary], Lunch, 1);
    OwnedByAppend([Salary, Lunch], Dinner, 1);
    assert StartsWith(Salary.date, "2024-05") && StartsWith(Lunch.date, "2024-05") && StartsWith(Dinner.date, "2024-05");
    DatedInAppend([], Salary, "2024-05");
    DatedInAppend([Salary], Lunch, "2024-05");
    DatedInAppend([Salary, Lunch], Dinner, "2024-05");
  }

  lemma MayKinds()
    ensures OfKind(Rows, Income) == [Salary] && OfKind(Rows, Expense) == [Lunch, Dinner]
  {
    RowsSplit();
    OfKindAppend([], Salary, Income);
    OfKindAppend([Salary], Lunch, Income);
    OfKindAppend([Salary, Lunch], Dinner, Income);
    OfKindAppend([], Salary, Expense);
    OfKindAppend([Salary], Lunch, Expense);
    OfKindAppend([Salary, Lunch], Dinner, Expense);
  }

  lemma MaySums()
    ensures SumOf([Salary], Amount) == 1000.0 && SumOf([Lunch, Dinner], Amount) == 300.0
  {
    RowsSplit();
    SumOfAppend([], Salary, Amount);
    SumOfAppend([], Lunch, Amount);
    SumOfAppend([Lunch], Dinner, Amount);
  }

  lemma MayCategories()
    ensures ExpenseByCategory(Rows) == [Entry("food", 300.0)]
  {
    MayKinds();
    var es := [Lunch, Dinner];
    assert es[..1] == [Lunch] && [Lunch][..0] == [];
    assert Tally([Lunch], CategoryOrOther, Amount) == [Entry("food", 200.0)];
  }

  lemma MayLimits()
    ensures BudgetMap(BudgetsOf(Limits, 1)) == [Entry("food", 250.0)]
    ensures GoalsSavings(GoalsOf(Goals, 1)) == 100.0
  {
    assert Limits[..0] == [] && Goals[..0] == [];
  }

  /** The dashboard of the month: expenses 300, all under "food", and a health score of 67. */
  lemma MayDashboard()
    ensures var v := Report(Rows, Limits, Goals, 1, Selection(5, 2024));
      && v.income == 1000.0 && v.expenses == 300.0 && v.balance == 700.0
      && v.expLabels == ["food"] && v.expValues == [300.0]
      && v.health == 67.0
  {
    MayRows();
    MayKinds();
    MaySums();
    MayCategories();
    MayLimits();
    var exp := [Entry("food", 300.0)];
    assert Keys(exp) == ["food"] && Values(exp) == [300.0];
    assert SpentVsBudget([Entry("food", 250.0)], exp) == 250.0;
    assert Total([Entry("food", 250.0)]) == 250.0;
    HealthExample();
  }
}
