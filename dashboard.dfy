/**
 * The dashboard page: for one user and one month, the income, expenses and
 * balance, expenses per category in first-seen order, the signed net amount per
 * day sorted by date, goal savings, the budget map and the health score. Also
 * the two smaller reports: what was spent per category this month on the budget
 * page, and each goal's progress on the savings page.
 */
module Dashboard {
  import opened Wrappers
  import opened Records
  import opened Dict
  import opened Period
  import opened Aggregation
  import opened Health

  /** `t.category or "Інше"`. */
  function CategoryOrOther(t: Transaction): string {
    if t.category == "" then OtherCategory else t.category
  }

  /** `t.category` as it is, for the budget page. */
  function Category(t: Transaction): string {
    t.category
  }

  function DateOf(t: Transaction): string {
    t.date
  }

  /** `sign * t.amount` with `sign = 1 if t.type == "income" else -1`. */
  function Signed(t: Transaction): real {
    if t.kind == Income then t.amount else -t.amount
  }

  /** The user's transactions dated in the selected month, in table order. */
  function MonthTransactions(ts: seq<Transaction>, uid: int, sel: Selection): seq<Transaction> {
    DatedIn(OwnedBy(ts, uid), MonthPrefix(sel.year, sel.month))
  }

  /** `exp_by_cat`. */
  function ExpenseByCategory(monthTr: seq<Transaction>): Dict {
    Tally(OfKind(monthTr, Expense), CategoryOrOther, Amount)
  }

  /** `daily`. */
  function DailyNet(monthTr: seq<Transaction>): Dict {
    Tally(monthTr, DateOf, Signed)
  }

  /** `[daily[d] for d in labels]`, left unrounded. */
  function ValuesAt(d: Dict, labels: seq<string>): (vs: seq<real>)
    ensures |vs| == |labels|
    ensures forall i :: 0 <= i < |labels| ==> vs[i] == Get(d, labels[i], 0.0)
  {
    seq(|labels|, i requires 0 <= i < |labels| => Get(d, labels[i], 0.0))
  }

  /** `sum(vs)`. */
  function SumReals(vs: seq<real>): real {
    if vs == [] then 0.0 else vs[0] + SumReals(vs[1..])
  }

  /** `sum(min(exp_by_cat.get(cat, 0.0), b_amt) for cat, b_amt in budget_map.items())`. */
  function SpentVsBudget(budgetMap: Dict, expByCat: Dict): real {
    if budgetMap == [] then 0.0
    else Min(Get(expByCat, budgetMap[0].key, 0.0), budgetMap[0].value) + SpentVsBudget(budgetMap[1..], expByCat)
  }

  /** What the dashboard template receives, without the display-only month names and year list. */
  datatype DashboardView = DashboardView(
    month: int,
    year: int,
    income: real,
    expenses: real,
    balance: real,
    goalsSavings: real,
    health: real,
    expLabels: seq<string>,
    expValues: seq<real>,
    dailyLabels: seq<string>,
    dailyValues: seq<real>)

  /** The values handed to the template, from the month's totals and dictionaries. */
  function Assemble(sel: Selection, income: real, expenses: real, savings: real, health: real, exp: Dict, daily: Dict): DashboardView {
    var labels := SortStrings(Keys(daily));
    DashboardView(sel.month, sel.year, income, expenses, income - expenses, savings, health,
      Keys(exp), Values(exp), labels, ValuesAt(daily, labels))
  }

  /** The dashboard for one user and an already selected month. */
  function Report(ts: seq<Transaction>, bs: seq<Budget>, gs: seq<Goal>, uid: int, sel: Selection): DashboardView {
    var monthTr := MonthTransactions(ts, uid, sel);
    var income := SumOf(OfKind(monthTr, Income), Amount);
    var expenses := SumOf(OfKind(monthTr, Expense), Amount);
    var exp := ExpenseByCategory(monthTr);
    var savings := GoalsSavings(GoalsOf(gs, uid));
    var budgetMap := BudgetMap(BudgetsOf(bs, uid));
    var health := HealthScore(income, income - expenses, SpentVsBudget(budgetMap, exp), Total(budgetMap), savings);
    Assemble(sel, income, expenses, savings, health, exp, DailyNet(monthTr))
  }

  /** The `/dashboard` page for the query arguments `month` and `year`. */
  function DashboardPage(ts: seq<Transaction>, bs: seq<Budget>, gs: seq<Goal>, uid: int,
                         monthArg: Option<string>, yearArg: Option<string>, today: Date): DashboardView {
    Report(ts, bs, gs, uid, SelectPeriod(monthArg, yearArg, today))
  }

  // ---------------------------------------------------------------------------
  // The loops

  /** The `exp_by_cat` loop. */
  method TallyExpenses(monthTr: seq<Transaction>) returns (d: Dict)
    ensures d == ExpenseByCategory(monthTr)
  {
    d := [];
    var i := 0;
    while i < |monthTr|
      invariant 0 <= i <= |monthTr|
      invariant d == Tally(OfKind(monthTr[..i], Expense), CategoryOrOther, Amount)
    {
      var t := monthTr[i];
      assert monthTr[..i + 1][..i] == monthTr[..i];
      if t.kind == Expense {
        var c := if t.category != "" then t.category else OtherCategory;
        d := Put(d, c, Get(d, c, 0.0) + t.amount);
      }
      i := i + 1;
    }
    assert monthTr[..|monthTr|] == monthTr;
  }

  /** The `daily` loop. */
  method TallyDaily(monthTr: seq<Transaction>) returns (d: Dict)
    ensures d == DailyNet(monthTr)
  {
    d := [];
    var i := 0;
    while i < |monthTr|
      invariant 0 <= i <= |monthTr|
      invariant d == Tally(monthTr[..i], DateOf, Signed)
    {
      var t := monthTr[i];
      assert monthTr[..i + 1][..i] == monthTr[..i];
      var amount := if t.kind == Income then t.amount else -t.amount;
      d := Put(d, t.date, Get(d, t.date, 0.0) + amount);
      i := i + 1;
    }
    assert monthTr[..|monthTr|] == monthTr;
  }

  /** The `spent_vs_budget` loop. */
  method CapSpending(budgetMap: Dict, expByCat: Dict) returns (spent: real)
    ensures spent == SpentVsBudget(budgetMap, expByCat)
  {
    spent := 0.0;
    var i := 0;
    while i < |budgetMap|
      invariant 0 <= i <= |budgetMap|
      invariant spent + SpentVsBudget(budgetMap[i..], expByCat) == SpentVsBudget(budgetMap, expByCat)
    {
      assert budgetMap[i..][1..] == budgetMap[i + 1..];
      spent := spent + Min(Get(expByCat, budgetMap[i].key, 0.0), budgetMap[i].value);
      i := i + 1;
    }
  }

  /** The dashboard handler, from the query arguments to the values it renders. */
  method ComputeDashboard(ts: seq<Transaction>, bs: seq<Budget>, gs: seq<Goal>, uid: int,
                          monthArg: Option<string>, yearArg: Option<string>, today: Date)
    returns (v: DashboardView)
    ensures v == DashboardPage(ts, bs, gs, uid, monthArg, yearArg, today)
  {
    var sel := SelectPeriod(monthArg, yearArg, today);
    v := ComputeReport(ts, bs, gs, uid, sel);
  }

  /** The dashboard's computation for a selected month. */
  method ComputeReport(ts: seq<Transaction>, bs: seq<Budget>, gs: seq<Goal>, uid: int, sel: Selection)
    returns (v: DashboardView)
    ensures v == Report(ts, bs, gs, uid, sel)
  {
    var monthTr := MonthTransactions(ts, uid, sel);
    var income := SumOf(OfKind(monthTr, Income), Amount);
    var expenses := SumOf(OfKind(monthTr, Expense), Amount);
    var exp := TallyExpenses(monthTr);
    var daily := TallyDaily(monthTr);
    var savings := GoalsSavings(GoalsOf(gs, uid));
    var budgetMap := BudgetMap(BudgetsOf(bs, uid));
    var health := ComputeHealth(income, income - expenses, budgetMap, exp, savings);
    v := Assemble(sel, income, expenses, savings, health, exp, daily);
  }

  /** The health block of the dashboard; the budget loop runs only for a month with income. */
  method ComputeHealth(income: real, balance: real, budgetMap: Dict, exp: Dict, savings: real) returns (health: real)
    ensures health == HealthScore(income, balance, SpentVsBudget(budgetMap, exp), Total(budgetMap), savings)
  {
    if income > 0.0 {
      var spent := CapSpending(budgetMap, exp);
      health := SpendEfficiency(balance, income) * 0.5 + BudgetEfficiency(spent, Total(budgetMap)) * 0.3
        + SavingRatio(savings, income) * 0.2;
    } else {
      health := 0.0;
    }
  }

  /** What the budget page shows: the limit per category and this month's spending per category. */
  datatype BudgetPageView = BudgetPageView(limits: Dict, spending: Dict)

  /** `spending` on the budget page: the raw category, no default for a blank one. */
  function Spending(ts: seq<Transaction>, uid: int, today: Date): Dict {
    Tally(DatedIn(OfKind(OwnedBy(ts, uid), Expense), TodayPrefix(today)), Category, Amount)
  }

  /** The budget page handler with its `spending` loop over the user's expenses. */
  method BudgetPage(ts: seq<Transaction>, bs: seq<Budget>, uid: int, today: Date) returns (v: BudgetPageView)
    ensures v == BudgetPageView(BudgetMap(BudgetsOf(bs, uid)), Spending(ts, uid, today))
  {
    var prefix := TodayPrefix(today);
    var expenses := OfKind(OwnedBy(ts, uid), Expense);
    var spending: Dict := [];
    var i := 0;
    while i < |expenses|
      invariant 0 <= i <= |expenses|
      invariant spending == Tally(DatedIn(expenses[..i], prefix), Category, Amount)
    {
      var t := expenses[i];
      assert expenses[..i + 1][..i] == expenses[..i];
      if StartsWith(t.date, prefix) {
        spending := Put(spending, t.category, Get(spending, t.category, 0.0) + t.amount);
      }
      i := i + 1;
    }
    assert expenses[..|expenses|] == expenses;
    v := BudgetPageView(BudgetMap(BudgetsOf(bs, uid)), spending);
  }

  /** One row of the savings page: `(g.id, g, percent)`. */
  datatype Progress = Progress(id: int, goal: Goal, percent: real)

  /** The savings page loop, one progress row per goal of the user, in table order. */
  method SavingsPage(gs: seq<Goal>, uid: int) returns (processed: seq<Progress>)
    ensures |processed| == |GoalsOf(gs, uid)|
    ensures forall i :: 0 <= i < |processed| ==>
      var g := GoalsOf(gs, uid)[i]; processed[i] == Progress(g.id, g, GoalPercent(g))
  {
    var goals := GoalsOf(gs, uid);
    processed := [];
    var i := 0;
    while i < |goals|
      invariant 0 <= i <= |goals|
      invariant |processed| == i
      invariant forall j :: 0 <= j < i ==> processed[j] == Progress(goals[j].id, goals[j], GoalPercent(goals[j]))
    {
      var g := goals[i];
      var percent := if g.target > 0.0 then g.current / g.target * 100.0 else 0.0;
      processed := processed + [Progress(g.id, g, percent)];
      i := i + 1;
    }
  }
}
