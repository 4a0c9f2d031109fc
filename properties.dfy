/**
 * What the dashboard and budget page promise, proved about their
 * specification functions: the totals are the sums over the month's rows, every
 * expense lands under exactly one category, the daily series is sorted and adds
 * up to the balance, and the health score stays within its range.
 */
module DashboardProperties {
  import opened Records
  import opened Dict
  import opened Period
  import opened Aggregation
  import opened Health
  import opened Dashboard

  /**
   * An independent, single-pass reading of a month total: every row of the
   * whole table counts its amount when it is the user's, dated in the period
   * and of the given type.
   */
  function PeriodSum(ts: seq<Transaction>, uid: int, prefix: string, kind: string): real {
    if ts == [] then 0.0
    else
      var t := ts[|ts| - 1];
      PeriodSum(ts[..|ts| - 1], uid, prefix, kind)
        + (if t.userId == uid && StartsWith(t.date, prefix) && t.kind == kind then t.amount else 0.0)
  }

  // ---------------------------------------------------------------------------
  // Filters and folds over an extended sequence

  lemma OwnedByAppend(xs: seq<Transaction>, t: Transaction, uid: int)
    ensures OwnedBy(xs + [t], uid) == if t.userId == uid then OwnedBy(xs, uid) + [t] else OwnedBy(xs, uid)
  {
    assert (xs + [t])[..|xs|] == xs;
  }

  lemma DatedInAppend(xs: seq<Transaction>, t: Transaction, prefix: string)
    ensures DatedIn(xs + [t], prefix) == if StartsWith(t.date, prefix) then DatedIn(xs, prefix) + [t] else DatedIn(xs, prefix)
  {
    assert (xs + [t])[..|xs|] == xs;
  }

  lemma OfKindAppend(xs: seq<Transaction>, t: Transaction, kind: string)
    ensures OfKind(xs + [t], kind) == if t.kind == kind then OfKind(xs, kind) + [t] else OfKind(xs, kind)
  {
    assert (xs + [t])[..|xs|] == xs;
  }

  lemma SumOfAppend(xs: seq<Transaction>, t: Transaction, val: Transaction -> real)
    ensures SumOf(xs + [t], val) == SumOf(xs, val) + val(t)
  {
    assert (xs + [t])[..|xs|] == xs;
  }

  /** Filtering by owner, period and type and then summing is the single-pass month total. */
  lemma {:induction false} FilteredSum(ts: seq<Transaction>, uid: int, prefix: string, kind: string)
    ensures SumOf(OfKind(DatedIn(OwnedBy(ts, uid), prefix), kind), Amount) == PeriodSum(ts, uid, prefix, kind)
  {
    if ts != [] {
      var p, t := ts[..|ts| - 1], ts[|ts| - 1];
      assert ts == p + [t];
      FilteredSum(p, uid, prefix, kind);
      OwnedByAppend(p, t, uid);
      if t.userId == uid {
        DatedInAppend(OwnedBy(p, uid), t, prefix);
        if StartsWith(t.date, prefix) {
          OfKindAppend(DatedIn(OwnedBy(p, uid), prefix), t, kind);
          if t.kind == kind {
            SumOfAppend(OfKind(DatedIn(OwnedBy(p, uid), prefix), kind), t, Amount);
          }
        }
      }
    }
  }

  /** The order of the period and the type filter does not matter. */
  lemma {:induction false} FiltersCommute(xs: seq<Transaction>, prefix: string, kind: string)
    ensures DatedIn(OfKind(xs, kind), prefix) == OfKind(DatedIn(xs, prefix), kind)
  {
    if xs != [] {
      var p, t := xs[..|xs| - 1], xs[|xs| - 1];
      assert xs == p + [t];
      FiltersCommute(p, prefix, kind);
      OfKindAppend(p, t, kind);
      DatedInAppend(p, t, prefix);
      if t.kind == kind {
        DatedInAppend(OfKind(p, kind), t, prefix);
      }
      if StartsWith(t.date, prefix) {
        OfKindAppend(DatedIn(p, prefix), t, kind);
      }
    }
  }

  lemma MonthMembers(ts: seq<Transaction>, uid: int, sel: Selection, t: Transaction)
    ensures t in MonthTransactions(ts, uid, sel) <==>
      t in ts && t.userId == uid && StartsWith(t.date, MonthPrefix(sel.year, sel.month))
  {
    DatedInMembers(OwnedBy(ts, uid), MonthPrefix(sel.year, sel.month), t);
    OwnedByMembers(ts, uid, t);
  }

  // ---------------------------------------------------------------------------
  // Income, expenses, balance

  /**
   * Income and expenses are the sums over the user's rows dated in the month,
   * split by type, and the balance is their difference.
   */
  lemma ReportTotals(ts: seq<Transaction>, bs: seq<Budget>, gs: seq<Goal>, uid: int, sel: Selection)
    ensures Report(ts, bs, gs, uid, sel).income == PeriodSum(ts, uid, MonthPrefix(sel.year, sel.month), Income)
    ensures Report(ts, bs, gs, uid, sel).expenses == PeriodSum(ts, uid, MonthPrefix(sel.year, sel.month), Expense)
    ensures Report(ts, bs, gs, uid, sel).balance == Report(ts, bs, gs, uid, sel).income - Report(ts, bs, gs, uid, sel).expenses
  {
    FilteredSum(ts, uid, MonthPrefix(sel.year, sel.month), Income);
    FilteredSum(ts, uid, MonthPrefix(sel.year, sel.month), Expense);
  }

  // ---------------------------------------------------------------------------
  // Expenses by category

  lemma {:induction false} SumValues(d: Dict)
    ensures SumReals(Values(d)) == Total(d)
  {
    if d != [] {
      SumValues(d[1..]);
      assert Values(d)[1..] == Values(d[1..]);
    }
  }

  /**
   * The expense chart: labels without repeats, in the order the categories
   * first occur among the month's expenses; each value is the total of that
   * category's expenses; and the values add up to the month's expenses.
   */
  lemma ExpenseChart(ts: seq<Transaction>, bs: seq<Budget>, gs: seq<Goal>, uid: int, sel: Selection)
    ensures var v := Report(ts, bs, gs, uid, sel);
      var es := OfKind(MonthTransactions(ts, uid, sel), Expense);
      && v.expLabels == FirstSeen(KeysSeen(es, CategoryOrOther))
      && (forall i, j :: 0 <= i < j < |v.expLabels| ==> v.expLabels[i] != v.expLabels[j])
      && |v.expValues| == |v.expLabels|
      && (forall i :: 0 <= i < |v.expValues| ==> v.expValues[i] == KeyTotal(es, CategoryOrOther, Amount, v.expLabels[i]))
      && SumReals(v.expValues) == v.expenses
  {
    var v := Report(ts, bs, gs, uid, sel);
    var es := OfKind(MonthTransactions(ts, uid, sel), Expense);
    var d := ExpenseByCategory(MonthTransactions(ts, uid, sel));
    TallyKeys(es, CategoryOrOther, Amount);
    TallyDistinct(es, CategoryOrOther, Amount);
    TallyTotal(es, CategoryOrOther, Amount);
    SumValues(d);
    forall i | 0 <= i < |d| ensures Values(d)[i] == KeyTotal(es, CategoryOrOther, Amount, Keys(d)[i]) {
      GetPresent(d, i, 0.0);
      TallyGet(es, CategoryOrOther, Amount, d[i].key);
    }
    forall i, j | 0 <= i < j < |d| ensures Keys(d)[i] != Keys(d)[j] {
    }
  }

  /**
   * A category is on the expense chart exactly when some expense of the user
   * in the month falls under it, a blank category being shown as "Інше"; so no
   * label is blank.
   */
  lemma ExpenseChartLabels(ts: seq<Transaction>, bs: seq<Budget>, gs: seq<Goal>, uid: int, sel: Selection, k: string)
    ensures k in Report(ts, bs, gs, uid, sel).expLabels <==>
      exists t :: t in ts && t.userId == uid && StartsWith(t.date, MonthPrefix(sel.year, sel.month))
        && t.kind == Expense && CategoryOrOther(t) == k
    ensures "" !in Report(ts, bs, gs, uid, sel).expLabels
  {
    var monthTr := MonthTransactions(ts, uid, sel);
    var es := OfKind(monthTr, Expense);
    var d := ExpenseByCategory(monthTr);
    TallyHasKey(es, CategoryOrOther, Amount, k);
    HasKeyInKeys(d, k);
    TallyHasKey(es, CategoryOrOther, Amount, "");
    HasKeyInKeys(d, "");
    forall t ensures t in es <==> t in ts && t.userId == uid && StartsWith(t.date, MonthPrefix(sel.year, sel.month)) && t.kind == Expense {
      OfKindMembers(monthTr, Expense, t);
      MonthMembers(ts, uid, sel, t);
    }
  }

  // ---------------------------------------------------------------------------
  // The daily series

  lemma {:induction false} SumRemove(vs: seq<real>, j: nat)
    requires j < |vs|
    ensures SumReals(vs) == vs[j] + SumReals(vs[..j] + vs[j + 1..])
  {
    if j == 0 {
      assert vs[..0] + vs[1..] == vs[1..];
    } else {
      SumRemove(vs[1..], j - 1);
      assert vs[..j] + vs[j + 1..] == [vs[0]] + (vs[1..][..j - 1] + vs[1..][j..]);
    }
  }

  /** Reading the values of a dictionary in any order of its keys gives the same sum. */
  lemma {:induction false} SumOverPermutedKeys(d: Dict, labels: seq<string>)
    requires DistinctKeys(d) && multiset(labels) == multiset(Keys(d))
    ensures SumReals(ValuesAt(d, labels)) == Total(d)
    decreases |d|
  {
    if d == [] {
      assert |labels| == |multiset(labels)| == 0;
    } else {
      assert Keys(d) == [d[0].key] + Keys(d[1..]);
      assert d[0].key in multiset(labels);
      var j :| 0 <= j < |labels| && labels[j] == d[0].key;
      var rest := labels[..j] + labels[j + 1..];
      assert multiset(rest) == multiset(Keys(d[1..])) by {
        RemoveAt(labels, j);
      }
      DistinctTail(d);
      SumOverPermutedKeys(d[1..], rest);
      SumStep(d, labels, j);
    }
  }

  lemma DistinctTail(d: Dict)
    requires DistinctKeys(d) && d != []
    ensures DistinctKeys(d[1..])
  {
    forall i, j | 0 <= i < j < |d| - 1 ensures d[1..][i].key != d[1..][j].key {
      assert d[1..][i] == d[i + 1] && d[1..][j] == d[j + 1];
    }
  }

  /** Taking the first entry's key out of the labels takes its value out of the sum. */
  lemma SumStep(d: Dict, labels: seq<string>, j: nat)
    requires DistinctKeys(d) && d != [] && j < |labels| && labels[j] == d[0].key
    requires multiset(labels[..j] + labels[j + 1..]) == multiset(Keys(d[1..]))
    ensures SumReals(ValuesAt(d, labels)) == d[0].value + SumReals(ValuesAt(d[1..], labels[..j] + labels[j + 1..]))
  {
    var rest := labels[..j] + labels[j + 1..];
    var vs := ValuesAt(d, labels);
    SumRemove(vs, j);
    HeadNotInTail(d);
    ValuesAtTail(d, rest);
    RemoveAtValues(d, labels, j);
  }

  lemma RemoveAt(s: seq<string>, j: nat)
    requires j < |s|
    ensures multiset(s[..j] + s[j + 1..]) == multiset(s) - multiset{s[j]}
  {
    assert s == s[..j] + [s[j]] + s[j + 1..];
  }

  lemma HeadNotInTail(d: Dict)
    requires DistinctKeys(d) && d != []
    ensures d[0].key !in multiset(Keys(d[1..]))
  {
  }

  /** Below the first entry, lookups of other keys read the rest of the dictionary. */
  lemma ValuesAtTail(d: Dict, rest: seq<string>)
    requires d != [] && d[0].key !in multiset(rest)
    ensures ValuesAt(d, rest) == ValuesAt(d[1..], rest)
  {
    forall i | 0 <= i < |rest| ensures rest[i] != d[0].key {
      assert rest[i] in multiset(rest);
    }
  }

  lemma RemoveAtValues(d: Dict, labels: seq<string>, j: nat)
    requires j < |labels|
    ensures ValuesAt(d, labels)[..j] + ValuesAt(d, labels)[j + 1..] == ValuesAt(d, labels[..j] + labels[j + 1..])
  {
  }

  lemma {:induction false} DistinctCount(ks: seq<string>, x: string)
    requires forall i, j :: 0 <= i < j < |ks| ==> ks[i] != ks[j]
    ensures multiset(ks)[x] <= 1
  {
    if ks != [] {
      DistinctCount(ks[1..], x);
      assert ks == [ks[0]] + ks[1..];
      if ks[0] == x {
        assert x !in ks[1..];
      }
    }
  }

  /** A rearrangement of a sequence without repeats has no repeats. */
  lemma PermutationDistinct(s: seq<string>, ks: seq<string>)
    requires multiset(s) == multiset(ks)
    requires forall i, j :: 0 <= i < j < |ks| ==> ks[i] != ks[j]
    ensures forall i, j :: 0 <= i < j < |s| ==> s[i] != s[j]
  {
    forall i, j | 0 <= i < j < |s| ensures s[i] != s[j] {
      if s[i] == s[j] {
        assert s == s[..i] + [s[i]] + s[i + 1..j] + [s[j]] + s[j + 1..];
        assert multiset(s)[s[i]] >= 2;
        DistinctCount(ks, s[i]);
      }
    }
  }

  /** With every row an income or an expense, the signed amounts add up to income minus expenses. */
  lemma {:induction false} SignedSum(ts: seq<Transaction>)
    requires forall t :: t in ts ==> t.kind == Income || t.kind == Expense
    ensures SumOf(ts, Signed) == SumOf(OfKind(ts, Income), Amount) - SumOf(OfKind(ts, Expense), Amount)
  {
    if ts != [] {
      var p, t := ts[..|ts| - 1], ts[|ts| - 1];
      assert ts == p + [t];
      SignedSum(p);
      OfKindAppend(p, t, Income);
      OfKindAppend(p, t, Expense);
      SumOfAppend(OfKind(p, Income), t, Amount);
      SumOfAppend(OfKind(p, Expense), t, Amount);
    }
  }

  lemma DailyKeys(monthTr: seq<Transaction>)
    ensures DistinctKeys(DailyNet(monthTr))
    ensures forall i, j :: 0 <= i < j < |Keys(DailyNet(monthTr))| ==> Keys(DailyNet(monthTr))[i] != Keys(DailyNet(monthTr))[j]
  {
    TallyDistinct(monthTr, DateOf, Signed);
  }

  /**
   * The daily chart: one label per date on which the user has a transaction
   * in the month, without repeats and in ascending order; each value is the
   * signed net amount of that date.
   */
  lemma DailyChart(ts: seq<Transaction>, bs: seq<Budget>, gs: seq<Goal>, uid: int, sel: Selection)
    ensures var v := Report(ts, bs, gs, uid, sel);
      && (forall i, j :: 0 <= i <= j < |v.dailyLabels| ==> LexLessEq(v.dailyLabels[i], v.dailyLabels[j]))
      && (forall i, j :: 0 <= i < j < |v.dailyLabels| ==> v.dailyLabels[i] != v.dailyLabels[j])
      && |v.dailyValues| == |v.dailyLabels|
      && (forall i :: 0 <= i < |v.dailyValues| ==>
            v.dailyValues[i] == KeyTotal(MonthTransactions(ts, uid, sel), DateOf, Signed, v.dailyLabels[i]))
  {
    var monthTr := MonthTransactions(ts, uid, sel);
    var d := DailyNet(monthTr);
    var labels := SortStrings(Keys(d));
    SortStringsSpec(Keys(d));
    DailyKeys(monthTr);
    PermutationDistinct(labels, Keys(d));
    forall i, j | 0 <= i <= j < |labels| ensures LexLessEq(labels[i], labels[j]) {
      SortedPairwise(labels, i, j);
    }
    forall i | 0 <= i < |labels| ensures Get(d, labels[i], 0.0) == KeyTotal(monthTr, DateOf, Signed, labels[i]) {
      TallyGet(monthTr, DateOf, Signed, labels[i]);
    }
  }

  /** A date is on the daily chart exactly when the user has a transaction of that date in the month. */
  lemma DailyChartLabels(ts: seq<Transaction>, bs: seq<Budget>, gs: seq<Goal>, uid: int, sel: Selection, x: string)
    ensures x in Report(ts, bs, gs, uid, sel).dailyLabels <==>
      exists t :: t in ts && t.userId == uid && StartsWith(t.date, MonthPrefix(sel.year, sel.month)) && t.date == x
  {
    var monthTr := MonthTransactions(ts, uid, sel);
    var d := DailyNet(monthTr);
    SortStringsSpec(Keys(d));
    assert x in SortStrings(Keys(d)) <==> x in multiset(Keys(d));
    TallyHasKey(monthTr, DateOf, Signed, x);
    HasKeyInKeys(d, x);
    forall t ensures t in monthTr <==> t in ts && t.userId == uid && StartsWith(t.date, MonthPrefix(sel.year, sel.month)) {
      MonthMembers(ts, uid, sel, t);
    }
  }

  /** When every transaction of the month is an income or an expense, the daily values add up to the balance. */
  lemma DailyChartBalance(ts: seq<Transaction>, bs: seq<Budget>, gs: seq<Goal>, uid: int, sel: Selection)
    requires forall t :: t in MonthTransactions(ts, uid, sel) ==> t.kind == Income || t.kind == Expense
    ensures SumReals(Report(ts, bs, gs, uid, sel).dailyValues) == Report(ts, bs, gs, uid, sel).balance
  {
    var monthTr := MonthTransactions(ts, uid, sel);
    var d := DailyNet(monthTr);
    SortStringsSpec(Keys(d));
    DailyKeys(monthTr);
    SumOverPermutedKeys(d, SortStrings(Keys(d)));
    TallyTotal(monthTr, DateOf, Signed);
    SignedSum(monthTr);
  }

  // ---------------------------------------------------------------------------
  // The health score

  /** `min(spent, limit)` per category can never add up to more than the limits. */
  lemma {:induction false} SpentWithinTotal(budgetMap: Dict, expByCat: Dict)
    ensures SpentVsBudget(budgetMap, expByCat) <= Total(budgetMap)
  {
    if budgetMap != [] {
      SpentWithinTotal(budgetMap[1..], expByCat);
    }
  }

  lemma {:induction false} SpentNonNegative(budgetMap: Dict, expByCat: Dict)
    requires forall i :: 0 <= i < |budgetMap| ==> budgetMap[i].value >= 0.0
    requires forall k :: Get(expByCat, k, 0.0) >= 0.0
    ensures SpentVsBudget(budgetMap, expByCat) >= 0.0
  {
    if budgetMap != [] {
      assert forall i :: 0 <= i < |budgetMap| - 1 ==> budgetMap[1..][i].value >= 0.0;
      SpentNonNegative(budgetMap[1..], expByCat);
      assert Get(expByCat, budgetMap[0].key, 0.0) >= 0.0;
    }
  }

  /**
   * The health score is 0 for a month without income; otherwise it is the
   * weighted sum 0.5, 0.3, 0.2 of the spend efficiency, the budget efficiency
   * and the saving ratio. It never exceeds 100.
   */
  lemma ReportHealth(ts: seq<Transaction>, bs: seq<Budget>, gs: seq<Goal>, uid: int, sel: Selection)
    ensures var v := Report(ts, bs, gs, uid, sel);
      var budgetMap := BudgetMap(BudgetsOf(bs, uid));
      var spent := SpentVsBudget(budgetMap, ExpenseByCategory(MonthTransactions(ts, uid, sel)));
      && (v.income <= 0.0 ==> v.health == 0.0)
      && (v.income > 0.0 ==>
            v.health == SpendEfficiency(v.balance, v.income) * 0.5
              + BudgetEfficiency(spent, Total(budgetMap)) * 0.3 + SavingRatio(v.goalsSavings, v.income) * 0.2)
      && v.health <= 100.0
  {
    var v := Report(ts, bs, gs, uid, sel);
    var budgetMap := BudgetMap(BudgetsOf(bs, uid));
    var spent := SpentVsBudget(budgetMap, ExpenseByCategory(MonthTransactions(ts, uid, sel)));
    SpentWithinTotal(budgetMap, ExpenseByCategory(MonthTransactions(ts, uid, sel)));
    HealthBounds(v.income, v.balance, spent, Total(budgetMap), v.goalsSavings);
  }

  /**
   * With no negative expense, budget limit or goal balance among the user's
   * rows, the health score is not negative.
   */
  lemma ReportHealthNonNegative(ts: seq<Transaction>, bs: seq<Budget>, gs: seq<Goal>, uid: int, sel: Selection)
    requires forall t :: t in ts && t.userId == uid && t.kind == Expense ==> t.amount >= 0.0
    requires forall b :: b in bs && b.userId == uid ==> b.amount >= 0.0
    requires forall g :: g in gs && g.userId == uid ==> g.current >= 0.0
    ensures Report(ts, bs, gs, uid, sel).health >= 0.0
  {
    var v := Report(ts, bs, gs, uid, sel);
    var monthTr := MonthTransactions(ts, uid, sel);
    var es := OfKind(monthTr, Expense);
    var exp := ExpenseByCategory(monthTr);
    var budgetMap := BudgetMap(BudgetsOf(bs, uid));
    forall t | t in es ensures t.amount >= 0.0 {
      OfKindMembers(monthTr, Expense, t);
      MonthMembers(ts, uid, sel, t);
    }
    forall k ensures Get(exp, k, 0.0) >= 0.0 {
      TallyGet(es, CategoryOrOther, Amount, k);
      KeyTotalNonNegative(es, CategoryOrOther, k);
    }
    forall b | b in BudgetsOf(bs, uid) ensures b.amount >= 0.0 {
      BudgetsOfMembers(bs, uid, b);
    }
    BudgetMapNonNegative(BudgetsOf(bs, uid));
    forall g | g in GoalsOf(gs, uid) ensures g.current >= 0.0 {
      GoalsOfMembers(gs, uid, g);
    }
    GoalsSavingsNonNegative(GoalsOf(gs, uid));
    SpentNonNegative(budgetMap, exp);
    SpentWithinTotal(budgetMap, exp);
    HealthBounds(v.income, v.balance, SpentVsBudget(budgetMap, exp), Total(budgetMap), v.goalsSavings);
  }

  // ---------------------------------------------------------------------------
  // The budget page

  /** This month's spending on the budget page adds up to the month's expenses. */
  lemma SpendingTotal(ts: seq<Transaction>, uid: int, today: Date)
    ensures Total(Spending(ts, uid, today)) == PeriodSum(ts, uid, TodayPrefix(today), Expense)
  {
    var prefix := TodayPrefix(today);
    TallyTotal(DatedIn(OfKind(OwnedBy(ts, uid), Expense), prefix), Category, Amount);
    FiltersCommute(OwnedBy(ts, uid), prefix, Expense);
    FilteredSum(ts, uid, prefix, Expense);
  }

  /**
   * For a four-digit year and a month whose expenses all have a category, the
   * budget page's spending is the dashboard's expenses by category for the
   * current month.
   */
  lemma SpendingMatchesDashboard(ts: seq<Transaction>, uid: int, today: Date)
    requires today.year >= 1000
    requires forall t :: t in ts && t.userId == uid && t.kind == Expense && StartsWith(t.date, TodayPrefix(today)) ==> t.category != ""
    ensures Spending(ts, uid, today) == ExpenseByCategory(MonthTransactions(ts, uid, Selection(today.month, today.year)))
  {
    var sel := Selection(today.month, today.year);
    PrefixesAgree(today);
    var prefix := TodayPrefix(today);
    FiltersCommute(OwnedBy(ts, uid), prefix, Expense);
    var es := OfKind(MonthTransactions(ts, uid, sel), Expense);
    forall t | t in es ensures Category(t) == CategoryOrOther(t) {
      OfKindMembers(MonthTransactions(ts, uid, sel), Expense, t);
      MonthMembers(ts, uid, sel, t);
    }
    TallyKeysAgree(es, Category, CategoryOrOther, Amount);
  }

  /**
   * A blank category is not defaulted on the budget page: an expense without a
   * category this month makes the empty text a key of the spending map, while
   * the dashboard shows it under "Інше".
   */
  lemma SpendingKeepsBlankCategory(ts: seq<Transaction>, uid: int, today: Date, t: Transaction)
    requires t in ts && t.userId == uid && t.kind == Expense && StartsWith(t.date, TodayPrefix(today)) && t.category == ""
    ensures HasKey(Spending(ts, uid, today), "")
  {
    var es := DatedIn(OfKind(OwnedBy(ts, uid), Expense), TodayPrefix(today));
    OwnedByMembers(ts, uid, t);
    OfKindMembers(OwnedBy(ts, uid), Expense, t);
    DatedInMembers(OfKind(OwnedBy(ts, uid), Expense), TodayPrefix(today), t);
    TallyHasKey(es, Category, Amount, "");
  }
}
