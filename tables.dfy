/**
 * The three tables as the handlers see them: lookups (what the queries
 * return), the row each handler writes, and the edits they make, as functions
 * on sequences of rows. The `Store` module applies them to its fields.
 */
module Tables {
  import opened Wrappers
  import opened Text
  import opened Records
  import opened Period
  import opened Aggregation

  // ---------------------------------------------------------------------------
  // Row ids

  predicate UniqueIds(ids: seq<int>) {
    forall i, j :: 0 <= i < j < |ids| ==> ids[i] != ids[j]
  }

  function TransactionIds(ts: seq<Transaction>): (ids: seq<int>)
    ensures |ids| == |ts| && forall i :: 0 <= i < |ts| ==> ids[i] == ts[i].id
  {
    seq(|ts|, i requires 0 <= i < |ts| => ts[i].id)
  }

  function BudgetIds(bs: seq<Budget>): (ids: seq<int>)
    ensures |ids| == |bs| && forall i :: 0 <= i < |bs| ==> ids[i] == bs[i].id
  {
    seq(|bs|, i requires 0 <= i < |bs| => bs[i].id)
  }

  function GoalIds(gs: seq<Goal>): (ids: seq<int>)
    ensures |ids| == |gs| && forall i :: 0 <= i < |gs| ==> ids[i] == gs[i].id
  {
    seq(|gs|, i requires 0 <= i < |gs| => gs[i].id)
  }

  /** The largest id in a non-empty table. */
  function MaxId(ids: seq<int>): (m: int)
    requires ids != []
    ensures m in ids && forall i :: 0 <= i < |ids| ==> ids[i] <= m
  {
    if |ids| == 1 then ids[0]
    else
      var m := MaxId(ids[..|ids| - 1]);
      assert ids[..|ids| - 1][|ids| - 2] == ids[|ids| - 2];
      if ids[|ids| - 1] > m then ids[|ids| - 1] else m
  }

  /** The id SQLite gives a new row: one more than the largest, or 1 in an empty table. */
  function NextId(ids: seq<int>): (n: int)
    ensures forall i :: 0 <= i < |ids| ==> ids[i] < n
  {
    if ids == [] then 1 else MaxId(ids) + 1
  }

  lemma AppendFreshId(ids: seq<int>, n: int)
    requires UniqueIds(ids) && forall i :: 0 <= i < |ids| ==> ids[i] < n
    ensures UniqueIds(ids + [n])
  {
  }

  /**
   * Ids grow along the table. A query without `ORDER BY` returns SQLite rows
   * in rowid order, so in such a table sequence order is that order.
   */
  predicate AscendingIds(ids: seq<int>) {
    forall i, j :: 0 <= i < j < |ids| ==> ids[i] < ids[j]
  }

  lemma AscendingUnique(ids: seq<int>)
    requires AscendingIds(ids)
    ensures UniqueIds(ids)
  {
  }

  /** A new row gets an id above every other, so it is also last in rowid order. */
  lemma AppendAscending(ids: seq<int>)
    requires AscendingIds(ids)
    ensures AscendingIds(ids + [NextId(ids)])
  {
  }

  // ---------------------------------------------------------------------------
  // Lookups

  /** `Transaction.query.get(tid)`: the row with that id, if any. */
  function FindTransaction(ts: seq<Transaction>, tid: int): (r: Option<nat>)
    ensures r.Some? ==> r.value < |ts| && ts[r.value].id == tid
    ensures r.None? ==> forall i :: 0 <= i < |ts| ==> ts[i].id != tid
  {
    if ts == [] then None
    else if ts[0].id == tid then Some(0)
    else match FindTransaction(ts[1..], tid)
      case Some(i) => Some(i + 1)
      case None => None
  }

  /** `Goal.query.get(gid)`. */
  function FindGoal(gs: seq<Goal>, gid: int): (r: Option<nat>)
    ensures r.Some? ==> r.value < |gs| && gs[r.value].id == gid
    ensures r.None? ==> forall i :: 0 <= i < |gs| ==> gs[i].id != gid
  {
    if gs == [] then None
    else if gs[0].id == gid then Some(0)
    else match FindGoal(gs[1..], gid)
      case Some(i) => Some(i + 1)
      case None => None
  }

  /** `Budget.query.filter_by(user_id=uid, category=cat).first()`: the first matching row. */
  function FindBudget(bs: seq<Budget>, uid: int, cat: string): (r: Option<nat>)
    ensures r.Some? ==>
      && r.value < |bs| && bs[r.value].userId == uid && bs[r.value].category == cat
      && forall j :: 0 <= j < r.value ==> !(bs[j].userId == uid && bs[j].category == cat)
    ensures r.None? ==> forall j :: 0 <= j < |bs| ==> !(bs[j].userId == uid && bs[j].category == cat)
  {
    if bs == [] then None
    else if bs[0].userId == uid && bs[0].category == cat then Some(0)
    else match FindBudget(bs[1..], uid, cat)
      case Some(i) => Some(i + 1)
      case None => None
  }

  /** In rowid order, `.first()` is the matching row with the smallest id. */
  lemma FindBudgetLowestId(bs: seq<Budget>, uid: int, cat: string)
    requires AscendingIds(BudgetIds(bs))
    ensures var r := FindBudget(bs, uid, cat);
      r.Some? ==> forall j :: 0 <= j < |bs| && bs[j].userId == uid && bs[j].category == cat ==> bs[r.value].id <= bs[j].id
  {
    var r := FindBudget(bs, uid, cat);
    if r.Some? {
      var ids := BudgetIds(bs);
      forall j | 0 <= j < |bs| && bs[j].userId == uid && bs[j].category == cat
        ensures bs[r.value].id <= bs[j].id
      {
        assert r.value <= j;
        if r.value < j { assert ids[r.value] < ids[j]; }
      }
    }
  }

  /** No user has two budget rows for one category. */
  predicate CategoriesUnique(bs: seq<Budget>) {
    forall i, j :: 0 <= i < j < |bs| ==> !(bs[i].userId == bs[j].userId && bs[i].category == bs[j].category)
  }

  /** A table without the row at `i`. */
  function Without<T>(s: seq<T>, i: nat): (r: seq<T>)
    requires i < |s|
    ensures |r| == |s| - 1
    ensures forall j :: 0 <= j < i ==> r[j] == s[j]
    ensures forall j :: i <= j < |r| ==> r[j] == s[j + 1]
  {
    s[..i] + s[i + 1..]
  }

  // ---------------------------------------------------------------------------
  // Form fields

  /** `a or b` for an optional form field: the field when it is present and not empty, else `b`. */
  function OrElse(a: Option<string>, b: string): (r: string)
    ensures Truthy(a) ==> r == a.value
    ensures !Truthy(a) ==> r == b
  {
    if a.Some? && a.value != "" then a.value else b
  }

  /** `request.form.get(name, default)`: the field when it is present, even if empty. */
  function GetOr(a: Option<string>, default: string): (r: string)
    ensures a.Some? ==> r == a.value
    ensures a.None? ==> r == default
  {
    match a
    case Some(v) => v
    case None => default
  }

  /** `request.form.get("deadline") or None`. */
  function Deadline(a: Option<string>): (r: Option<string>)
    ensures r.Some? <==> Truthy(a)
    ensures r.Some? ==> r == a
  {
    if Truthy(a) then a else None
  }

  /** The fields of the add-transaction form; `amount` and `type` are required. */
  datatype TransactionForm = TransactionForm(
    amount: string,
    kind: string,
    categorySelect: Option<string>,
    category: Option<string>,
    payment: Option<string>,
    date: Option<string>,
    description: Option<string>)

  /**
   * `request.form.get("category_select") or request.form.get("category") or "Інше"`:
   * the chosen category, else the typed one, else "Інше".
   */
  function ChosenCategory(f: TransactionForm): (c: string)
    ensures c != ""
    ensures Truthy(f.categorySelect) ==> c == f.categorySelect.value
    ensures !Truthy(f.categorySelect) && Truthy(f.category) ==> c == f.category.value
    ensures !Truthy(f.categorySelect) && !Truthy(f.category) ==> c == OtherCategory
  {
    OrElse(f.categorySelect, OrElse(f.category, OtherCategory))
  }

  /** The row `add_transaction` stores for an amount that parsed. */
  function NewTransaction(id: int, uid: int, f: TransactionForm, amount: real, today: Date): (t: Transaction)
    ensures t.id == id && t.userId == uid && t.kind == f.kind && t.amount == amount
    ensures t.category == ChosenCategory(f)
    ensures t.paymentMethod == GetOr(f.payment, "Cash")
    ensures t.date == OrElse(f.date, IsoDate(today)) && t.description == OrElse(f.description, "")
  {
    Transaction(id, uid, f.kind, ChosenCategory(f), amount, GetOr(f.payment, "Cash"),
      OrElse(f.date, IsoDate(today)), OrElse(f.description, ""))
  }

  /** A transaction added without a date is dated today, and so falls in today's month. */
  lemma NewTransactionDatedToday(id: int, uid: int, f: TransactionForm, amount: real, today: Date)
    requires !Truthy(f.date)
    ensures StartsWith(NewTransaction(id, uid, f, amount, today).date, TodayPrefix(today))
  {
    IsoDateInTodayPrefix(today);
  }

  // ---------------------------------------------------------------------------
  // save_budget: update the first matching row's amount, or append a row

  function SaveBudgetRows(bs: seq<Budget>, uid: int, cat: string, amount: real, id: int): seq<Budget> {
    match FindBudget(bs, uid, cat)
    case Some(i) => bs[i := bs[i].(amount := amount)]
    case None => bs + [Budget(id, uid, cat, amount)]
  }

  /**
   * If the user has a row for the category, only that row's amount changes;
   * otherwise exactly one row is appended.
   */
  lemma SaveBudgetEffect(bs: seq<Budget>, uid: int, cat: string, amount: real, id: int)
    ensures var r := SaveBudgetRows(bs, uid, cat, amount, id);
      && (FindBudget(bs, uid, cat).Some? ==>
            var i := FindBudget(bs, uid, cat).value;
            && |r| == |bs| && r[i].amount == amount && r[i].(amount := bs[i].amount) == bs[i]
            && forall j :: 0 <= j < |bs| && j != i ==> r[j] == bs[j])
      && (FindBudget(bs, uid, cat).None? ==> r == bs + [Budget(id, uid, cat, amount)])
  {
  }

  /** After saving, the category's budget for the user is the saved amount. */
  lemma SaveBudgetLookup(bs: seq<Budget>, uid: int, cat: string, amount: real, id: int)
    ensures var r := SaveBudgetRows(bs, uid, cat, amount, id);
      FindBudget(r, uid, cat).Some? && r[FindBudget(r, uid, cat).value].amount == amount
  {
    var r := SaveBudgetRows(bs, uid, cat, amount, id);
    match FindBudget(bs, uid, cat)
    case Some(i) =>
      assert r[i].userId == uid && r[i].category == cat;
      assert forall j :: 0 <= j < i ==> r[j] == bs[j];
      assert FindBudget(r, uid, cat) == Some(i) by {
        FindBudgetFirst(r, uid, cat, i);
      }
    case None =>
      assert forall j :: 0 <= j < |bs| ==> r[j] == bs[j];
      FindBudgetFirst(r, uid, cat, |bs|);
  }

  /** The row found is the first match, so a first match pins down the lookup. */
  lemma FindBudgetFirst(bs: seq<Budget>, uid: int, cat: string, i: nat)
    requires i < |bs| && bs[i].userId == uid && bs[i].category == cat
    requires forall j :: 0 <= j < i ==> !(bs[j].userId == uid && bs[j].category == cat)
    ensures FindBudget(bs, uid, cat) == Some(i)
  {
  }

  /** Saving keeps one row per user and category. */
  lemma SaveBudgetUnique(bs: seq<Budget>, uid: int, cat: string, amount: real, id: int)
    requires CategoriesUnique(bs)
    ensures CategoriesUnique(SaveBudgetRows(bs, uid, cat, amount, id))
  {
  }

  // ---------------------------------------------------------------------------
  // update_budget: rename and re-amount the first row with the old category

  function UpdateBudgetRows(bs: seq<Budget>, i: nat, cat: string, amount: real): seq<Budget>
    requires i < |bs|
  {
    bs[i := bs[i].(category := cat, amount := amount)]
  }

  /**
   * Renaming does not check the new category: a user with budgets "food" and
   * "fun" who renames "fun" to "food" ends up with two "food" rows.
   */
  lemma UpdateBudgetDuplicates()
    ensures var bs := [Budget(1, 7, "food", 100.0), Budget(2, 7, "fun", 50.0)];
      && CategoriesUnique(bs)
      && FindBudget(bs, 7, "fun") == Some(1)
      && !CategoriesUnique(UpdateBudgetRows(bs, 1, "food", 80.0))
  {
    var bs := [Budget(1, 7, "food", 100.0), Budget(2, 7, "fun", 50.0)];
    var r := UpdateBudgetRows(bs, 1, "food", 80.0);
    assert r[0].userId == r[1].userId && r[0].category == r[1].category;
  }

  /** Renaming to a category the user has no other row for keeps one row per user and category. */
  lemma UpdateBudgetUnique(bs: seq<Budget>, i: nat, cat: string, amount: real)
    requires CategoriesUnique(bs) && i < |bs|
    requires forall j :: 0 <= j < |bs| && j != i && bs[j].userId == bs[i].userId ==> bs[j].category != cat
    ensures CategoriesUnique(UpdateBudgetRows(bs, i, cat, amount))
  {
  }

  // ---------------------------------------------------------------------------
  // delete_budget

  /** Deleting the user's row for a category leaves none, when there was one per category. */
  lemma DeleteBudgetRemoves(bs: seq<Budget>, uid: int, cat: string)
    requires CategoriesUnique(bs) && FindBudget(bs, uid, cat).Some?
    ensures FindBudget(Without(bs, FindBudget(bs, uid, cat).value), uid, cat).None?
    ensures CategoriesUnique(Without(bs, FindBudget(bs, uid, cat).value))
  {
    var i := FindBudget(bs, uid, cat).value;
    var r := Without(bs, i);
    forall j | 0 <= j < |r| ensures !(r[j].userId == uid && r[j].category == cat) {
      if j >= i {
        assert r[j] == bs[j + 1];
      }
    }
  }

  // ---------------------------------------------------------------------------
  // Goals

  /** The fields of the add-savings form; `name` and `target` are required. */
  datatype GoalForm = GoalForm(name: string, target: string, current: Option<string>, deadline: Option<string>)

  /** The row `add_savings` stores: `current` defaults to "0", a blank deadline is `None`. */
  function NewGoal(id: int, uid: int, f: GoalForm, toFloat: string -> Option<real>): (r: Option<Goal>)
    ensures r.Some? <==> ParseNumber(f.target, toFloat).Some? && ParseNumber(GetOr(f.current, "0"), toFloat).Some?
    ensures r.Some? ==> r.value == Goal(id, uid, f.name, ParseNumber(f.target, toFloat).value,
      ParseNumber(GetOr(f.current, "0"), toFloat).value, Deadline(f.deadline))
  {
    match (ParseNumber(f.target, toFloat), ParseNumber(GetOr(f.current, "0"), toFloat))
    case (Some(target), Some(current)) => Some(Goal(id, uid, f.name, target, current, Deadline(f.deadline)))
    case _ => None
  }

  /** The fields of the update-goal form; every one may be missing. */
  datatype GoalEdit = GoalEdit(name: Option<string>, target: Option<string>, current: Option<string>, deadline: Option<string>)

  /**
   * An amount field of the update-goal form with the goal's stored value as
   * its default: a missing field keeps the stored amount.
   */
  function GoalAmount(field: Option<string>, stored: real, toFloat: string -> Option<real>): (r: Option<real>)
    ensures field.None? ==> r == Some(stored)
    ensures field.Some? ==> r == ParseNumber(field.value, toFloat)
  {
    match field
    case Some(s) => ParseNumber(s, toFloat)
    case None => Some(stored)
  }

  /** How `parse_number(request.form.get(field, stored))` ends. */
  datatype AmountOutcome = Parsed(value: real) | ValueError | Crash

  /**
   * The amount as the handler reads it: a missing field hands the stored float
   * itself to `parse_number`. A stored 0.0 is falsy and becomes "", which
   * `float()` always rejects; any other float has no `.strip()`, and the
   * request fails with an unhandled error before anything is written.
   */
  function GoalAmountAsWritten(field: Option<string>, stored: real, toFloat: string -> Option<real>): (r: AmountOutcome)
    ensures field.Some? ==> (r.Parsed? <==> ParseNumber(field.value, toFloat).Some?)
    ensures field.None? ==> !r.Parsed?
  {
    match field
    case Some(s) =>
      (match ParseNumber(s, toFloat) case Some(v) => Parsed(v) case None => ValueError)
    case None =>
      if stored == 0.0 then ValueError else Crash
  }

  /**
   * A form that leaves out `target` keeps the goal's target in the intended
   * reading but fails in the handler as written.
   */
  lemma GoalAmountMissingField(stored: real, toFloat: string -> Option<real>)
    ensures GoalAmount(None, stored, toFloat) == Some(stored)
    ensures stored != 0.0 ==> GoalAmountAsWritten(None, stored, toFloat) == Crash
    ensures stored == 0.0 ==> GoalAmountAsWritten(None, stored, toFloat) == ValueError
  {
  }

  /** With the field present, both readings agree. */
  lemma GoalAmountPresentField(s: string, stored: real, toFloat: string -> Option<real>)
    ensures GoalAmountAsWritten(Some(s), stored, toFloat).Parsed? <==> GoalAmount(Some(s), stored, toFloat).Some?
    ensures GoalAmount(Some(s), stored, toFloat).Some? ==>
      GoalAmountAsWritten(Some(s), stored, toFloat) == Parsed(GoalAmount(Some(s), stored, toFloat).value)
  {
  }

  /** The goal after `update_goal` when both amounts were read. */
  function EditedGoal(g: Goal, e: GoalEdit, target: real, current: real): (r: Goal)
    ensures r.id == g.id && r.userId == g.userId
    ensures r.name == GetOr(e.name, g.name) && r.deadline == Deadline(e.deadline)
    ensures r.target == target && r.current == current
  {
    g.(name := GetOr(e.name, g.name), target := target, current := current, deadline := Deadline(e.deadline))
  }

  /** An edit that sends no field keeps name and amounts and clears the deadline. */
  lemma EmptyEditKeepsGoal(g: Goal, toFloat: string -> Option<real>)
    ensures var e := GoalEdit(None, None, None, None);
      && GoalAmount(e.target, g.target, toFloat) == Some(g.target)
      && GoalAmount(e.current, g.current, toFloat) == Some(g.current)
      && EditedGoal(g, e, g.target, g.current) == g.(deadline := None)
  {
  }

  // ---------------------------------------------------------------------------
  // Other users' rows

  lemma {:induction false} OwnedByConcat(xs: seq<Transaction>, ys: seq<Transaction>, u: int)
    ensures OwnedBy(xs + ys, u) == OwnedBy(xs, u) + OwnedBy(ys, u)
    decreases |ys|
  {
    if ys == [] {
      assert xs + ys == xs;
    } else {
      var n := |ys| - 1;
      OwnedByConcat(xs, ys[..n], u);
      assert (xs + ys)[..|xs| + n] == xs + ys[..n];
    }
  }

  lemma {:induction false} BudgetsOfConcat(xs: seq<Budget>, ys: seq<Budget>, u: int)
    ensures BudgetsOf(xs + ys, u) == BudgetsOf(xs, u) + BudgetsOf(ys, u)
    decreases |ys|
  {
    if ys == [] {
      assert xs + ys == xs;
    } else {
      var n := |ys| - 1;
      BudgetsOfConcat(xs, ys[..n], u);
      assert (xs + ys)[..|xs| + n] == xs + ys[..n];
    }
  }

  lemma {:induction false} GoalsOfConcat(xs: seq<Goal>, ys: seq<Goal>, u: int)
    ensures GoalsOf(xs + ys, u) == GoalsOf(xs, u) + GoalsOf(ys, u)
    decreases |ys|
  {
    if ys == [] {
      assert xs + ys == xs;
    } else {
      var n := |ys| - 1;
      GoalsOfConcat(xs, ys[..n], u);
      assert (xs + ys)[..|xs| + n] == xs + ys[..n];
    }
  }

  /** Removing a row of another user does not change what user `u` sees. */
  lemma OwnedByWithout(ts: seq<Transaction>, i: nat, u: int)
    requires i < |ts| && ts[i].userId != u
    ensures OwnedBy(Without(ts, i), u) == OwnedBy(ts, u)
  {
    assert ts == ts[..i] + [ts[i]] + ts[i + 1..];
    OwnedByConcat(ts[..i], [ts[i]], u);
    OwnedByConcat(ts[..i] + [ts[i]], ts[i + 1..], u);
    OwnedByConcat(ts[..i], ts[i + 1..], u);
    assert OwnedBy([ts[i]], u) == [] by {
      assert [ts[i]][..0] == [];
    }
  }

  lemma BudgetsOfWithout(bs: seq<Budget>, i: nat, u: int)
    requires i < |bs| && bs[i].userId != u
    ensures BudgetsOf(Without(bs, i), u) == BudgetsOf(bs, u)
  {
    assert bs == bs[..i] + [bs[i]] + bs[i + 1..];
    BudgetsOfConcat(bs[..i], [bs[i]], u);
    BudgetsOfConcat(bs[..i] + [bs[i]], bs[i + 1..], u);
    BudgetsOfConcat(bs[..i], bs[i + 1..], u);
    assert BudgetsOf([bs[i]], u) == [] by {
      assert [bs[i]][..0] == [];
    }
  }

  /** Replacing a row of another user by another user's row does not change what `u` sees. */
  lemma BudgetsOfUpdate(bs: seq<Budget>, i: nat, b: Budget, u: int)
    requires i < |bs| && bs[i].userId != u && b.userId != u
    ensures BudgetsOf(bs[i := b], u) == BudgetsOf(bs, u)
  {
    assert bs[i := b] == bs[..i] + [b] + bs[i + 1..];
    BudgetsOfConcat(bs[..i] + [b], bs[i + 1..], u);
    BudgetsOfConcat(bs[..i], [b], u);
    assert BudgetsOf([b], u) == [] by {
      assert [b][..0] == [];
    }
    BudgetsOfWithout(bs, i, u);
    BudgetsOfConcat(bs[..i], bs[i + 1..], u);
  }

  lemma GoalsOfWithout(gs: seq<Goal>, i: nat, u: int)
    requires i < |gs| && gs[i].userId != u
    ensures GoalsOf(Without(gs, i), u) == GoalsOf(gs, u)
  {
    assert gs == gs[..i] + [gs[i]] + gs[i + 1..];
    GoalsOfConcat(gs[..i], [gs[i]], u);
    GoalsOfConcat(gs[..i] + [gs[i]], gs[i + 1..], u);
    GoalsOfConcat(gs[..i], gs[i + 1..], u);
    assert GoalsOf([gs[i]], u) == [] by {
      assert [gs[i]][..0] == [];
    }
  }

  lemma GoalsOfUpdate(gs: seq<Goal>, i: nat, g: Goal, u: int)
    requires i < |gs| && gs[i].userId != u && g.userId != u
    ensures GoalsOf(gs[i := g], u) == GoalsOf(gs, u)
  {
    assert gs[i := g] == gs[..i] + [g] + gs[i + 1..];
    GoalsOfConcat(gs[..i] + [g], gs[i + 1..], u);
    GoalsOfConcat(gs[..i], [g], u);
    assert GoalsOf([g], u) == [] by {
      assert [g][..0] == [];
    }
    GoalsOfWithout(gs, i, u);
    GoalsOfConcat(gs[..i], gs[i + 1..], u);
  }

  /** Saving a budget leaves every other user's budgets as they were. */
  lemma SaveBudgetOthers(bs: seq<Budget>, uid: int, cat: string, amount: real, id: int, u: int)
    requires u != uid
    ensures BudgetsOf(SaveBudgetRows(bs, uid, cat, amount, id), u) == BudgetsOf(bs, u)
  {
    match FindBudget(bs, uid, cat)
    case Some(i) => BudgetsOfUpdate(bs, i, bs[i].(amount := amount), u);
    case None => assert (bs + [Budget(id, uid, cat, amount)])[..|bs|] == bs;
  }
}
