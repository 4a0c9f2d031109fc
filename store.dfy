/**
 * The database the request handlers change: three tables held as sequences of
 * rows, and one method per handler. Every handler that takes an amount parses
 * it before it touches a table, and the handlers that act on one row act only
 * on a row of the signed-in user.
 */
module Store {
  import opened Wrappers
  import opened Text
  import opened Records
  import opened Aggregation
  import opened Tables

  /** The outcome a handler reports with its flash message. */
  datatype Status = Done | BadAmount | NotFound

  lemma WithoutUnique(ids: seq<int>, i: nat)
    requires UniqueIds(ids) && i < |ids|
    ensures UniqueIds(Without(ids, i))
  {
  }

  /** Deleting a row keeps the others in rowid order. */
  lemma WithoutAscending(ids: seq<int>, i: nat)
    requires AscendingIds(ids) && i < |ids|
    ensures AscendingIds(Without(ids, i))
  {
  }

  class Database {
    var transactions: seq<Transaction>
    var budgets: seq<Budget>
    var goals: seq<Goal>

    /**
     * Every table holds its rows in ascending id order, the order in which
     * SQLite returns them without `ORDER BY`; in particular ids are unique.
     */
    predicate Valid()
      reads this
    {
      AscendingIds(TransactionIds(transactions)) && AscendingIds(BudgetIds(budgets)) && AscendingIds(GoalIds(goals))
    }

    /** The ids of a valid database are unique in every table. */
    lemma ValidUnique()
      requires Valid()
      ensures UniqueIds(TransactionIds(transactions)) && UniqueIds(BudgetIds(budgets)) && UniqueIds(GoalIds(goals))
    {
      AscendingUnique(TransactionIds(transactions));
      AscendingUnique(BudgetIds(budgets));
      AscendingUnique(GoalIds(goals));
    }

    constructor ()
      ensures transactions == [] && budgets == [] && goals == []
      ensures Valid()
    {
      transactions := [];
      budgets := [];
      goals := [];
    }

    /** `add_transaction`. */
    method AddTransaction(uid: int, f: TransactionForm, today: Date, toFloat: string -> Option<real>) returns (st: Status)
      requires Valid()
      modifies this
      ensures Valid()
      ensures budgets == old(budgets) && goals == old(goals)
      ensures ParseNumber(f.amount, toFloat).None? ==> st == BadAmount && transactions == old(transactions)
      ensures ParseNumber(f.amount, toFloat).Some? ==>
        && st == Done
        && transactions == old(transactions) + [NewTransaction(NextId(TransactionIds(old(transactions))), uid, f,
                                                               ParseNumber(f.amount, toFloat).value, today)]
    {
      var amount := ParseNumber(f.amount, toFloat);
      if amount.None? {
        return BadAmount;
      }
      var id := NextId(TransactionIds(transactions));
      var t := NewTransaction(id, uid, f, amount.value, today);
      AppendAscending(TransactionIds(transactions));
      assert TransactionIds(transactions + [t]) == TransactionIds(transactions) + [id];
      transactions := transactions + [t];
      st := Done;
    }

    /** `delete_transaction`: only an existing row of the user is removed. */
    method DeleteTransaction(uid: int, tid: int) returns (st: Status)
      requires Valid()
      modifies this
      ensures Valid()
      ensures budgets == old(budgets) && goals == old(goals)
      ensures var found := FindTransaction(old(transactions), tid);
        if found.Some? && old(transactions)[found.value].userId == uid
        then st == Done && transactions == Without(old(transactions), found.value)
        else st == NotFound && transactions == old(transactions)
      ensures st == Done ==> FindTransaction(transactions, tid).None?
      ensures forall u :: u != uid ==> OwnedBy(transactions, u) == OwnedBy(old(transactions), u)
    {
      var found := FindTransaction(transactions, tid);
      if found.Some? && transactions[found.value].userId == uid {
        var i := found.value;
        WithoutAscending(TransactionIds(transactions), i);
        assert TransactionIds(Without(transactions, i)) == Without(TransactionIds(transactions), i);
        forall u | u != uid ensures OwnedBy(Without(transactions, i), u) == OwnedBy(transactions, u) {
          OwnedByWithout(transactions, i, u);
        }
        transactions := Without(transactions, i);
        st := Done;
      } else {
        st := NotFound;
      }
    }

    /** `save_budget_route`: upsert by user and stripped category. */
    method SaveBudget(uid: int, categoryRaw: string, amountRaw: string, toFloat: string -> Option<real>) returns (st: Status)
      requires Valid()
      modifies this
      ensures Valid()
      ensures transactions == old(transactions) && goals == old(goals)
      ensures ParseNumber(amountRaw, toFloat).None? ==> st == BadAmount && budgets == old(budgets)
      ensures ParseNumber(amountRaw, toFloat).Some? ==>
        && st == Done
        && budgets == SaveBudgetRows(old(budgets), uid, Strip(categoryRaw), ParseNumber(amountRaw, toFloat).value,
                                     NextId(BudgetIds(old(budgets))))
      ensures forall u :: u != uid ==> BudgetsOf(budgets, u) == BudgetsOf(old(budgets), u)
    {
      var category := Strip(categoryRaw);
      var amount := ParseNumber(amountRaw, toFloat);
      if amount.None? {
        return BadAmount;
      }
      var id := NextId(BudgetIds(budgets));
      forall u | u != uid ensures BudgetsOf(SaveBudgetRows(budgets, uid, category, amount.value, id), u) == BudgetsOf(budgets, u) {
        SaveBudgetOthers(budgets, uid, category, amount.value, id, u);
      }
      var existing := FindBudget(budgets, uid, category);
      if existing.Some? {
        var i := existing.value;
        assert BudgetIds(budgets[i := budgets[i].(amount := amount.value)]) == BudgetIds(budgets);
        budgets := budgets[i := budgets[i].(amount := amount.value)];
      } else {
        var b := Budget(id, uid, category, amount.value);
        AppendAscending(BudgetIds(budgets));
        assert BudgetIds(budgets + [b]) == BudgetIds(budgets) + [id];
        budgets := budgets + [b];
      }
      st := Done;
    }

    /** `update_budget`: rename and re-amount the user's first row with the old category. */
    method UpdateBudget(uid: int, oldCategory: string, categoryRaw: string, amountRaw: string,
                        toFloat: string -> Option<real>) returns (st: Status)
      requires Valid()
      modifies this
      ensures Valid()
      ensures transactions == old(transactions) && goals == old(goals)
      ensures ParseNumber(amountRaw, toFloat).None? ==> st == BadAmount && budgets == old(budgets)
      ensures ParseNumber(amountRaw, toFloat).Some? && FindBudget(old(budgets), uid, oldCategory).None? ==>
        st == NotFound && budgets == old(budgets)
      ensures ParseNumber(amountRaw, toFloat).Some? && FindBudget(old(budgets), uid, oldCategory).Some? ==>
        st == Done && budgets == UpdateBudgetRows(old(budgets), FindBudget(old(budgets), uid, oldCategory).value,
                                                  Strip(categoryRaw), ParseNumber(amountRaw, toFloat).value)
      ensures forall u :: u != uid ==> BudgetsOf(budgets, u) == BudgetsOf(old(budgets), u)
    {
      var category := Strip(categoryRaw);
      var amount := ParseNumber(amountRaw, toFloat);
      if amount.None? {
        return BadAmount;
      }
      var found := FindBudget(budgets, uid, oldCategory);
      if found.None? {
        return NotFound;
      }
      var i := found.value;
      var b := budgets[i].(category := category, amount := amount.value);
      forall u | u != uid ensures BudgetsOf(budgets[i := b], u) == BudgetsOf(budgets, u) {
        BudgetsOfUpdate(budgets, i, b, u);
      }
      assert BudgetIds(budgets[i := b]) == BudgetIds(budgets);
      budgets := budgets[i := b];
      st := Done;
    }

    /** `delete_budget`: remove the user's first row with the category. */
    method DeleteBudget(uid: int, cat: string) returns (st: Status)
      requires Valid()
      modifies this
      ensures Valid()
      ensures transactions == old(transactions) && goals == old(goals)
      ensures var found := FindBudget(old(budgets), uid, cat);
        if found.Some? then st == Done && budgets == Without(old(budgets), found.value)
        else st == NotFound && budgets == old(budgets)
      ensures forall u :: u != uid ==> BudgetsOf(budgets, u) == BudgetsOf(old(budgets), u)
    {
      var found := FindBudget(budgets, uid, cat);
      if found.None? {
        return NotFound;
      }
      var i := found.value;
      WithoutAscending(BudgetIds(budgets), i);
      assert BudgetIds(Without(budgets, i)) == Without(BudgetIds(budgets), i);
      forall u | u != uid ensures BudgetsOf(Without(budgets, i), u) == BudgetsOf(budgets, u) {
        BudgetsOfWithout(budgets, i, u);
      }
      budgets := Without(budgets, i);
      st := Done;
    }

    /** `add_savings`. */
    method AddSavings(uid: int, f: GoalForm, toFloat: string -> Option<real>) returns (st: Status)
      requires Valid()
      modifies this
      ensures Valid()
      ensures transactions == old(transactions) && budgets == old(budgets)
      ensures var g := NewGoal(NextId(GoalIds(old(goals))), uid, f, toFloat);
        if g.Some? then st == Done && goals == old(goals) + [g.value]
        else st == BadAmount && goals == old(goals)
    {
      var id := NextId(GoalIds(goals));
      var g := NewGoal(id, uid, f, toFloat);
      if g.None? {
        return BadAmount;
      }
      AppendAscending(GoalIds(goals));
      assert GoalIds(goals + [g.value]) == GoalIds(goals) + [id];
      goals := goals + [g.value];
      st := Done;
    }

    /**
     * `update_goal`, with a missing amount field keeping the stored amount:
     * only an existing goal of the user is edited, and only when both amounts
     * parse.
     */
    method UpdateGoal(uid: int, gid: int, e: GoalEdit, toFloat: string -> Option<real>) returns (st: Status)
      requires Valid()
      modifies this
      ensures Valid()
      ensures transactions == old(transactions) && budgets == old(budgets)
      ensures var found := FindGoal(old(goals), gid);
        if found.None? || old(goals)[found.value].userId != uid then st == NotFound && goals == old(goals)
        else
          var g := old(goals)[found.value];
          var target := GoalAmount(e.target, g.target, toFloat);
          var current := GoalAmount(e.current, g.current, toFloat);
          if target.None? || current.None? then st == BadAmount && goals == old(goals)
          else st == Done && goals == old(goals)[found.value := EditedGoal(g, e, target.value, current.value)]
      ensures forall u :: u != uid ==> GoalsOf(goals, u) == GoalsOf(old(goals), u)
    {
      var found := FindGoal(goals, gid);
      if found.None? || goals[found.value].userId != uid {
        return NotFound;
      }
      var i := found.value;
      var g := goals[i];
      var target := GoalAmount(e.target, g.target, toFloat);
      var current := GoalAmount(e.current, g.current, toFloat);
      if target.None? || current.None? {
        return BadAmount;
      }
      var edited := EditedGoal(g, e, target.value, current.value);
      forall u | u != uid ensures GoalsOf(goals[i := edited], u) == GoalsOf(goals, u) {
        GoalsOfUpdate(goals, i, edited, u);
      }
      assert GoalIds(goals[i := edited]) == GoalIds(goals);
      goals := goals[i := edited];
      st := Done;
    }

    /** `delete_goal`: only an existing goal of the user is removed. */
    method DeleteGoal(uid: int, gid: int) returns (st: Status)
      requires Valid()
      modifies this
      ensures Valid()
      ensures transactions == old(transactions) && budgets == old(budgets)
      ensures var found := FindGoal(old(goals), gid);
        if found.Some? && old(goals)[found.value].userId == uid
        then st == Done && goals == Without(old(goals), found.value)
        else st == NotFound && goals == old(goals)
      ensures st == Done ==> FindGoal(goals, gid).None?
      ensures forall u :: u != uid ==> GoalsOf(goals, u) == GoalsOf(old(goals), u)
    {
      var found := FindGoal(goals, gid);
      if found.Some? && goals[found.value].userId == uid {
        var i := found.value;
        WithoutAscending(GoalIds(goals), i);
        assert GoalIds(Without(goals, i)) == Without(GoalIds(goals), i);
        forall u | u != uid ensures GoalsOf(Without(goals, i), u) == GoalsOf(goals, u) {
          GoalsOfWithout(goals, i, u);
        }
        goals := Without(goals, i);
        st := Done;
      } else {
        st := NotFound;
      }
    }
  }
}
