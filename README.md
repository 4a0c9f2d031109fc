# kurs2025 personal finance tracker: the dashboard and the record tables

The application is a small Flask/SQLAlchemy web app. A user records income and
expense transactions, sets spending limits per category (budgets) and tracks
savings goals. This model covers the logic the application holds.

- **The dashboard.** For a selected month it picks the user's transactions whose
  date text starts with the period prefix. It then computes:
  - income, expenses and balance;
  - an expense-by-category dictionary in first-seen order, with blank categories
    shown as "Інше";
  - a per-date signed net series, sorted by date;
  - the total of goal savings and a budget dictionary;
  - a composite "financial health" score.
- **The budget and savings pages.** The budget page computes a per-category
  "spent this month" map. The savings page computes each goal's progress percent.
- **The record tables.** The request handlers change the tables: add or delete a
  transaction, upsert, rename or delete a budget, and add, edit or delete a goal.
  The handlers for existing rows (delete a transaction, edit or delete a goal)
  act only on a row of the logged-in user, and the budget handlers look rows up
  by that user. Every handler that takes an amount parses it before it changes
  anything; the delete handlers take none.

Modules, one per file:

| file | module | contents |
|---|---|---|
| `wrappers.dfy` | `Wrappers` | `Option` |
| `text.dfy` | `Text` | `str.strip()`, `replace(",", ".")`, `parse_number`, Python `int()` for base 10, `str(n)`/`f"{n:02d}"` |
| `records.dfy` | `Records` | the `Transaction`, `Budget` and `Goal` rows |
| `dict.dfy` | `Dict` | an insertion-ordered Python `dict` from text to amounts |
| `period.dfy` | `Period` | the month/year selector and the two period prefixes |
| `aggregation.dfy` | `Aggregation` | filters, sums, the dictionary fold, `sorted()` on text, the budget dictionary |
| `health.dfy` | `Health` | the three efficiency terms, the health score, goal percent |
| `dashboard.dfy` | `Dashboard` | the dashboard, budget page and savings page as specification functions, and the loop methods proved equal to them |
| `properties.dfy` | `DashboardProperties` | what the dashboard promises, proved about the specification functions |
| `scenario.dfy` | `Scenario` | a worked month checked end to end |
| `tables.dfy` | `Tables` | row lookups, id allocation, form defaults, the row-level effect of each handler and its lemmas |
| `store.dfy` | `Store` | the `Database` class: three tables and one method per handler |

How the model is built:

- Amounts are `real`. Python's `float()` is a parameter `toFloat: string -> Option<real>`.
  - `parse_number(raw)` is `toFloat` applied to the stripped text with commas turned into dots.
  - `None` stands for the `ValueError` that `float()` raises.
- "Today" is a `Date` parameter.
- The query arguments and form fields are `Option<string>` values, where `None` means
  "absent". Python truthiness (`x or default`) and `.get(k, default)` are kept apart.
- The database is three sequences of rows. A new row's id is one more than the largest
  id in its table, or 1 if the table is empty. That is SQLite's rule for an integer primary
  key without `AUTOINCREMENT`, including the reuse of a deleted last id.
- Each loop in the source becomes a `method` with a `while` loop. That method is proved
  equal to a specification function, and the promised properties are lemmas about that
  function:
  - the loops that fill `exp_by_cat`, `daily` and `spending`;
  - the loop that accumulates `spent_vs_budget`;
  - the loop that builds `processed`.

Three consequences of the code that a reader might not expect:

- **The period prefix.** The code builds it as `f"{sel_year}-{sel_month:02d}"` and tests
  `startswith`. The year is not padded, so year 999 gives the prefix `"999-05"`.
  - `Period.PrefixesAgree` proves that from year 1000 on it equals the budget page's
    `strftime("%Y-%m")`.
  - `Period.PeriodsDisjoint` proves that one date never falls in two months.
- **Zero income.** The health score is 0 whenever income is at most 0 (app.py:199, app.py:208-209).
- **Health range.** The health score is not confined to [0, 100] in general:
  - `saving_ratio` has no lower clamp;
  - a negative amount can make `budget_eff` negative.

  `Health.HealthBounds` states when it is at most 100 and when it is non-negative.
  `DashboardProperties.ReportHealthNonNegative` gives an all-inputs condition for the
  lower bound.

## Model

| member | source | states |
|---|---|---|
| Text.NormalizeNumber | app.py:82 | (defines the text `parse_number` hands to `float()`: `strip()`, then commas as dots) |
| Text.ParseNumber | app.py:81-83 | (defines `parse_number`: `float()`, a parameter, applied to the normalised text; `None` is its `ValueError`) |
| Text.Strip | app.py:82 | the result is no longer than the input and neither starts nor ends with whitespace (the slices are stated by `TrimLeft` and `TrimRight`) |
| Text.TrimLeftDropsSpaces | app.py:82 | `strip` removes only whitespace at the front |
| Text.TrimRightDropsSpaces | app.py:82 | `strip` removes only whitespace at the back |
| Text.NormalizedIsTrimmed | app.py:82 | the text handed to `float()` has no surrounding whitespace |
| Text.NormalizedHasNoComma | app.py:82 | the text handed to `float()` holds no comma |
| Text.NormalizeNumberIdempotent | app.py:82 | normalising a normalised amount changes nothing |
| Text.CommaToDotWithoutCommas | app.py:82 | the comma replacement leaves text without commas as it is |
| Text.ParseNumberSeparatorAgnostic | app.py:81-83 | for every input, writing its commas as dots does not change how `parse_number` parses it |
| Text.StripCommaToDot | app.py:82 | `strip` and the comma replacement may be applied in either order |
| Text.CommaToDotIdempotent | app.py:82 | replacing commas a second time changes nothing |
| Text.NormalizeCommaExample | app.py:82 | `" 2,5"` reaches `float()` as `"2.5"` |
| Text.ParseNumberExample | app.py:81-83 | a comma and a dot separator, padded or not, give the same parse |
| Text.NatToString | app.py:165 | `str(n)` is decimal digits, with no leading zero |
| Text.DigitsValueOfNatToString | app.py:158-159 | reading back the digits of `str(n)` gives `n` |
| Text.ParseInt | app.py:158-159 | (defines `int()` in base 10: `int()` whitespace around an optional sign and well-formed digits, at most 4300 of them, else `ValueError` as `None`) |
| Text.ParseSignedZeroPad | app.py:158-159 | the sign-and-digits phase of `int()` reads a zero-padded rendering of `n` back as `n` |
| Text.ParseZeroPad | app.py:158-159 | `int()` of `f"{n:0Wd}"` is `n` within the 4300-digit limit, and a `ValueError` beyond it |
| Text.IntSpaceIsSpace | app.py:158-159 | every character `int()` skips is whitespace to `str.strip()` |
| Text.TrimmedIntPadding | app.py:158-159 | text without surrounding whitespace leaves `int()` nothing to skip |
| Text.ParseIntControlPadding | app.py:158-159 | `int(" 5")` is 5, but `int("\x1c5")` fails although `strip()` drops U+001C |
| Text.ZeroPadValue | app.py:165 | a padded rendering starts with `-` iff `n` is negative, and its digits read back as the magnitude of `n` |
| Text.ZeroPadInjective | app.py:165 | two different integers never render to the same padded text |
| Period.MonthPrefix | app.py:165 | (defines the dashboard prefix `f"{sel_year}-{sel_month:02d}"`: the unpadded year, a dash, the month padded to two digits) |
| Period.TodayPrefix | app.py:312 | (defines `today.strftime("%Y-%m")` for years from 1000 on: the four-digit year, a dash, the month padded to two; `Period.PrefixesAgree` relates it to the dashboard prefix) |
| Period.SelectPeriod | app.py:154-163 | (defines the selector: both arguments present, non-empty and accepted by `int()` are used, otherwise today's month and year; `Period.SelectRenderedPeriod` proves it reads back the rendered period and `Period.SelectControlPadding` shows the `int()` fallback) |
| Period.SelectRenderedPeriod | app.py:154-163 | the selector gives back the month and year rendered by `str()` in the page's links, for values within `int()`'s digit limit |
| Period.SelectControlPadding | app.py:156-161 | a month argument padded with U+001C raises `ValueError`, so today's period is used |
| Period.PeriodsDisjoint | app.py:165-169 | for years ≥ 0 and months 0..99, a date starting with two period prefixes names one period |
| Period.PrefixesAgree | app.py:165 | from year 1000 on, the dashboard's prefix equals the budget page's `strftime("%Y-%m")` |
| Period.MonthFieldDigits | app.py:165 | the month field of the prefix is exactly two digits for months 0..99 |
| Period.IsoDateInTodayPrefix | app.py:312 | a transaction dated `str(today)` lies in today's budget-page month |
| Aggregation.OwnedByMembers | app.py:168 | a row is among the user's transactions iff it is in the table with that user id |
| Aggregation.DatedInMembers | app.py:169 | a row is in the month iff its date starts with the prefix |
| Aggregation.OfKindMembers | app.py:172-173 | a row passes the type filter iff its type is the one asked for |
| Aggregation.BudgetsOfMembers | app.py:195 | the user's budgets are exactly the rows with that user id |
| Aggregation.GoalsOfMembers | app.py:193 | the user's goals are exactly the rows with that user id |
| Aggregation.Tally | app.py:177-187 | (defines the dictionary that `d[key(t)] = d.get(key(t), 0.0) + val(t)` builds over the rows, used for `exp_by_cat`, `daily` and `spending`) |
| Aggregation.TallyDistinct | app.py:177-187 | the accumulated dictionary never holds a key twice |
| Aggregation.TallyGet | app.py:181-187 | each key maps to the sum of the values of the rows with that key |
| Aggregation.TallyTotal | app.py:177-187 | the dictionary's values add up to the sum over all rows |
| Aggregation.TallyKeys | app.py:177-187 | the keys are the rows' keys in first-seen order, without repeats |
| Aggregation.TallyHasKey | app.py:177-187 | a key is present iff some row has it |
| Aggregation.TallyKeysAgree | app.py:177-187 | two key functions that agree on the rows build the same dictionary |
| Aggregation.FirstSeenMembers | app.py:224 | the first-seen list has the same members as the input and no repeats |
| Aggregation.KeysSeenMembers | app.py:224 | a key is among the rows' keys iff some row has it |
| Aggregation.HasKeyInKeys | app.py:224 | a dictionary has a key iff the key is in `list(d.keys())` |
| Aggregation.KeyTotalNonNegative | app.py:181 | with non-negative amounts, every per-key total is non-negative |
| Aggregation.SortStrings | app.py:189 | (defines `sorted()` on text as insertion into a sorted list) |
| Aggregation.SortStringsSpec | app.py:189 | `sorted()` returns an ascending permutation of its input |
| Aggregation.InsertSorted | app.py:189 | inserting one element keeps a sorted list sorted |
| Aggregation.InsertPermutes | app.py:189 | insertion adds the element and loses none |
| Aggregation.SortedPairwise | app.py:189 | in a sorted list, every earlier element is ≤ every later one |
| Aggregation.LexTotal | app.py:189 | Python's text order compares any two strings |
| Aggregation.LexAntisymmetric | app.py:189 | two strings each ≤ the other are equal |
| Aggregation.LexTransitive | app.py:189 | text order is transitive |
| Aggregation.LexRefl | app.py:189 | every string is ≤ itself |
| Aggregation.BudgetMap | app.py:196 | (defines the comprehension `{b.category: b.amount for b in budgets}`, one `d[k] = v` per row in table order) |
| Aggregation.BudgetMapGet | app.py:196 | the comprehension has distinct keys, and a category maps to the amount of the last row with it |
| Aggregation.BudgetMapKeys | app.py:196 | a category is a key iff some budget row has it |
| Aggregation.BudgetMapTotal | app.py:196-201 | with distinct categories, `sum(budget_map.values())` is the sum of the limits |
| Aggregation.BudgetMapNonNegative | app.py:196 | non-negative limits give non-negative dictionary values |
| Aggregation.PutHasKey | app.py:196 | after `d[k] = v`, the keys are the old keys plus `k` |
| Aggregation.GoalsSavings | app.py:194 | (defines `sum(g.current for g in goals)`) |
| Aggregation.UserSavings | app.py:193-194 | (an independent reference: one pass over all goals, counting the current amounts of the user's only) |
| Aggregation.GoalsSavingsOfUser | app.py:193-194 | the user's goal savings equal the masked sum over the whole goal table |
| Aggregation.GoalsSavingsNonNegative | app.py:194 | non-negative current amounts give non-negative goal savings |
| Dict.GetPresent | app.py:181 | `d.get` of a present key is its stored value |
| Dict.GetAbsent | app.py:181 | `d.get` of a missing key is the default |
| Dict.PutKeys | app.py:181 | `d[k] = v` keeps an existing key in place and appends a new one |
| Dict.PutDistinct | app.py:181 | `d[k] = v` keeps the keys distinct |
| Dict.GetPut | app.py:181 | after `d[k] = v`, `k` maps to `v` and every other key is unchanged |
| Dict.TotalAccumulate | app.py:181 | `d[k] = d.get(k, 0.0) + a` raises the sum of the values by `a` |
| Health.Min | app.py:200 | the smaller of two amounts |
| Health.Max | app.py:200 | the larger of two amounts |
| Health.SpendEfficiency | app.py:200 | in [0, 100]; 100 iff balance ≥ income; 0 iff balance ≤ 0; otherwise balance / income · 100 |
| Health.BudgetEfficiency | app.py:205 | 100 when the total limit is ≤ 0, else spent / total · 100 |
| Health.BudgetEfficiencyBounds | app.py:205 | spending between 0 and the total gives a value in [0, 100] |
| Health.SavingRatio | app.py:206 | at most 100; 100 iff savings ≥ income; otherwise savings / income · 100, negative for negative savings |
| Health.HealthScore | app.py:199-209 | 0 when income ≤ 0 |
| Health.HealthBounds | app.py:199-209 | at most 100 when spending is within the limits; non-negative with non-negative spending and savings |
| Health.FullHealth | app.py:199-209 | the score is 100 when all three terms are at their cap |
| Health.HealthExample | app.py:199-209 | income 1000, balance 700, spent 250 of limit 250, savings 100 give 67 |
| Health.GoalPercent | app.py:400-402 | current / target · 100 when target > 0, else 0; no cap at 100 |
| Health.GoalReached | app.py:400-402 | for a positive target, the percent is ≥ 100 iff the goal is reached, and non-negative for a non-negative current amount |
| Health.GoalPercentExample | app.py:400-402 | an over-funded goal shows 150 percent, not 100 |
| Dashboard.SpentVsBudget | app.py:202-204 | (defines `spent_vs_budget`: each limit capped by that category's spending, summed in budget-map order) |
| Dashboard.Report | app.py:165-209 | (defines the dashboard for a selected month: the month's rows, the three totals, both dictionaries, goal savings, the budget map and the health score) |
| Dashboard.DashboardPage | app.py:149-209 | (defines the `/dashboard` page: the period selector, then `Report` for that period) |
| Dashboard.Spending | app.py:311-318 | (defines the budget page's `spending`: the user's expenses dated in today's `%Y-%m` month, tallied by raw category) |
| Dashboard.TallyExpenses | app.py:177-181 | the loop builds exactly the expense-by-category dictionary |
| Dashboard.TallyDaily | app.py:184-187 | the loop builds exactly the per-date net dictionary |
| Dashboard.CapSpending | app.py:202-204 | the loop computes the sum of each limit capped by that category's spending |
| Dashboard.ComputeHealth | app.py:199-209 | the health block computes the health score of its inputs |
| Dashboard.ComputeReport | app.py:165-209 | the computation yields the dashboard specification for the selected month |
| Dashboard.ComputeDashboard | app.py:149-232 | the handler yields the dashboard for the selected period |
| Dashboard.BudgetPage | app.py:306-325 | the page shows the budget dictionary and this month's raw-category spending map |
| Dashboard.SavingsPage | app.py:394-404 | one entry per goal of the user, in table order, carrying its id, the goal and its percent |
| DashboardProperties.PeriodSum | app.py:172-173 | (an independent reference: one pass over all rows, masking by user, prefix and type) |
| DashboardProperties.FilteredSum | app.py:168-173 | the chained filters and `sum` equal the reference pass |
| DashboardProperties.FiltersCommute | app.py:169-173 | filtering by type and by date commute |
| DashboardProperties.MonthMembers | app.py:168-169 | a row is a month row iff it belongs to the user and its date starts with the prefix |
| DashboardProperties.ReportTotals | app.py:165-174 | income and expenses are the period sums split by type, and balance is exactly their difference |
| DashboardProperties.SumValues | app.py:225 | the values listed from a dictionary add up to its total |
| DashboardProperties.ExpenseChart | app.py:177-181 | labels are the categories in first-seen order, never repeated; each value is its category's total; the values add up to `expenses` |
| DashboardProperties.ExpenseChartLabels | app.py:177-181 | a label is present iff some period expense has that category (blank as "Інше"); the empty category is never a label |
| DashboardProperties.SumOverPermutedKeys | app.py:189-190 | reading a dictionary's values through any permutation of its keys preserves their sum |
| DashboardProperties.SumRemove | app.py:190 | removing one value from a list lowers its sum by that value |
| DashboardProperties.PermutationDistinct | app.py:189 | a permutation of a list without repeats has none |
| DashboardProperties.DistinctCount | app.py:189 | a key occurs at most once in a list without repeats |
| DashboardProperties.SignedSum | app.py:186-187 | over income and expense rows, the signed sum is income minus expenses |
| DashboardProperties.DailyKeys | app.py:184-187 | the daily dictionary has distinct dates |
| DashboardProperties.DailyChart | app.py:184-190 | daily labels are ascending and distinct; each value is that date's signed net |
| DashboardProperties.DailyChartLabels | app.py:184-189 | a date is a label iff some period transaction is dated that day |
| DashboardProperties.DailyChartBalance | app.py:184-190 | when every type is income or expense, the unrounded daily values add up to the balance |
| DashboardProperties.SpentWithinTotal | app.py:201-204 | capped spending never exceeds the total limit |
| DashboardProperties.SpentNonNegative | app.py:202-204 | with non-negative limits and spending, capped spending is non-negative |
| DashboardProperties.ReportHealth | app.py:199-209 | health is 0 without income; otherwise exactly 0.5·spend + 0.3·budget + 0.2·saving, and at most 100 |
| DashboardProperties.ReportHealthNonNegative | app.py:199-209 | non-negative expenses, limits and savings give non-negative health |
| DashboardProperties.SpendingTotal | app.py:311-318 | the budget page's spending adds up to this month's expenses |
| DashboardProperties.SpendingMatchesDashboard | app.py:311-318 | from year 1000 on, with no blank categories, the budget page's map is the dashboard's map for the current month |
| DashboardProperties.SpendingKeepsBlankCategory | app.py:318 | a blank-category expense shows under the empty key on the budget page, not under "Інше" |
| Scenario.MayDashboard | app.py:165-209 | a month with income 1000, food 200 + 100, a 250 limit and 100 saved shows balance 700, one "food" bar of 300 and health 67 |
| Scenario.MayPrefix | app.py:165 | May 2024 is the prefix "2024-05" |
| Scenario.MayCategories | app.py:177-181 | the two food expenses accumulate under one key |
| Scenario.MayLimits | app.py:193-196 | the user's limits and savings in the example |
| Tables.MaxId | app.py:35 | the largest id, which is one of the ids |
| Tables.NextId | app.py:282 | a new id exceeds every existing id |
| Tables.AppendFreshId | app.py:282 | appending a fresh id keeps ids unique |
| Tables.AscendingUnique | app.py:168 | rows in ascending id order have unique ids |
| Tables.AppendAscending | app.py:282 | a row appended with the next id keeps the table in rowid order |
| Tables.FindTransaction | app.py:292 | a found index holds the id; `None` means no row has it |
| Tables.FindGoal | app.py:437 | a found index holds the id; `None` means no row has it |
| Tables.FindBudget | app.py:339 | the first row matching the (user, category) pair; `None` means there is none |
| Tables.Without | app.py:295 | deleting row `i` keeps the rows before it and shifts the rest |
| Tables.ChosenCategory | app.py:271 | the selected category, else the typed one, else "Інше"; never empty |
| Tables.NewTransaction | app.py:273-281 | (defines the row `add_transaction` builds: the parsed amount, the category of `Tables.ChosenCategory`, "Cash" and today's date by default; `Tables.NewTransactionDatedToday` proves a dateless row lands in the current month) |
| Tables.NewTransactionDatedToday | app.py:279 | a transaction without a date lands in the current budget-page month |
| Tables.SaveBudgetRows | app.py:339-344 | (defines the upsert: the amount of the first (user, category) row is replaced, or a new row is appended) |
| Tables.SaveBudgetEffect | app.py:339-344 | an existing (user, category) row only changes its amount; otherwise exactly one row is appended |
| Tables.SaveBudgetLookup | app.py:339-344 | after saving, the lookup finds the row with the new amount |
| Tables.SaveBudgetUnique | app.py:339-344 | a unique (user, category) table stays unique |
| Tables.SaveBudgetOthers | app.py:339-344 | other users' budgets are unchanged |
| Tables.FindBudgetFirst | app.py:339 | the first matching row is the one `.first()` returns |
| Tables.FindBudgetLowestId | app.py:339 | in a table in rowid order, the row `.first()` returns has the smallest id among the matching rows |
| Tables.UpdateBudgetRows | app.py:368-369 | (defines the rename: the found row gets the new category and amount, every other row is kept) |
| Tables.UpdateBudgetDuplicates | app.py:363-369 | renaming "fun" to an existing "food" leaves two "food" rows for one user |
| Tables.UpdateBudgetUnique | app.py:363-369 | the rename keeps categories unique when the new name is not already the user's |
| Tables.DeleteBudgetRemoves | app.py:379-381 | in a unique table, deleting the match leaves no row for that pair and keeps uniqueness |
| Tables.NewGoal | app.py:411-426 | (defines the goal `add_savings` builds when both amounts parse, current defaulting to "0"; `Store.Database.AddSavings` proves the table changes only then) |
| Tables.GoalAmount | app.py:446-447 | (defines the corrected amount reading: a missing field keeps the stored amount, a present one is parsed; `Tables.GoalAmountMissingField` and `Tables.GoalAmountPresentField` prove how it differs from and agrees with the code as written) |
| Tables.GoalAmountAsWritten | app.py:446-447 | (as written) a present field parses as usual; a missing field never parses |
| Tables.GoalAmountMissingField | app.py:446-447 | without the field, the code raises `ValueError` for a stored 0 and crashes otherwise, while the intended version keeps the stored amount |
| Tables.GoalAmountPresentField | app.py:446-447 | with the field present, both versions agree |
| Tables.EditedGoal | app.py:452-455 | (defines the edited goal: id and owner kept, name defaulting to the old one, the deadline always taken from the form, the new amounts; `Tables.EmptyEditKeepsGoal` and `Tables.GoalsOfUpdate` prove what an edit keeps) |
| Tables.EmptyEditKeepsGoal | app.py:443-455 | an empty edit keeps the goal except that the deadline is cleared |
| Tables.OwnedByConcat | app.py:168 | the user filter distributes over concatenation |
| Tables.OwnedByWithout | app.py:294-295 | deleting another user's transaction does not change this user's |
| Tables.BudgetsOfWithout | app.py:380-381 | deleting another user's budget does not change this user's |
| Tables.BudgetsOfUpdate | app.py:368-369 | changing another user's budget row does not change this user's |
| Tables.GoalsOfWithout | app.py:466-467 | deleting another user's goal does not change this user's |
| Tables.GoalsOfUpdate | app.py:452-455 | changing another user's goal does not change this user's |
| Store.WithoutUnique | app.py:295 | deleting a row keeps ids unique |
| Store.WithoutAscending | app.py:295 | deleting a row keeps the table in rowid order |
| Store.Database.ValidUnique | app.py:168 | a valid database has unique ids in every table |
| Store.Database.constructor | app.py:62-64 | the tables start empty and valid |
| Store.Database.AddTransaction | app.py:261-285 | a failed parse changes nothing; otherwise exactly the new row is appended with a fresh id |
| Store.Database.DeleteTransaction | app.py:290-298 | the row is removed only if it exists and is the user's; otherwise nothing changes |
| Store.Database.SaveBudget | app.py:330-348 | a failed parse changes nothing; otherwise an upsert by (user, stripped category); other users untouched |
| Store.Database.UpdateBudget | app.py:353-372 | a failed parse or a missing old category changes nothing; otherwise the first match is renamed and re-amounted |
| Store.Database.DeleteBudget | app.py:377-386 | the first match is removed; without one nothing changes |
| Store.Database.AddSavings | app.py:409-430 | both amounts must parse before a goal is appended |
| Store.Database.UpdateGoal | app.py:435-458 | a missing or foreign goal or a failed parse changes nothing; otherwise only the goal's editable fields change |
| Store.Database.DeleteGoal | app.py:463-472 | the goal is removed only if it exists and is the user's |

## Left out

- Flask routing, `render_template`, `flash`, `redirect`, the session, `current_user` and `login_required` (app.py:75-92) are web plumbing. The handlers receive the user id and the form fields as parameters.
- `register`, `login` and `logout` are not modelled: they deal with authentication, and password hashing is a foreign library call.
- SQLAlchemy queries, `commit`, `create_all` and `check_db` are persistence I/O. The tables are in-memory sequences, and a handler's changes are applied at once, as its single `commit` does.
- Python's `float()` is an abstract parser parameter, and amounts are exact reals: binary floating point, rounding error and `inf`/`nan` are not modelled.
- `round(daily[d], 2)` (app.py:190) is left out: daily values are unrounded.
- `int()` is modelled for ASCII digits, an optional sign, single underscores, the whitespace `int()` skips and the default limit of 4300 digits. Non-ASCII Unicode digits, which Python also accepts, are not modelled, and neither is a limit changed through `PYTHONINTMAXSTRDIGITS`.
- `MONTHS_UA`, `months_list`, `years_list` and the `KeyError` an out-of-range month raises at app.py:217 are presentation only. The selector itself accepts any integer month.
- `transactions_view` (app.py:238-256) is left out: it is a database query ordered by date, plus a list of budget categories.
- Missing required form fields (`request.form["..."]`), which Flask answers with HTTP 400, are left out: the model's required fields are always present.
- A NULL category is modelled as the empty string. On the dashboard both become "Інше" (app.py:180). On the budget page the raw category is the key (app.py:318), so there `None` and `""` are two keys, and the model merges them into the one key `""` (see `DashboardProperties.SpendingKeepsBlankCategory`). Rows added through `add_transaction` always have a non-empty category (app.py:271).
- The queries at app.py:168, app.py:193, app.py:195, app.py:313, app.py:339, app.py:363 and app.py:379 have no `ORDER BY`, so SQLite returns rows in rowid order. The model reads them in sequence order, and `Store.Database.Valid` keeps every table in ascending id order, so the two agree; SQLite does not formally promise that order for a query without `ORDER BY`.
- `today.strftime("%Y-%m")` below year 1000 is left out: CPython hands `%Y` to the C library, whose padding of such years differs between platforms, and `Period.TodayPrefix` always pads to four digits.
- SQLite's fallback to a random rowid once the largest id reaches 2^63 - 1 is left out: ids are unbounded integers.
- Store.Database.UpdateGoal: a missing amount field keeps the stored amount (Tables.GoalAmount). The code instead fails there, as "## Findings" records; Tables.GoalAmountAsWritten models that failure separately.

## Findings

| source | as written | input that shows it | evidently intended | confidence | as-written member | corrected member |
|---|---|---|---|---|---|---|
| app.py:446-447 | `parse_number(request.form.get("target", g.target))` falls back to the stored float, and `parse_number` then calls `.strip()` on it | an edit form without a `target` field: a stored target of 0.0 becomes `""` and `float("")` raises `ValueError`; any other stored value raises `AttributeError` (HTTP 500) | a missing field keeps the stored amount | high, not executed | Tables.GoalAmountAsWritten (shown by Tables.GoalAmountMissingField) | Tables.GoalAmount (used by Store.Database.UpdateGoal) |
