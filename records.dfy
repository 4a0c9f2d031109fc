/**
 * The rows the application stores. Every row carries the id of the user who
 * owns it; amounts are real numbers (the database keeps them as floats).
 */
module Records {
  import opened Wrappers

  /** A calendar date, as `datetime.date` holds it. */
  datatype Date = Date(year: int, month: int, day: int)

  /**
   * An income or expense. `kind` is the `type` column ("income" or "expense"
   * when written by the application); a NULL category is the empty string.
   */
  datatype Transaction = Transaction(
    id: int,
    userId: int,
    kind: string,
    category: string,
    amount: real,
    paymentMethod: string,
    date: string,
    description: string)

  /** A spending limit for one category. */
  datatype Budget = Budget(id: int, userId: int, category: string, amount: real)

  /** A savings goal. `current` and `target` are independent: nothing keeps `current <= target`. */
  datatype Goal = Goal(id: int, userId: int, name: string, target: real, current: real, deadline: Option<string>)

  const Income: string := "income"
  const Expense: string := "expense"

  /** The category a blank one is shown under ("Other"). */
  const OtherCategory: string := "Інше"
}
