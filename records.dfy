/** The stored documents the routes read and write, as values. */
module Records {
  import opened Wrappers

  /** A calendar day. The import stores the midnight instant `strptime` gives, and the add
      form sends the midnight instant of the day picked, so a day is all the time information
      the routes and the client compare. */
  datatype Date = Date(day: int, month: int, year: int)

  /** A sort key that orders days chronologically (for months up to 99 and days up to 99). */
  function DateKey(d: Date): int {
    d.year * 10000 + d.month * 100 + d.day
  }

  /** A document of the `expenses` collection. `category` and `period` may be null or absent. */
  datatype Expense = Expense(
    date: Date,
    description: string,
    amount: real,
    currency: string,
    category: Option<string>,
    period: Option<string>)

  /** One item of a stored budget, after validation has given it a `tags` list. */
  datatype BudgetItem = BudgetItem(category: string, amount: real, currency: string, tags: seq<string>)

  /** The `exchangeRate` field of a budget document: absent, explicitly null, or a number. */
  datatype Rate = Absent | Null | Given(value: real)

  /** A document of the `budgets` collection; its `period` is the key of the store's map. */
  datatype Budget = Budget(items: seq<BudgetItem>, exchangeRate: Rate)

  /** The HTTP errors the routes raise. */
  datatype HttpError = BadRequest | NotFound | ServerError
}
