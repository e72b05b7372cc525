/** Budget documents: item validation for `POST /budget` and `PUT /budget/{period}`, the
    per-category summary of `GET /budget/{period}` and the details of
    `GET /budget/{period}/details`. */
module BudgetRules {
  import opened Wrappers
  import opened Records

  // ---------------------------------------------------------------------------------------
  // Item validation

  /** One element of the request's `items` list; `None` marks a key the element lacks. */
  datatype ItemRequest = ItemRequest(
    category: Option<string>,
    amount: Option<real>,
    currency: Option<string>,
    tags: Option<seq<string>>)

  predicate HasRequiredKeys(it: ItemRequest) {
    it.category.Some? && it.amount.Some? && it.currency.Some?
  }

  /** The stored form of a valid element: a missing `tags` becomes the empty list. */
  function StoredItem(it: ItemRequest): (b: BudgetItem)
    requires HasRequiredKeys(it)
    ensures b.category == it.category.value && b.amount == it.amount.value
    ensures b.currency == it.currency.value
    ensures b.tags == (if it.tags.None? then [] else it.tags.value)
  {
    BudgetItem(it.category.value, it.amount.value, it.currency.value, it.tags.GetOr([]))
  }

  /** The items a request stores, or `None` where an element lacks a required key and the
      route answers 400. */
  function ValidItems(items: seq<ItemRequest>): (r: Option<seq<BudgetItem>>)
    ensures r.Some? <==> forall i :: 0 <= i < |items| ==> HasRequiredKeys(items[i])
    ensures r.Some? ==> |r.value| == |items|
    ensures r.Some? ==> forall i :: 0 <= i < |items| ==> r.value[i] == StoredItem(items[i])
    decreases |items|
  {
    if items == [] then Some([])
    else if !HasRequiredKeys(items[0]) then None
    else match ValidItems(items[1..])
      case None => None
      case Some(rest) => Some([StoredItem(items[0])] + rest)
  }

  /** The `exchangeRate` the write routes store: `body.get("exchangeRate")` is null both when
      the key is missing and when it is null. */
  function StoredRate(rate: Option<real>): (r: Rate)
    ensures r.Absent? == false
    ensures rate.None? <==> r.Null?
    ensures rate.Some? ==> r == Given(rate.value)
  {
    if rate.None? then Null else Given(rate.value)
  }

  // ---------------------------------------------------------------------------------------
  // Summary

  /** The expenses the summary's aggregation matches: this period and this category. */
  predicate Counted(e: Expense, period: string, category: string) {
    e.period == Some(period) && e.category == Some(category)
  }

  /** The sum of the matched amounts in USD (`usd`) or in any other currency (`!usd`). */
  function CurrencySum(es: seq<Expense>, period: string, category: string, usd: bool): real
    decreases |es|
  {
    if es == [] then 0.0
    else
      var e := es[|es| - 1];
      CurrencySum(es[..|es| - 1], period, category, usd)
      + (if Counted(e, period, category) && (e.currency == "USD") == usd then e.amount else 0.0)
  }

  /** Whether the aggregation yields a USD group for this category. */
  predicate HasUsdGroup(es: seq<Expense>, period: string, category: string) {
    exists i :: 0 <= i < |es| && Counted(es[i], period, category) && es[i].currency == "USD"
  }

  /** The converted total of one category: other currencies as they are, USD at `rate`. */
  function CategoryTotal(es: seq<Expense>, period: string, category: string, rate: real): real {
    CurrencySum(es, period, category, false) + CurrencySum(es, period, category, true) * rate
  }

  datatype SummaryEntry = SummaryEntry(category: string, budgetAmount: real, totalExpenses: real, remaining: real)

  /** One entry per budget item, in item order. */
  function SummaryEntries(es: seq<Expense>, period: string, items: seq<BudgetItem>, rate: real)
    : (r: seq<SummaryEntry>)
    ensures |r| == |items|
    ensures forall i :: 0 <= i < |items| ==>
      r[i].category == items[i].category && r[i].budgetAmount == items[i].amount
      && r[i].totalExpenses == CategoryTotal(es, period, items[i].category, rate)
      && r[i].remaining == items[i].amount - r[i].totalExpenses
  {
    seq(|items|, i requires 0 <= i < |items| =>
      var total := CategoryTotal(es, period, items[i].category, rate);
      SummaryEntry(items[i].category, items[i].amount, total, items[i].amount - total))
  }

  /** `budget.get("exchangeRate", 1)`, with a stored null read as the default too. */
  function SummaryRate(r: Rate): real {
    match r
    case Given(v) => v
    case _ => 1.0
  }

  /** `GET /budget/{period}`: 404 without a budget, otherwise the entries. A null rate counts
      as 1, the default the route means to apply. */
  function Summary(es: seq<Expense>, budgets: map<string, Budget>, period: string)
    : Result<seq<SummaryEntry>, HttpError>
  {
    if period !in budgets then Failure(NotFound)
    else
      var b := budgets[period];
      Success(SummaryEntries(es, period, b.items, SummaryRate(b.exchangeRate)))
  }

  /** The route as written: `.get("exchangeRate", 1)` returns the stored null, and
      `total * None` raises (500) at the first item whose category has USD expenses. */
  function SummaryAsWritten(es: seq<Expense>, budgets: map<string, Budget>, period: string)
    : Result<seq<SummaryEntry>, HttpError>
  {
    if period !in budgets then Failure(NotFound)
    else
      var b := budgets[period];
      if b.exchangeRate.Null? && exists i :: 0 <= i < |b.items| && HasUsdGroup(es, period, b.items[i].category)
      then Failure(ServerError)
      else Success(SummaryEntries(es, period, b.items, SummaryRate(b.exchangeRate)))
  }

  /** Unless a null rate meets a USD expense, the route as written and the corrected summary
      agree. */
  lemma SummaryAsWrittenAgrees(es: seq<Expense>, budgets: map<string, Budget>, period: string)
    requires period in budgets ==> !budgets[period].exchangeRate.Null?
    ensures SummaryAsWritten(es, budgets, period) == Summary(es, budgets, period)
  {
  }

  /** A budget stored without `exchangeRate` and one USD expense in a budgeted category make
      the summary fail with 500, where the corrected summary reports the expense at rate 1. */
  lemma SummaryNullRateFails()
    ensures var es := [Expense(Date(5, 1, 2024), "AMAZON", 10.0, "USD", Some("Shopping"), Some("2024-01"))];
      var budgets := map["2024-01" := Budget([BudgetItem("Shopping", 100.0, "CRC", [])], StoredRate(None))];
      SummaryAsWritten(es, budgets, "2024-01") == Failure(ServerError)
      && Summary(es, budgets, "2024-01") == Success([SummaryEntry("Shopping", 100.0, 10.0, 90.0)])
  {
    var es := [Expense(Date(5, 1, 2024), "AMAZON", 10.0, "USD", Some("Shopping"), Some("2024-01"))];
    var budgets := map["2024-01" := Budget([BudgetItem("Shopping", 100.0, "CRC", [])], StoredRate(None))];
    var b := budgets["2024-01"];
    assert b.exchangeRate.Null?;
    assert HasUsdGroup(es, "2024-01", b.items[0].category) by { assert Counted(es[0], "2024-01", "Shopping"); }
    assert es[..0] == [];
    assert CurrencySum(es, "2024-01", "Shopping", true) == 10.0;
    assert CurrencySum(es, "2024-01", "Shopping", false) == 0.0;
    var entries := SummaryEntries(es, "2024-01", b.items, 1.0);
    assert entries[0] == SummaryEntry("Shopping", 100.0, 10.0, 90.0);
    assert entries == [SummaryEntry("Shopping", 100.0, 10.0, 90.0)];
  }

  /** The totals add up over the expenses. */
  lemma {:induction false} CurrencySumConcat(a: seq<Expense>, b: seq<Expense>, period: string, category: string, usd: bool)
    ensures CurrencySum(a + b, period, category, usd)
         == CurrencySum(a, period, category, usd) + CurrencySum(b, period, category, usd)
    decreases |b|
  {
    if b == [] {
      assert a + b == a;
    } else {
      CurrencySumConcat(a, b[..|b| - 1], period, category, usd);
      assert (a + b)[..|a + b| - 1] == a + b[..|b| - 1];
    }
  }

  /** A category's total is additive over the expenses. */
  lemma CategoryTotalConcat(a: seq<Expense>, b: seq<Expense>, period: string, category: string, rate: real)
    ensures CategoryTotal(a + b, period, category, rate)
         == CategoryTotal(a, period, category, rate) + CategoryTotal(b, period, category, rate)
  {
    CurrencySumConcat(a, b, period, category, false);
    CurrencySumConcat(a, b, period, category, true);
  }

  /** With no expense of that period and category the total is 0 and `remaining` is the whole
      budget amount. */
  lemma {:induction false} CategoryTotalNone(es: seq<Expense>, period: string, category: string, rate: real)
    requires forall i :: 0 <= i < |es| ==> !Counted(es[i], period, category)
    ensures CategoryTotal(es, period, category, rate) == 0.0
  {
    CurrencySumNone(es, period, category, false);
    CurrencySumNone(es, period, category, true);
  }

  lemma {:induction false} CurrencySumNone(es: seq<Expense>, period: string, category: string, usd: bool)
    requires forall i :: 0 <= i < |es| ==> !Counted(es[i], period, category)
    ensures CurrencySum(es, period, category, usd) == 0.0
    decreases |es|
  {
    if es != [] {
      var init := es[..|es| - 1];
      assert forall i :: 0 <= i < |init| ==> init[i] == es[i];
      CurrencySumNone(init, period, category, usd);
    }
  }

  /** Each expense adds its amount to its own category's total, converted when in USD, and
      leaves every other category and period alone. */
  lemma CategoryTotalOfAppend(es: seq<Expense>, e: Expense, period: string, category: string, rate: real)
    ensures CategoryTotal(es + [e], period, category, rate)
         == CategoryTotal(es, period, category, rate)
            + (if !Counted(e, period, category) then 0.0
               else if e.currency == "USD" then e.amount * rate else e.amount)
  {
    assert (es + [e])[..|es|] == es;
    assert (es + [e])[|es|] == e;
  }

  // ---------------------------------------------------------------------------------------
  // Details

  /** `budget.get("exchangeRate", 600)`: the details route defaults a missing rate to 600,
      while a stored null is returned as null. */
  function DetailsRate(r: Rate): (d: Rate)
    ensures r.Absent? ==> d == Given(600.0)
    ensures !r.Absent? ==> d == r
  {
    if r.Absent? then Given(600.0) else r
  }

  datatype Details = Details(period: string, exchangeRate: Rate, items: seq<BudgetItem>)

  /** `GET /budget/{period}/details`. */
  function BudgetDetails(budgets: map<string, Budget>, period: string): (r: Result<Details, HttpError>)
    ensures period !in budgets <==> r == Failure(NotFound)
    ensures period in budgets ==> r == Success(Details(period, DetailsRate(budgets[period].exchangeRate), budgets[period].items))
  {
    if period !in budgets then Failure(NotFound)
    else Success(Details(period, DetailsRate(budgets[period].exchangeRate), budgets[period].items))
  }

  /** The two routes read a budget without a rate differently: the summary at 1, the details
      as 600. */
  lemma MissingRateDefaults(es: seq<Expense>, period: string, items: seq<BudgetItem>)
    ensures var budgets := map[period := Budget(items, Absent)];
      Summary(es, budgets, period) == Success(SummaryEntries(es, period, items, 1.0))
      && BudgetDetails(budgets, period).value.exchangeRate == Given(600.0)
  {
  }
}
