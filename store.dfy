/** The routes of `fintracker/app/routes.py` over an in-memory store: the `expenses`
    collection as a sequence of documents and the `budgets` collection as a map from period
    to budget. */
module Routes {
  import opened Wrappers
  import opened Text
  import opened Records
  import opened Seqs
  import opened Codec
  import opened LineParse
  import opened ImportRules
  import opened BudgetRules
  import opened TagRules
  import opened Listing
  import opened Sorting

  /** The response of the recalculation route: `total_expenses` is absent when the period has
      no expenses. */
  datatype RecalcResult = RecalcResult(updatedCount: nat, totalExpenses: Option<nat>)

  /** An element with every required key and a `tags` list. */
  function WithDefaultTags(it: ItemRequest): (r: ItemRequest)
    ensures HasRequiredKeys(it) ==> HasRequiredKeys(r) && StoredItem(r) == StoredItem(it)
    ensures r.tags.Some?
  {
    it.(tags := Some(it.tags.GetOr([])))
  }

  /** The validation loop of both write routes, in place: it stops at the first element that
      lacks `category`, `amount` or `currency` and gives `tags = []` to each valid element that
      has none. */
  method FillDefaultTags(items: array<ItemRequest>) returns (valid: bool)
    modifies items
    ensures valid <==> forall i :: 0 <= i < items.Length ==> HasRequiredKeys(old(items[i]))
    ensures valid ==> forall i :: 0 <= i < items.Length ==> items[i] == WithDefaultTags(old(items[i]))
  {
    var i := 0;
    while i < items.Length
      invariant 0 <= i <= items.Length
      invariant forall k :: 0 <= k < i ==>
        HasRequiredKeys(old(items[k])) && items[k] == WithDefaultTags(old(items[k]))
      invariant forall k :: i <= k < items.Length ==> items[k] == old(items[k])
    {
      if !HasRequiredKeys(items[i]) {
        return false;
      }
      if items[i].tags.None? {
        items[i] := items[i].(tags := Some([]));
      }
      i := i + 1;
    }
    return true;
  }

  /** The items a write route stores, or `None` for a 400. */
  method ValidateItems(items: seq<ItemRequest>) returns (r: Option<seq<BudgetItem>>)
    ensures r == ValidItems(items)
  {
    var a := new ItemRequest[|items|](i requires 0 <= i < |items| => items[i]);
    assert a[..] == items;
    var valid := FillDefaultTags(a);
    if !valid {
      return None;
    }
    var filled := a[..];
    r := Some(seq(|filled|, i requires 0 <= i < |filled| && HasRequiredKeys(filled[i]) => StoredItem(filled[i])));
    assert r.value == ValidItems(items).value;
  }

  /** The loop over the statement's lines: each line that parses, names CRC or USD and
      matches no document of `stored` is appended to the batch. */
  method ImportLines(stored: seq<Expense>, lines: seq<string>, pid: string) returns (newExpenses: seq<Expense>)
    ensures newExpenses == ImportBatch(stored, lines, pid)
  {
    newExpenses := [];
    var i := 0;
    while i < |lines|
      invariant 0 <= i <= |lines|
      invariant newExpenses == ImportBatch(stored, lines[..i], pid)
    {
      assert lines[..i + 1][..i] == lines[..i];
      var parsed := ParseLine(lines[i]);
      if parsed.Some? && IsCurrency(parsed.value.currency) && !IsDuplicate(stored, parsed.value) {
        newExpenses := newExpenses + [NewExpense(parsed.value, pid)];
      }
      i := i + 1;
    }
    assert lines[..|lines|] == lines;
  }

  /** `tag_to_category`, built by the route's two nested loops. */
  method BuildTagMap(items: seq<BudgetItem>) returns (m: seq<TagEntry>)
    ensures m == TagMap(items)
  {
    m := [];
    var i := 0;
    while i < |items|
      invariant 0 <= i <= |items|
      invariant m == PutAll(Assignments(items[..i]))
    {
      m := PutTags(m, items[i], Assignments(items[..i]));
      assert items[..i + 1][..i] == items[..i];
      assert Assignments(items[..i + 1]) == Assignments(items[..i]) + ItemEntries(items[i]);
      i := i + 1;
    }
    assert items[..|items|] == items;
  }

  /** The inner loop: `tag_to_category[tag.lower()] = category` for each tag of one item. */
  method PutTags(m0: seq<TagEntry>, item: BudgetItem, ghost before: seq<TagEntry>) returns (m: seq<TagEntry>)
    requires m0 == PutAll(before)
    ensures m == PutAll(before + ItemEntries(item))
  {
    m := m0;
    var entries := ItemEntries(item);
    var j := 0;
    assert before + entries[..0] == before;
    while j < |item.tags|
      invariant 0 <= j <= |item.tags|
      invariant m == PutAll(before + entries[..j])
    {
      PutAllStep(before, entries, j);
      m := Put(m, Lower(item.tags[j]), item.category);
      j := j + 1;
    }
    assert entries[..|item.tags|] == entries;
  }

  lemma PutAllStep(before: seq<TagEntry>, entries: seq<TagEntry>, j: int)
    requires 0 <= j < |entries|
    ensures PutAll(before + entries[..j + 1]) == Put(PutAll(before + entries[..j]), entries[j].tag, entries[j].category)
  {
    var ps := before + entries[..j + 1];
    assert ps[..|ps| - 1] == before + entries[..j];
  }

  /** The matching loop: the first entry whose tag occurs in the lowered description, or
      "Default". */
  method Classify(m: seq<TagEntry>, description: string) returns (c: string)
    ensures c == Categorize(m, description)
  {
    var d := Lower(description);
    var newCategory: Option<string> := None;
    var i := 0;
    while i < |m|
      invariant 0 <= i <= |m|
      invariant newCategory.None?
      invariant forall j :: 0 <= j < i ==> !IsSubstring(m[j].tag, d)
    {
      if IsSubstring(m[i].tag, d) {
        CategorizeRule(m, description, i);
        newCategory := Some(m[i].category);
        break;
      }
      i := i + 1;
    }
    if newCategory.None? {
      CategorizeDefault(m, description);
      c := "Default";
    } else {
      c := newCategory.value;
    }
  }

  class Store {
    var expenses: seq<Expense>
    var budgets: map<string, Budget>

    constructor (expenses0: seq<Expense>, budgets0: map<string, Budget>)
      ensures expenses == expenses0 && budgets == budgets0
    {
      expenses := expenses0;
      budgets := budgets0;
    }

    /** `POST /import`: the number of documents inserted, or 400. */
    method Import(periodId: Option<string>, rawText: Option<string>) returns (r: Result<nat, HttpError>)
      modifies this
      ensures budgets == old(budgets)
      ensures ImportRequest(old(expenses), periodId, rawText).Failure? ==>
        r == Failure(BadRequest) && expenses == old(expenses)
      ensures ImportRequest(old(expenses), periodId, rawText).Success? ==>
        var batch := ImportRequest(old(expenses), periodId, rawText).value;
        expenses == old(expenses) + batch && r == Success(|batch|)
    {
      if periodId.None? || periodId.value == "" || rawText.None? || rawText.value == "" {
        return Failure(BadRequest);
      }
      var decoded := DecodeImportText(rawText.value);
      if decoded.None? {
        return Failure(BadRequest);
      }
      var newExpenses := ImportLines(expenses, Lines(decoded.value), periodId.value);
      expenses := expenses + newExpenses;
      r := Success(|newExpenses|);
    }

    /** `POST /budget`: creates or replaces the budget of `period`; the result is
        `matched_count`. */
    method Upsert(period: Option<string>, rate: Option<real>, items: Option<seq<ItemRequest>>)
      returns (r: Result<nat, HttpError>)
      modifies this
      ensures expenses == old(expenses)
      ensures period.None? || period.value == "" || items.None? || ValidItems(items.value).None? ==>
        r == Failure(BadRequest) && budgets == old(budgets)
      ensures period.Some? && period.value != "" && items.Some? && ValidItems(items.value).Some? ==>
        budgets == old(budgets)[period.value := Budget(ValidItems(items.value).value, StoredRate(rate))]
        && r == Success(if period.value in old(budgets) then 1 else 0)
    {
      if period.None? || period.value == "" || items.None? {
        return Failure(BadRequest);
      }
      var stored := ValidateItems(items.value);
      if stored.None? {
        return Failure(BadRequest);
      }
      var matched := if period.value in budgets then 1 else 0;
      budgets := budgets[period.value := Budget(stored.value, StoredRate(rate))];
      r := Success(matched);
    }

    /** `PUT /budget/{period}`: replaces the items and rate of an existing budget; the result
        is `modified_count`. */
    method Update(period: string, rate: Option<real>, items: Option<seq<ItemRequest>>)
      returns (r: Result<nat, HttpError>)
      modifies this
      ensures expenses == old(expenses)
      ensures items.None? || ValidItems(items.value).None? ==>
        r == Failure(BadRequest) && budgets == old(budgets)
      ensures items.Some? && ValidItems(items.value).Some? && period !in old(budgets) ==>
        r == Failure(NotFound) && budgets == old(budgets)
      ensures items.Some? && ValidItems(items.value).Some? && period in old(budgets) ==>
        var updated := Budget(ValidItems(items.value).value, StoredRate(rate));
        budgets == old(budgets)[period := updated]
        && r == Success(if old(budgets)[period] == updated then 0 else 1)
    {
      if items.None? {
        return Failure(BadRequest);
      }
      var stored := ValidateItems(items.value);
      if stored.None? {
        return Failure(BadRequest);
      }
      if period !in budgets {
        return Failure(NotFound);
      }
      var updated := Budget(stored.value, StoredRate(rate));
      var modified := if budgets[period] == updated then 0 else 1;
      budgets := budgets[period := updated];
      r := Success(modified);
    }

    /** The aggregation of one category: the matched non-USD amounts plus the matched USD
        amounts converted at `rate`. */
    method CategoryTotalOf(period: string, category: string, rate: real) returns (total: real)
      ensures total == CategoryTotal(expenses, period, category, rate)
    {
      var usd, other := 0.0, 0.0;
      var j := 0;
      while j < |expenses|
        invariant 0 <= j <= |expenses|
        invariant usd == CurrencySum(expenses[..j], period, category, true)
        invariant other == CurrencySum(expenses[..j], period, category, false)
      {
        assert expenses[..j + 1][..j] == expenses[..j];
        var e := expenses[j];
        if Counted(e, period, category) {
          if e.currency == "USD" {
            usd := usd + e.amount;
          } else {
            other := other + e.amount;
          }
        }
        j := j + 1;
      }
      assert expenses[..|expenses|] == expenses;
      total := other + usd * rate;
    }

    /** `GET /budget/{period}`. */
    method BudgetSummary(period: string) returns (r: Result<seq<SummaryEntry>, HttpError>)
      ensures r == Summary(expenses, budgets, period)
    {
      if period !in budgets {
        return Failure(NotFound);
      }
      var b := budgets[period];
      var rate := SummaryRate(b.exchangeRate);
      var entries: seq<SummaryEntry> := [];
      var i := 0;
      while i < |b.items|
        invariant 0 <= i <= |b.items|
        invariant entries == SummaryEntries(expenses, period, b.items[..i], rate)
      {
        var item := b.items[i];
        var total := CategoryTotalOf(period, item.category, rate);
        entries := entries + [SummaryEntry(item.category, item.amount, total, item.amount - total)];
        assert b.items[..i + 1][..i] == b.items[..i];
        i := i + 1;
      }
      assert b.items[..|b.items|] == b.items;
      r := Success(entries);
    }

    /** `GET /periods`: every stored period once, most recent (greatest) first. */
    method AvailablePeriods() returns (ps: seq<string>)
      ensures StrictlySorted(ps, true)
      ensures forall x :: x in ps <==> exists i :: 0 <= i < |expenses| && expenses[i].period == Some(x)
    {
      var periods := KnownPeriods(expenses);
      var a := new string[|periods|](i requires 0 <= i < |periods| => periods[i]);
      assert a[..] == periods;
      SortStrings(a, true);
      ps := a[..];
      KnownPeriodsRule(expenses);
      NoDupsOfPermutation(ps, periods);
      SortedDistinctIsStrict(ps, true);
      assert forall x :: x in ps <==> x in multiset(periods);
    }

    /** `GET /categories`: every stored category other than "N/A" once, in ascending order. */
    method AvailableCategories() returns (cs: seq<string>)
      ensures StrictlySorted(cs, false)
      ensures forall x :: x in cs <==>
        x != "N/A" && exists i :: 0 <= i < |expenses| && expenses[i].category == Some(x)
    {
      var categories := KnownCategories(expenses);
      var a := new string[|categories|](i requires 0 <= i < |categories| => categories[i]);
      assert a[..] == categories;
      SortStrings(a, false);
      cs := a[..];
      KnownCategoriesRule(expenses);
      NoDupsOfPermutation(cs, categories);
      SortedDistinctIsStrict(cs, false);
      assert forall x :: x in cs <==> x in multiset(categories);
    }

    /** `POST /budget/{period}/recalculate`. */
    method Recalculate(period: string) returns (r: Result<RecalcResult, HttpError>)
      modifies this
      ensures budgets == old(budgets)
      ensures period !in old(budgets) ==> r == Failure(NotFound) && expenses == old(expenses)
      ensures period in old(budgets) && PeriodCount(old(expenses), period) == 0 ==>
        r == Success(RecalcResult(0, None)) && expenses == old(expenses)
      ensures period in old(budgets) && PeriodCount(old(expenses), period) > 0 ==>
        var m := TagMap(old(budgets)[period].items);
        expenses == Recategorize(old(expenses), period, m)
        && r == Success(RecalcResult(UpdateCount(old(expenses), period, m), Some(PeriodCount(old(expenses), period))))
    {
      if period !in budgets {
        return Failure(NotFound);
      }
      var inPeriod := PeriodCount(expenses, period);
      if inPeriod == 0 {
        return Success(RecalcResult(0, None));
      }
      var m := BuildTagMap(budgets[period].items);
      var es := expenses;
      var updated := 0;
      var i := 0;
      while i < |es|
        invariant 0 <= i <= |es|
        invariant |expenses| == |es| && budgets == old(budgets)
        invariant forall k :: 0 <= k < i ==> expenses[k] == Recategorized(es[k], period, m)
        invariant forall k :: i <= k < |es| ==> expenses[k] == es[k]
        invariant updated == UpdateCount(es[..i], period, m)
      {
        assert es[..i + 1][..i] == es[..i];
        var e := es[i];
        if e.period == Some(period) {
          var c := Classify(m, e.description);
          if e.category != Some(c) {
            expenses := expenses[i := e.(category := Some(c))];
            updated := updated + 1;
          }
        }
        i := i + 1;
      }
      assert es[..|es|] == es;
      assert expenses == Recategorize(es, period, m);
      r := Success(RecalcResult(updated, Some(inPeriod)));
    }
  }
}
