/** The client's list computations in `ExpensesList.js` and `App.js`: the category filter
    with its "N/A" fallback, the stable most-recent-first sort and the per-currency totals. */
module Aggregate {
  import opened Wrappers
  import opened Records

  // ---------------------------------------------------------------------------------------
  // Category filter

  /** `expense.category || 'N/A'`: a null, absent or empty category shows as "N/A". */
  function ShownCategory(e: Expense): (c: string)
    ensures c != ""
    ensures e.category.Some? && e.category.value != "" ==> c == e.category.value
  {
    if e.category.None? || e.category.value == "" then "N/A" else e.category.value
  }

  predicate Passes(e: Expense, selected: seq<string>) {
    ShownCategory(e) in selected
  }

  /** `es.filter(...)`: the expenses whose shown category is selected, in order. */
  function Filter(es: seq<Expense>, selected: seq<string>): (r: seq<Expense>)
    ensures |r| <= |es|
    ensures forall k :: 0 <= k < |r| ==> Passes(r[k], selected)
    decreases |es|
  {
    if es == [] then []
    else
      var e := es[|es| - 1];
      Filter(es[..|es| - 1], selected) + (if Passes(e, selected) then [e] else [])
  }

  /** The filtered view before sorting: everything when nothing is selected. */
  function FilterByCategories(es: seq<Expense>, selected: seq<string>): seq<Expense> {
    if |selected| > 0 then Filter(es, selected) else es
  }

  lemma {:induction false} FilterConcat(a: seq<Expense>, b: seq<Expense>, selected: seq<string>)
    ensures Filter(a + b, selected) == Filter(a, selected) + Filter(b, selected)
    decreases |b|
  {
    if b == [] {
      assert a + b == a;
    } else {
      var init, e := b[..|b| - 1], b[|b| - 1];
      var tail := if Passes(e, selected) then [e] else [];
      FilterConcat(a, init, selected);
      assert (a + b)[..|a + b| - 1] == a + init && (a + b)[|a + b| - 1] == e;
      assert Filter(a + b, selected) == Filter(a + init, selected) + tail;
      assert Filter(b, selected) == Filter(init, selected) + tail;
    }
  }

  /** An expense is shown iff nothing is selected or its shown category is selected. */
  lemma {:induction false} FilterMembership(es: seq<Expense>, selected: seq<string>, e: Expense)
    ensures e in FilterByCategories(es, selected) <==> e in es && (|selected| == 0 || Passes(e, selected))
    decreases |es|
  {
    if |selected| > 0 && es != [] {
      var init := es[..|es| - 1];
      FilterMembership(init, selected, e);
      assert es == init + [es[|es| - 1]];
    }
  }

  /** `list.filter(cat => cat !== x)`. */
  function Without(s: seq<string>, x: string): (r: seq<string>)
    ensures forall y :: y in r <==> y in s && y != x
    decreases |s|
  {
    if s == [] then []
    else
      var last := s[|s| - 1];
      assert forall y :: y in s <==> y in s[..|s| - 1] || y == last;
      Without(s[..|s| - 1], x) + (if last == x then [] else [last])
  }

  lemma {:induction false} WithoutAbsent(s: seq<string>, x: string)
    requires x !in s
    ensures Without(s, x) == s
    decreases |s|
  {
    if s != [] {
      WithoutAbsent(s[..|s| - 1], x);
      assert s[..|s| - 1] + [s[|s| - 1]] == s;
    }
  }

  // ---------------------------------------------------------------------------------------
  // Most recent first, stable

  function Key(e: Expense): int {
    DateKey(e.date)
  }

  /** The expenses ordered most recent first. */
  predicate SortedByDate(s: seq<Expense>) {
    forall i, j :: 0 <= i < j < |s| ==> Key(s[i]) >= Key(s[j])
  }

  /** One step of a stable sort with comparator `new Date(b.date) - new Date(a.date)`: `x`
      moves before exactly the trailing elements with a strictly earlier date. */
  function Insert(s: seq<Expense>, x: Expense): (r: seq<Expense>)
    ensures |r| == |s| + 1
    decreases |s|
  {
    if s == [] || Key(s[|s| - 1]) >= Key(x) then s + [x]
    else Insert(s[..|s| - 1], x) + [s[|s| - 1]]
  }

  /** `Array.prototype.sort` with that comparator, which is stable. */
  function SortByDate(s: seq<Expense>): (r: seq<Expense>)
    ensures |r| == |s|
    decreases |s|
  {
    if s == [] then [] else Insert(SortByDate(s[..|s| - 1]), s[|s| - 1])
  }

  lemma {:induction false} InsertLowerBound(s: seq<Expense>, x: Expense, b: int)
    requires forall k :: 0 <= k < |s| ==> Key(s[k]) >= b
    requires Key(x) >= b
    ensures forall k :: 0 <= k < |s| + 1 ==> Key(Insert(s, x)[k]) >= b
    decreases |s|
  {
    if s != [] && Key(s[|s| - 1]) < Key(x) {
      InsertLowerBound(s[..|s| - 1], x, b);
    }
  }

  lemma {:induction false} InsertPermutes(s: seq<Expense>, x: Expense)
    ensures multiset(Insert(s, x)) == multiset(s) + multiset{x}
    decreases |s|
  {
    if s != [] && Key(s[|s| - 1]) < Key(x) {
      InsertPermutes(s[..|s| - 1], x);
      assert s == s[..|s| - 1] + [s[|s| - 1]];
    }
  }

  lemma {:induction false} InsertSorted(s: seq<Expense>, x: Expense)
    requires SortedByDate(s)
    ensures SortedByDate(Insert(s, x))
    decreases |s|
  {
    if s != [] && Key(s[|s| - 1]) < Key(x) {
      var init := s[..|s| - 1];
      var last := s[|s| - 1];
      assert SortedByDate(init);
      InsertSorted(init, x);
      InsertLowerBound(init, x, Key(last));
    }
  }

  /** The view is ordered most recent first and holds exactly the expenses of its input. */
  lemma {:induction false} SortByDateSorted(s: seq<Expense>)
    ensures SortedByDate(SortByDate(s))
    ensures multiset(SortByDate(s)) == multiset(s)
    decreases |s|
  {
    if s != [] {
      SortByDateSorted(s[..|s| - 1]);
      InsertSorted(SortByDate(s[..|s| - 1]), s[|s| - 1]);
      InsertPermutes(SortByDate(s[..|s| - 1]), s[|s| - 1]);
      assert s == s[..|s| - 1] + [s[|s| - 1]];
    }
  }

  /** The expenses of one date, in order. */
  function OnDate(s: seq<Expense>, k: int): seq<Expense>
    decreases |s|
  {
    if s == [] then []
    else OnDate(s[..|s| - 1], k) + (if Key(s[|s| - 1]) == k then [s[|s| - 1]] else [])
  }

  lemma {:induction false} InsertOnDate(s: seq<Expense>, x: Expense, k: int)
    ensures OnDate(Insert(s, x), k) == OnDate(s, k) + (if Key(x) == k then [x] else [])
    decreases |s|
  {
    if s == [] || Key(s[|s| - 1]) >= Key(x) {
      assert (s + [x])[..|s|] == s;
    } else {
      var init := s[..|s| - 1];
      var last := s[|s| - 1];
      InsertOnDate(init, x, k);
      var t := Insert(init, x);
      assert (t + [last])[..|t|] == t;
    }
  }

  /** Stability: expenses of equal date keep their input order. */
  lemma {:induction false} SortByDateStable(s: seq<Expense>, k: int)
    ensures OnDate(SortByDate(s), k) == OnDate(s, k)
    decreases |s|
  {
    if s != [] {
      SortByDateStable(s[..|s| - 1], k);
      InsertOnDate(SortByDate(s[..|s| - 1]), s[|s| - 1], k);
    }
  }

  /** Sorting a list that is already most recent first leaves it as it is. */
  lemma {:induction false} SortByDateOfSorted(s: seq<Expense>)
    requires SortedByDate(s)
    ensures SortByDate(s) == s
    decreases |s|
  {
    if s != [] {
      var init := s[..|s| - 1];
      assert SortedByDate(init);
      SortByDateOfSorted(init);
      assert init + [s[|s| - 1]] == s;
    }
  }

  /** Sorting twice is sorting once. */
  lemma SortByDateIdempotent(s: seq<Expense>)
    ensures SortByDate(SortByDate(s)) == SortByDate(s)
  {
    SortByDateSorted(s);
    SortByDateOfSorted(SortByDate(s));
  }

  // The in-place sort

  /** Where the shifting stops, `x` goes: after `t[..j]`, whose last element is not older, and
      before `t[j..]`, whose elements all are. */
  lemma {:induction false} InsertPlaced(t: seq<Expense>, x: Expense, j: int)
    requires 0 <= j <= |t| && (j == 0 || Key(t[j - 1]) >= Key(x))
    requires forall k :: j <= k < |t| ==> Key(t[k]) < Key(x)
    ensures Insert(t, x) == t[..j] + [x] + t[j..]
    ensures forall k :: 0 <= k < j ==> Insert(t, x)[k] == t[k]
    ensures Insert(t, x)[j] == x
    ensures forall k :: j < k <= |t| ==> Insert(t, x)[k] == t[k - 1]
    decreases |t|
  {
    if |t| == j {
      assert t[..j] == t && t[j..] == [];
    } else {
      var init := t[..|t| - 1];
      assert init[..j] == t[..j];
      InsertPlaced(init, x, j);
      assert t[j..] == init[j..] + [t[|t| - 1]];
    }
  }

  /** Sorting one more element inserts it into the sorted prefix. */
  lemma SortByDateStep(s: seq<Expense>, i: int)
    requires 0 <= i < |s|
    ensures Insert(SortByDate(s[..i]), s[i]) == SortByDate(s[..i + 1])
  {
    assert s[..i + 1][..i] == s[..i];
  }

  /** `array.sort((a, b) => new Date(b.date) - new Date(a.date))`, in place: an insertion sort
      that moves each element before the older ones. */
  method SortByDateInPlace(a: array<Expense>)
    modifies a
    ensures a[..] == SortByDate(old(a[..]))
  {
    ghost var s := a[..];
    var i := 0;
    while i < a.Length
      invariant 0 <= i <= a.Length
      invariant forall k :: 0 <= k < i ==> a[k] == SortByDate(s[..i])[k]
      invariant forall k :: i <= k < a.Length ==> a[k] == s[k]
    {
      SortByDateStep(s, i);
      InsertAt(a, i, SortByDate(s[..i]));
      i := i + 1;
    }
    assert s[..a.Length] == s;
  }

  /** One pass of the insertion sort: the elements before `a[i]` that are older than it move
      one place right, and `a[i]` goes into the gap. */
  method InsertAt(a: array<Expense>, i: int, ghost sorted: seq<Expense>)
    requires 0 <= i < a.Length && |sorted| == i
    requires forall k :: 0 <= k < i ==> a[k] == sorted[k]
    modifies a
    ensures forall k :: 0 <= k <= i ==> a[k] == Insert(sorted, old(a[i]))[k]
    ensures forall k :: i < k < a.Length ==> a[k] == old(a[k])
  {
    var x := a[i];
    var j := i;
    while j > 0 && Key(a[j - 1]) < Key(x)
      invariant 0 <= j <= i
      invariant forall k :: 0 <= k < j ==> a[k] == sorted[k]
      invariant forall k :: j < k <= i ==> a[k] == sorted[k - 1]
      invariant forall k :: i < k < a.Length ==> a[k] == old(a[k])
      invariant forall k :: j <= k < i ==> Key(sorted[k]) < Key(x)
    {
      a[j] := a[j - 1];
      j := j - 1;
    }
    a[j] := x;
    InsertPlaced(sorted, x, j);
    forall k | 0 <= k <= i ensures a[k] == Insert(sorted, x)[k] {
      if k < j {
        assert a[k] == sorted[k];
      } else if k > j {
        assert a[k] == sorted[k - 1];
      }
    }
  }

  // ---------------------------------------------------------------------------------------
  // Totals

  /** `es.filter(e => e.currency === c).reduce((sum, e) => sum + e.amount, 0)`. */
  function CurrencyTotal(es: seq<Expense>, c: string): real
    decreases |es|
  {
    if es == [] then 0.0
    else CurrencyTotal(es[..|es| - 1], c) + (if es[|es| - 1].currency == c then es[|es| - 1].amount else 0.0)
  }

  datatype Totals = Totals(crc: real, usd: real)

  /** The `{ CRC, USD }` object both components compute. */
  function TotalsOf(es: seq<Expense>): Totals {
    Totals(CurrencyTotal(es, "CRC"), CurrencyTotal(es, "USD"))
  }

  lemma {:induction false} CurrencyTotalConcat(a: seq<Expense>, b: seq<Expense>, c: string)
    ensures CurrencyTotal(a + b, c) == CurrencyTotal(a, c) + CurrencyTotal(b, c)
    decreases |b|
  {
    if b == [] {
      assert a + b == a;
    } else {
      CurrencyTotalConcat(a, b[..|b| - 1], c);
      assert (a + b)[..|a + b| - 1] == a + b[..|b| - 1];
    }
  }

  /** An expense in another currency counts toward neither total. */
  lemma {:induction false} OtherCurrencyIgnored(es: seq<Expense>, c: string)
    requires forall k :: 0 <= k < |es| ==> es[k].currency != c
    ensures CurrencyTotal(es, c) == 0.0
    decreases |es|
  {
    if es != [] {
      var init := es[..|es| - 1];
      assert forall k :: 0 <= k < |init| ==> init[k] == es[k];
      OtherCurrencyIgnored(init, c);
    }
  }

  lemma {:induction false} CurrencyTotalInsert(s: seq<Expense>, x: Expense, c: string)
    ensures CurrencyTotal(Insert(s, x), c) == CurrencyTotal(s, c) + (if x.currency == c then x.amount else 0.0)
    decreases |s|
  {
    if s == [] || Key(s[|s| - 1]) >= Key(x) {
      assert (s + [x])[..|s|] == s;
    } else {
      var init := s[..|s| - 1];
      CurrencyTotalInsert(init, x, c);
      var t := Insert(init, x);
      assert (t + [s[|s| - 1]])[..|t|] == t;
    }
  }

  /** Sorting does not change the totals. */
  lemma {:induction false} TotalsOfSorted(s: seq<Expense>)
    ensures TotalsOf(SortByDate(s)) == TotalsOf(s)
    decreases |s|
  {
    if s != [] {
      TotalsOfSorted(s[..|s| - 1]);
      CurrencyTotalInsert(SortByDate(s[..|s| - 1]), s[|s| - 1], "CRC");
      CurrencyTotalInsert(SortByDate(s[..|s| - 1]), s[|s| - 1], "USD");
    }
  }
}
