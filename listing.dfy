/** The list comprehensions of `GET /periods` and `GET /categories`, applied to the values
    `distinct` returns. */
module Listing {
  import opened Wrappers
  import opened Records
  import opened Seqs

  /** The `period` values of the stored expenses, null or absent ones included. */
  function PeriodField(es: seq<Expense>): (vs: seq<Option<string>>)
    ensures |vs| == |es| && forall i :: 0 <= i < |es| ==> vs[i] == es[i].period
  {
    seq(|es|, i requires 0 <= i < |es| => es[i].period)
  }

  /** The `category` values of the stored expenses. */
  function CategoryField(es: seq<Expense>): (vs: seq<Option<string>>)
    ensures |vs| == |es| && forall i :: 0 <= i < |es| ==> vs[i] == es[i].category
  {
    seq(|es|, i requires 0 <= i < |es| => es[i].category)
  }

  /** `[v for v in vs if v is not None and v != excluded]`, where `excluded` is `None` for the
      periods and `Some("N/A")` for the categories. */
  function Present(vs: seq<Option<string>>, excluded: Option<string>): (r: seq<string>)
    ensures forall x :: x in r <==> Some(x) in vs && Some(x) != excluded
    ensures NoDups(vs) ==> NoDups(r)
    decreases |vs|
  {
    if vs == [] then []
    else
      var rest := Present(vs[1..], excluded);
      assert forall x :: Some(x) in vs <==> Some(x) == vs[0] || Some(x) in vs[1..];
      if vs[0].None? || vs[0] == excluded then rest
      else
        assert NoDups(vs) ==> vs[0] !in vs[1..];
        [vs[0].value] + rest
  }

  /** The periods `distinct` and the comprehension leave, before sorting. */
  function KnownPeriods(es: seq<Expense>): seq<string> {
    Present(Distinct(PeriodField(es)), None)
  }

  /** The categories `distinct` and the comprehension leave, before sorting. */
  function KnownCategories(es: seq<Expense>): seq<string> {
    Present(Distinct(CategoryField(es)), Some("N/A"))
  }

  /** Each stored period is listed once, and nothing else is. */
  lemma KnownPeriodsRule(es: seq<Expense>)
    ensures NoDups(KnownPeriods(es))
    ensures forall x :: x in KnownPeriods(es) <==> exists i :: 0 <= i < |es| && es[i].period == Some(x)
  {
    var vs := PeriodField(es);
    var d := Distinct(vs);
    forall x ensures Some(x) in d <==> exists i :: 0 <= i < |es| && es[i].period == Some(x) {
      if Some(x) in d {
        var k :| 0 <= k < |d| && d[k] == Some(x);
        var i :| 0 <= i < |vs| && vs[i] == d[k];
      }
      if i :| 0 <= i < |es| && es[i].period == Some(x) {
        assert vs[i] in d;
      }
    }
  }

  /** Each stored category other than "N/A" is listed once, and nothing else is. */
  lemma KnownCategoriesRule(es: seq<Expense>)
    ensures NoDups(KnownCategories(es))
    ensures forall x :: x in KnownCategories(es) <==>
      x != "N/A" && exists i :: 0 <= i < |es| && es[i].category == Some(x)
  {
    var vs := CategoryField(es);
    var d := Distinct(vs);
    forall x ensures Some(x) in d <==> exists i :: 0 <= i < |es| && es[i].category == Some(x) {
      if Some(x) in d {
        var k :| 0 <= k < |d| && d[k] == Some(x);
        var i :| 0 <= i < |vs| && vs[i] == d[k];
      }
      if i :| 0 <= i < |es| && es[i].category == Some(x) {
        assert vs[i] in d;
      }
    }
  }
}
