/** The recategorisation rule of `POST /budget/{period}/recalculate`: budget item tags form a
    lowercased map from tag to category, and each expense of the period takes the category of
    the first tag its lowercased description contains. */
module TagRules {
  import opened Wrappers
  import opened Text
  import opened Records
  import opened Seqs

  /** One entry of `tag_to_category`; the map is its entries in insertion order. */
  datatype TagEntry = TagEntry(tag: string, category: string)

  function Keys(m: seq<TagEntry>): (ks: seq<string>)
    ensures |ks| == |m| && forall i :: 0 <= i < |m| ==> ks[i] == m[i].tag
  {
    seq(|m|, i requires 0 <= i < |m| => m[i].tag)
  }

  /** `m[k]`, or `None` when `k` is not a key. */
  function Get(m: seq<TagEntry>, k: string): Option<string> {
    if m == [] then None
    else if m[0].tag == k then Some(m[0].category)
    else Get(m[1..], k)
  }

  /** `m[k] = v` on a dict: an existing key keeps its position and takes the new value, a new
      key goes last. */
  function Put(m: seq<TagEntry>, k: string, v: string): seq<TagEntry>
    decreases |m|
  {
    if m == [] then [TagEntry(k, v)]
    else if m[0].tag == k then [TagEntry(k, v)] + m[1..]
    else [m[0]] + Put(m[1..], k, v)
  }

  lemma {:induction false} PutKeys(m: seq<TagEntry>, k: string, v: string)
    ensures Keys(Put(m, k, v)) == if k in Keys(m) then Keys(m) else Keys(m) + [k]
    decreases |m|
  {
    if m != [] {
      assert Keys(m) == [m[0].tag] + Keys(m[1..]);
      if m[0].tag == k {
        assert Keys(Put(m, k, v)) == [k] + Keys(m[1..]);
      } else {
        PutKeys(m[1..], k, v);
        assert Keys(Put(m, k, v)) == [m[0].tag] + Keys(Put(m[1..], k, v));
      }
    }
  }

  /** After `m[k] = v`, `m[k]` is `v` and every other key reads as before. */
  lemma {:induction false} PutGet(m: seq<TagEntry>, k: string, v: string, k': string)
    ensures Get(Put(m, k, v), k') == if k' == k then Some(v) else Get(m, k')
    decreases |m|
  {
    if m != [] && m[0].tag != k {
      PutGet(m[1..], k, v, k');
      assert Put(m, k, v)[1..] == Put(m[1..], k, v);
    } else if m != [] {
      assert Put(m, k, v)[1..] == m[1..];
    }
  }

  /** The assignments the building loop makes, in order: each tag of each item, lowered,
      with the item's category. */
  function ItemEntries(it: BudgetItem): (r: seq<TagEntry>)
    ensures |r| == |it.tags|
    ensures forall j :: 0 <= j < |r| ==> r[j] == TagEntry(Lower(it.tags[j]), it.category)
  {
    seq(|it.tags|, j requires 0 <= j < |it.tags| => TagEntry(Lower(it.tags[j]), it.category))
  }

  function Assignments(items: seq<BudgetItem>): seq<TagEntry>
    decreases |items|
  {
    if items == [] then [] else Assignments(items[..|items| - 1]) + ItemEntries(items[|items| - 1])
  }

  /** The dict a sequence of assignments leaves. */
  function PutAll(ps: seq<TagEntry>): seq<TagEntry>
    decreases |ps|
  {
    if ps == [] then [] else
      var p := ps[|ps| - 1];
      Put(PutAll(ps[..|ps| - 1]), p.tag, p.category)
  }

  /** `tag_to_category` for a budget's items. */
  function TagMap(items: seq<BudgetItem>): seq<TagEntry> {
    PutAll(Assignments(items))
  }

  /** The value of the last assignment to `k`. */
  function LastValue(ps: seq<TagEntry>, k: string): Option<string>
    decreases |ps|
  {
    if ps == [] then None
    else if ps[|ps| - 1].tag == k then Some(ps[|ps| - 1].category)
    else LastValue(ps[..|ps| - 1], k)
  }

  /** The map's keys are the assigned tags, each once, in order of first assignment. */
  lemma {:induction false} PutAllKeys(ps: seq<TagEntry>)
    ensures Keys(PutAll(ps)) == Distinct(Keys(ps))
    decreases |ps|
  {
    if ps != [] {
      var init := ps[..|ps| - 1];
      var p := ps[|ps| - 1];
      PutAllKeys(init);
      PutKeys(PutAll(init), p.tag, p.category);
      assert Keys(ps)[..|ps| - 1] == Keys(init);
    }
  }

  /** A tag assigned several times maps to the category of its last assignment. */
  lemma {:induction false} PutAllGet(ps: seq<TagEntry>, k: string)
    ensures Get(PutAll(ps), k) == LastValue(ps, k)
    decreases |ps|
  {
    if ps != [] {
      var p := ps[|ps| - 1];
      PutAllGet(ps[..|ps| - 1], k);
      PutGet(PutAll(ps[..|ps| - 1]), p.tag, p.category, k);
    }
  }

  /** The map holds lowercase tags only, so a tag repeated in another case shares its entry. */
  lemma TagMapLowercase(items: seq<BudgetItem>)
    ensures forall i :: 0 <= i < |TagMap(items)| ==> Lower(TagMap(items)[i].tag) == TagMap(items)[i].tag
  {
    var ps := Assignments(items);
    AssignmentsLowercase(items);
    PutAllKeys(ps);
    var m := TagMap(items);
    forall i | 0 <= i < |m| ensures Lower(m[i].tag) == m[i].tag {
      assert Keys(m)[i] == m[i].tag;
      assert m[i].tag in Keys(ps);
      var j :| 0 <= j < |ps| && Keys(ps)[j] == m[i].tag;
    }
  }

  lemma {:induction false} AssignmentsLowercase(items: seq<BudgetItem>)
    ensures forall j :: 0 <= j < |Assignments(items)| ==>
      Lower(Assignments(items)[j].tag) == Assignments(items)[j].tag
    decreases |items|
  {
    if items != [] {
      AssignmentsLowercase(items[..|items| - 1]);
      var it := items[|items| - 1];
      forall j | 0 <= j < |it.tags| ensures Lower(ItemEntries(it)[j].tag) == ItemEntries(it)[j].tag {
        LowerIdempotent(it.tags[j]);
      }
    }
  }

  /** Keys in a dict are distinct. */
  lemma TagMapKeysDistinct(items: seq<BudgetItem>)
    ensures forall i, j :: 0 <= i < j < |TagMap(items)| ==> TagMap(items)[i].tag != TagMap(items)[j].tag
  {
    PutAllKeys(Assignments(items));
    var m := TagMap(items);
    assert forall i :: 0 <= i < |m| ==> Keys(m)[i] == m[i].tag;
  }

  // ---------------------------------------------------------------------------------------
  // Matching

  /** The category of the first entry, in map order, whose tag occurs in `d`. */
  function FirstMatch(m: seq<TagEntry>, d: string): (r: Option<string>)
    ensures r.Some? <==> exists i :: 0 <= i < |m| && IsSubstring(m[i].tag, d)
    ensures r.Some? ==> exists i :: 0 <= i < |m| && IsSubstring(m[i].tag, d) && r.value == m[i].category
                                 && forall j :: 0 <= j < i ==> !IsSubstring(m[j].tag, d)
    decreases |m|
  {
    if m == [] then None
    else if IsSubstring(m[0].tag, d) then Some(m[0].category)
    else
      var r := FirstMatch(m[1..], d);
      assert forall i :: 0 < i < |m| ==> m[i] == m[1..][i - 1];
      r
  }

  /** The category recalculation gives an expense with this description. */
  function Categorize(m: seq<TagEntry>, description: string): string {
    FirstMatch(m, Lower(description)).GetOr("Default")
  }

  /** An expense takes the category of the earliest matching tag, or "Default" when no tag
      occurs in its lowercased description. */
  lemma CategorizeRule(m: seq<TagEntry>, description: string, i: int)
    requires 0 <= i < |m| && IsSubstring(m[i].tag, Lower(description))
    requires forall j :: 0 <= j < i ==> !IsSubstring(m[j].tag, Lower(description))
    ensures Categorize(m, description) == m[i].category
  {
    var r := FirstMatch(m, Lower(description));
    var k :| 0 <= k < |m| && IsSubstring(m[k].tag, Lower(description)) && r.value == m[k].category
      && forall j :: 0 <= j < k ==> !IsSubstring(m[j].tag, Lower(description));
    assert k == i;
  }

  lemma CategorizeDefault(m: seq<TagEntry>, description: string)
    requires forall i :: 0 <= i < |m| ==> !IsSubstring(m[i].tag, Lower(description))
    ensures Categorize(m, description) == "Default"
  {
  }

  /** An empty tag occurs in every description, so it captures every expense it reaches. */
  lemma EmptyTagMatchesAll(m: seq<TagEntry>, description: string)
    requires |m| > 0 && m[0].tag == ""
    ensures Categorize(m, description) == m[0].category
  {
    assert "" <= Lower(description)[0..];
  }

  // ---------------------------------------------------------------------------------------
  // Recategorising the expenses of a period

  /** The category this expense is to have; `None` when it is not in the period. */
  function NewCategory(e: Expense, period: string, m: seq<TagEntry>): Option<string> {
    if e.period == Some(period) then Some(Categorize(m, e.description)) else None
  }

  /** The expense is in the period and its category differs from the new one. */
  predicate NeedsUpdate(e: Expense, period: string, m: seq<TagEntry>) {
    e.period == Some(period) && e.category != Some(Categorize(m, e.description))
  }

  function Recategorized(e: Expense, period: string, m: seq<TagEntry>): Expense {
    if NeedsUpdate(e, period, m) then e.(category := Some(Categorize(m, e.description))) else e
  }

  /** The collection after recalculation. */
  function Recategorize(es: seq<Expense>, period: string, m: seq<TagEntry>): (r: seq<Expense>)
    ensures |r| == |es|
    ensures forall i :: 0 <= i < |es| ==> r[i] == Recategorized(es[i], period, m)
  {
    seq(|es|, i requires 0 <= i < |es| => Recategorized(es[i], period, m))
  }

  /** The number of expenses recalculation updates. */
  function UpdateCount(es: seq<Expense>, period: string, m: seq<TagEntry>): nat
    decreases |es|
  {
    if es == [] then 0
    else UpdateCount(es[..|es| - 1], period, m) + (if NeedsUpdate(es[|es| - 1], period, m) then 1 else 0)
  }

  /** The number of expenses in the period. */
  function PeriodCount(es: seq<Expense>, period: string): nat
    decreases |es|
  {
    if es == [] then 0
    else PeriodCount(es[..|es| - 1], period) + (if es[|es| - 1].period == Some(period) then 1 else 0)
  }

  /** Exactly the counted expenses change; every expense of the period ends with its new
      category, and every other expense keeps all its fields. */
  lemma OnlyCountedChange(es: seq<Expense>, period: string, m: seq<TagEntry>)
    ensures forall i :: 0 <= i < |es| ==>
      (Recategorize(es, period, m)[i] != es[i] <==> NeedsUpdate(es[i], period, m))
    ensures forall i :: 0 <= i < |es| && es[i].period == Some(period) ==>
      Recategorize(es, period, m)[i].category == NewCategory(es[i], period, m)
    ensures forall i :: 0 <= i < |es| ==>
      Recategorize(es, period, m)[i].(category := es[i].category) == es[i]
  {
  }

  lemma {:induction false} UpdateCountBound(es: seq<Expense>, period: string, m: seq<TagEntry>)
    ensures UpdateCount(es, period, m) <= PeriodCount(es, period)
    ensures PeriodCount(es, period) == 0 ==> UpdateCount(es, period, m) == 0
    decreases |es|
  {
    if es != [] {
      UpdateCountBound(es[..|es| - 1], period, m);
    }
  }

  lemma {:induction false} UpdateCountZero(es: seq<Expense>, period: string, m: seq<TagEntry>)
    requires forall i :: 0 <= i < |es| ==> !NeedsUpdate(es[i], period, m)
    ensures UpdateCount(es, period, m) == 0
    decreases |es|
  {
    if es != [] {
      var init := es[..|es| - 1];
      assert forall i :: 0 <= i < |init| ==> init[i] == es[i];
      UpdateCountZero(init, period, m);
    }
  }

  /** A second recalculation with the same budget updates nothing and changes nothing. */
  lemma RecategorizeIdempotent(es: seq<Expense>, period: string, m: seq<TagEntry>)
    ensures UpdateCount(Recategorize(es, period, m), period, m) == 0
    ensures Recategorize(Recategorize(es, period, m), period, m) == Recategorize(es, period, m)
  {
    var r := Recategorize(es, period, m);
    assert forall i :: 0 <= i < |r| ==> !NeedsUpdate(r[i], period, m);
    UpdateCountZero(r, period, m);
  }
}
