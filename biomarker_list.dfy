/** The exam-entry screen: updating the result list from one input field, the
    category tabs, the category filter and the reference-range caption. */
module BiomarkerList {
  import opened Types
  import opened Catalog
  import opened HealthLogic

  // ---------------------------------------------------------------------
  // Result list

  /** At most one recorded result per biomarker id. */
  predicate AtMostOnePerId(results: seq<BiomarkerResult>) {
    forall i, j :: 0 <= i < j < |results| ==> results[i].biomarkerId != results[j].biomarkerId
  }

  /** Index of the first result at or after `k` with the given id. */
  function FindIndexFrom(results: seq<BiomarkerResult>, id: string, k: nat): (r: Option<nat>)
    requires k <= |results|
    decreases |results| - k
    ensures r.Some? ==> k <= r.value < |results| && results[r.value].biomarkerId == id
    ensures r.Some? ==> forall j :: k <= j < r.value ==> results[j].biomarkerId != id
    ensures r.None? ==> forall j :: k <= j < |results| ==> results[j].biomarkerId != id
  {
    if k == |results| then None
    else if results[k].biomarkerId == id then Some(k)
    else FindIndexFrom(results, id, k + 1)
  }

  /** `findIndex` by id: the first index holding that id, None for -1. */
  function FindIndex(results: seq<BiomarkerResult>, id: string): (r: Option<nat>)
    ensures r.Some? ==> r.value < |results| && results[r.value].biomarkerId == id
    ensures r.Some? ==> forall j :: 0 <= j < r.value ==> results[j].biomarkerId != id
    ensures r.None? <==> forall j :: 0 <= j < |results| ==> results[j].biomarkerId != id
  {
    FindIndexFrom(results, id, 0)
  }

  /** The index of the first result carrying `id` is what FindIndex returns. */
  lemma FirstIndexIsFound(results: seq<BiomarkerResult>, id: string, i: nat)
    requires i < |results| && results[i].biomarkerId == id
    requires forall j :: 0 <= j < i ==> results[j].biomarkerId != id
    ensures FindIndex(results, id) == Some(i)
  {
  }

  /** The results whose id is not `id`, in their original order. */
  function WithoutId(results: seq<BiomarkerResult>, id: string): (r: seq<BiomarkerResult>)
    ensures forall x :: x in r <==> x in results && x.biomarkerId != id
    ensures |r| <= |results|
  {
    if |results| == 0 then []
    else
      var rest := WithoutId(results[1..], id);
      assert forall x :: x in results <==> x == results[0] || x in results[1..];
      if results[0].biomarkerId != id then [results[0]] + rest else rest
  }

  /** Removing an id keeps the list free of duplicate ids. */
  lemma {:induction false} WithoutIdKeepsUnique(results: seq<BiomarkerResult>, id: string)
    requires AtMostOnePerId(results)
    ensures AtMostOnePerId(WithoutId(results, id))
    decreases |results|
  {
    if |results| > 0 {
      var tail := results[1..];
      assert AtMostOnePerId(tail) by {
        forall i, j | 0 <= i < j < |tail| ensures tail[i].biomarkerId != tail[j].biomarkerId {
          assert tail[i] == results[i + 1] && tail[j] == results[j + 1];
        }
      }
      WithoutIdKeepsUnique(tail, id);
      var rest := WithoutId(tail, id);
      if results[0].biomarkerId != id {
        forall x | x in rest ensures x.biomarkerId != results[0].biomarkerId {
          var k :| 0 <= k < |tail| && tail[k] == x;
          assert results[k + 1] == x;
        }
        var r := [results[0]] + rest;
        forall i, j | 0 <= i < j < |r| ensures r[i].biomarkerId != r[j].biomarkerId {
          if i > 0 {
            assert r[i] == rest[i - 1] && r[j] == rest[j - 1];
          } else {
            assert r[j] == rest[j - 1];
            assert rest[j - 1] in rest;
          }
        }
      }
    }
  }

  /** Filtering distributes over concatenation: together with the one-element
      cases this pins WithoutId down as an order-preserving filter. */
  lemma {:induction false} WithoutIdDistributes(a: seq<BiomarkerResult>, b: seq<BiomarkerResult>, id: string)
    ensures WithoutId(a + b, id) == WithoutId(a, id) + WithoutId(b, id)
    decreases |a|
  {
    if |a| > 0 {
      assert (a + b)[1..] == a[1..] + b;
      WithoutIdDistributes(a[1..], b, id);
    } else {
      assert a + b == b;
    }
  }

  /** handleInputChange: `numValue` is the parsed input, None when it is not a
      number; `now` is the timestamp given to a new record. Non-numeric input
      removes the id; a number replaces the value of the first record with that
      id, or appends a new record when there is none. */
  method HandleInputChange(results: seq<BiomarkerResult>, id: string, numValue: Option<real>, now: string)
    returns (updated: seq<BiomarkerResult>)
    ensures numValue.None? ==> updated == WithoutId(results, id) && FindIndex(updated, id).None?
    ensures numValue.Some? && FindIndex(results, id).Some? ==>
              var i := FindIndex(results, id).value;
              && |updated| == |results|
              && updated[i] == results[i].(value := numValue.value)
              && forall j :: 0 <= j < |results| && j != i ==> updated[j] == results[j]
    ensures numValue.Some? && FindIndex(results, id).None? ==>
              updated == results + [BiomarkerResult(id, numValue.value, now)]
    ensures numValue.Some? ==>
              FindIndex(updated, id).Some? && updated[FindIndex(updated, id).value].value == numValue.value
    ensures AtMostOnePerId(results) ==> AtMostOnePerId(updated)
  {
    if numValue.None? {
      updated := WithoutId(results, id);
      forall j | 0 <= j < |updated| ensures updated[j].biomarkerId != id {
        assert updated[j] in updated;
      }
      if AtMostOnePerId(results) {
        WithoutIdKeepsUnique(results, id);
      }
      return;
    }
    var existingIndex := FindIndex(results, id);
    if existingIndex.Some? {
      var i := existingIndex.value;
      updated := results;
      updated := updated[i := updated[i].(value := numValue.value)];
      FirstIndexIsFound(updated, id, i);
    } else {
      updated := results + [BiomarkerResult(id, numValue.value, now)];
      FirstIndexIsFound(updated, id, |results|);
    }
  }

  // ---------------------------------------------------------------------
  // Category tabs and filter

  /** The active tab: every category, or one of them. */
  datatype CategoryFilter = All | Only(category: Category)

  /** The position of the first occurrence of `x` in `s`. */
  function FirstPosition<T(==)>(s: seq<T>, x: T): (p: nat)
    requires x in s
    ensures p < |s| && s[p] == x && forall q :: 0 <= q < p ==> s[q] != x
  {
    if s[0] == x then 0 else 1 + FirstPosition(s[1..], x)
  }

  /** Appending to a sequence leaves the first positions of its elements. */
  lemma {:induction false} FirstPositionSnoc<T>(s: seq<T>, x: T, y: T)
    requires y in s
    ensures FirstPosition(s + [x], y) == FirstPosition(s, y)
    decreases |s|
  {
    if s[0] != y {
      assert (s + [x])[1..] == s[1..] + [x];
      FirstPositionSnoc(s[1..], x, y);
    }
  }

  /** The elements of `s` once each, in order of first appearance (what
      `Array.from(new Set(s))` yields). */
  function Distinct<T(==,!new)>(s: seq<T>): (r: seq<T>)
    ensures forall x :: x in r <==> x in s
    ensures forall i, j :: 0 <= i < j < |r| ==> r[i] != r[j]
  {
    if |s| == 0 then []
    else
      var init := s[..|s| - 1];
      var d := Distinct(init);
      var x := s[|s| - 1];
      assert forall y :: y in s <==> y in init || y == x;
      if x in d then d else d + [x]
  }

  /** The distinct elements are listed in order of their first appearance. */
  lemma {:induction false} DistinctInFirstAppearanceOrder<T(!new)>(s: seq<T>, i: nat, j: nat)
    requires i < j < |Distinct(s)|
    ensures Distinct(s)[i] in s && Distinct(s)[j] in s
    ensures FirstPosition(s, Distinct(s)[i]) < FirstPosition(s, Distinct(s)[j])
    decreases |s|
  {
    var r := Distinct(s);
    assert r[i] in r && r[j] in r;
    var init := s[..|s| - 1];
    var d := Distinct(init);
    var x := s[|s| - 1];
    assert s == init + [x];
    if j < |d| {
      DistinctInFirstAppearanceOrder(init, i, j);
      FirstPositionSnoc(init, x, d[i]);
      FirstPositionSnoc(init, x, d[j]);
    } else {
      assert r[j] == x && x !in init;
      assert d[i] in d;
      FirstPositionSnoc(init, x, d[i]);
    }
  }

  /** The categories of the catalog entries, in catalog order. */
  function CategoriesOf(catalog: seq<BiomarkerDefinition>): (r: seq<Category>)
    ensures |r| == |catalog| && forall i :: 0 <= i < |catalog| ==> r[i] == catalog[i].category
  {
    seq(|catalog|, i requires 0 <= i < |catalog| => catalog[i].category)
  }

  /** A category occurs in CategoriesOf exactly when some entry has it. */
  lemma CategoriesOfMembers(catalog: seq<BiomarkerDefinition>, c: Category)
    ensures c in CategoriesOf(catalog) <==> exists d :: d in catalog && d.category == c
  {
    var cs := CategoriesOf(catalog);
    if c in cs {
      var k :| 0 <= k < |cs| && cs[k] == c;
      assert catalog[k] in catalog;
    }
    if exists d :: d in catalog && d.category == c {
      var d :| d in catalog && d.category == c;
      var k :| 0 <= k < |catalog| && catalog[k] == d;
      assert cs[k] == c;
    }
  }

  /** One tab per category, in the given order. */
  function OnlyTabs(cs: seq<Category>): (tabs: seq<CategoryFilter>)
    ensures |tabs| == |cs| && forall i :: 0 <= i < |cs| ==> tabs[i] == Only(cs[i])
  {
    if |cs| == 0 then [] else [Only(cs[0])] + OnlyTabs(cs[1..])
  }

  /** After All, one tab for each element of `cs`, and no tab twice. */
  lemma TabsOfDistinct(cs: seq<Category>)
    ensures var tabs := [All] + OnlyTabs(Distinct(cs));
            && (forall c :: Only(c) in tabs <==> c in cs)
            && (forall i, j :: 0 <= i < j < |tabs| ==> tabs[i] != tabs[j])
  {
    var distinct := Distinct(cs);
    var tabs := [All] + OnlyTabs(distinct);
    assert forall i :: 0 < i < |tabs| ==> tabs[i] == Only(distinct[i - 1]);
    forall c ensures Only(c) in tabs <==> c in cs {
      if c in distinct {
        var i :| 0 <= i < |distinct| && distinct[i] == c;
        assert tabs[i + 1] == Only(c);
      }
    }
  }

  /** After All, the tabs follow the first appearance of their category. */
  lemma TabsInFirstAppearanceOrder(cs: seq<Category>)
    ensures var tabs := [All] + OnlyTabs(Distinct(cs));
            forall i, j :: 1 <= i < j < |tabs| ==>
              && tabs[i].Only? && tabs[j].Only?
              && tabs[i].category in cs && tabs[j].category in cs
              && FirstPosition(cs, tabs[i].category) < FirstPosition(cs, tabs[j].category)
  {
    var distinct := Distinct(cs);
    var only := OnlyTabs(distinct);
    var tabs := [All] + only;
    assert |tabs| == |distinct| + 1;
    assert forall k :: 1 <= k < |tabs| ==> tabs[k] == only[k - 1];
    forall i, j | 1 <= i < j < |tabs|
      ensures && tabs[i].Only? && tabs[j].Only?
              && tabs[i].category in cs && tabs[j].category in cs
              && FirstPosition(cs, tabs[i].category) < FirstPosition(cs, tabs[j].category)
    {
      assert tabs[i].category == distinct[i - 1] && tabs[j].category == distinct[j - 1];
      DistinctInFirstAppearanceOrder(cs, i - 1, j - 1);
    }
  }

  /** The tab list: All first, then each category of the catalog once, in
      order of first appearance. */
  function Categories(catalog: seq<BiomarkerDefinition>): (tabs: seq<CategoryFilter>)
    ensures |tabs| > 0 && tabs[0] == All
    ensures forall c :: Only(c) in tabs <==> exists d :: d in catalog && d.category == c
    ensures forall i, j :: 0 <= i < j < |tabs| ==> tabs[i] != tabs[j]
    ensures forall i, j :: 1 <= i < j < |tabs| ==>
              && tabs[i].Only? && tabs[j].Only?
              && tabs[i].category in CategoriesOf(catalog) && tabs[j].category in CategoriesOf(catalog)
              && FirstPosition(CategoriesOf(catalog), tabs[i].category) < FirstPosition(CategoriesOf(catalog), tabs[j].category)
  {
    var cs := CategoriesOf(catalog);
    var tabs := [All] + OnlyTabs(Distinct(cs));
    TabsOfDistinct(cs);
    TabsInFirstAppearanceOrder(cs);
    forall c ensures Only(c) in tabs <==> exists d :: d in catalog && d.category == c {
      CategoriesOfMembers(catalog, c);
    }
    tabs
  }

  /** The catalog entries of one category, in catalog order. */
  function WithCategory(catalog: seq<BiomarkerDefinition>, category: Category): (r: seq<BiomarkerDefinition>)
    ensures forall d :: d in r <==> d in catalog && d.category == category
    ensures |r| <= |catalog|
  {
    if |catalog| == 0 then []
    else
      var rest := WithCategory(catalog[1..], category);
      assert forall d :: d in catalog <==> d == catalog[0] || d in catalog[1..];
      if catalog[0].category == category then [catalog[0]] + rest else rest
  }

  /** Filtering by category distributes over concatenation, so the catalog
      order is kept. */
  lemma {:induction false} WithCategoryDistributes(a: seq<BiomarkerDefinition>, b: seq<BiomarkerDefinition>, category: Category)
    ensures WithCategory(a + b, category) == WithCategory(a, category) + WithCategory(b, category)
    decreases |a|
  {
    if |a| > 0 {
      assert (a + b)[1..] == a[1..] + b;
      WithCategoryDistributes(a[1..], b, category);
    } else {
      assert a + b == b;
    }
  }

  /** The entries shown under a tab: the whole catalog for All, otherwise
      exactly the entries of that category. */
  function FilteredBiomarkers(catalog: seq<BiomarkerDefinition>, filter: CategoryFilter): (r: seq<BiomarkerDefinition>)
    ensures filter == All ==> r == catalog
    ensures filter.Only? ==> forall d :: d in r <==> d in catalog && d.category == filter.category
    ensures filter.Only? ==> r == WithCategory(catalog, filter.category)
  {
    match filter
    case All => catalog
    case Only(category) => WithCategory(catalog, category)
  }

  // ---------------------------------------------------------------------
  // Reference-range caption

  /** A reference-range caption: "low - high", "> low", "< high" (with an
      absent high the page shows "< undefined"), and the inclusive forms
      ">= low", "<= high" and an unbounded caption. */
  datatype RangeCaption =
    | Between(low: real, high: real)
    | Above(low: real)
    | Below(bound: Option<real>)
    | AtLeast(low: real)
    | AtMost(high: real)
    | Unbounded

  /** The values a reader takes the caption to cover. */
  predicate Admits(caption: RangeCaption, value: real) {
    match caption
    case Between(low, high) => low <= value <= high
    case Above(low) => value > low
    case Below(bound) => bound.Some? && value < bound.value
    case AtLeast(low) => value >= low
    case AtMost(high) => value <= high
    case Unbounded => true
  }

  /** The caption as the page prints it. Away from the bounds it covers
      exactly the values the range matches. */
  function FormatRange(range: BiomarkerRange): (caption: RangeCaption)
    ensures forall v :: (range.min.None? || v != range.min.value) && (range.max.None? || v != range.max.value)
                        && (range.min.Some? || range.max.Some?) ==>
                          (Admits(caption, v) <==> InRange(v, range))
    ensures range.min.Some? && range.max.Some? ==> forall v :: Admits(caption, v) <==> InRange(v, range)
    ensures range.min.Some? && range.max.None? ==> InRange(range.min.value, range) && !Admits(caption, range.min.value)
    ensures range.min.None? && range.max.Some? ==> InRange(range.max.value, range) && !Admits(caption, range.max.value)
  {
    if range.min.Some? && range.max.Some? then Between(range.min.value, range.max.value)
    else if range.min.Some? then Above(range.min.value)
    else Below(range.max)
  }

  /** The caption "> 126" printed for the "Diabetes" range of fasting glucose
      does not cover 126, although 126 evaluates to that range; likewise
      "< 70" for the "Hypoglycemia" range leaves out 70, which evaluates to
      it. */
  lemma FormatRangeMisstatesInclusiveBound()
    ensures Evaluate(126.0, FastingGlucose) == Some(FastingGlucose.ranges[3])
            && !Admits(FormatRange(FastingGlucose.ranges[3]), 126.0)
    ensures Evaluate(70.0, FastingGlucose) == Some(FastingGlucose.ranges[0])
            && !Admits(FormatRange(FastingGlucose.ranges[0]), 70.0)
  {
  }

  /** The caption with the inclusive comparisons the evaluator uses. */
  function FormatRangeInclusive(range: BiomarkerRange): (caption: RangeCaption)
    ensures forall v :: Admits(caption, v) <==> InRange(v, range)
  {
    match (range.min, range.max)
    case (Some(low), Some(high)) => Between(low, high)
    case (Some(low), None) => AtLeast(low)
    case (None, Some(high)) => AtMost(high)
    case (None, None) => Unbounded
  }
}
