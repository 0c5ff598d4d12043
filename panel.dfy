/** The two computations of the search panel in `index.tsx` that work on the
    raw dataset: the suggestion list `filteredSubstances` and the category
    list `categories`, lifted out of their React memo hooks. Reading a field
    of a null record throws in both, so the dataset is required to hold only
    records wherever such a read happens. */
module Panel {
  import opened Strings
  import opened Types

  /** The number of suggestions the panel keeps. */
  const SuggestionLimit := 15

  /** Every value of the dataset is a record (not null). */
  predicate AllRecords(drugs: Dataset) {
    forall i :: 0 <= i < |drugs| ==> drugs[i].1.Record?
  }

  /** `{ key, ...drug }`: a raw record tagged with its dataset key. */
  datatype SearchResult = SearchResult(key: string, drug: RawRecord)

  // ---------------------------------------------------------------------------
  // filteredSubstances

  /** `matchesQuery`, for an already lower-cased query: the name, the pretty
      name or some alias contains it. */
  predicate UiMatchesQuery(d: RawRecord, q: string) {
    d.Record? &&
    ((d.name.Some? && Contains(Lower(d.name.value), q))
     || (d.prettyName.Some? && Contains(Lower(d.prettyName.value), q))
     || (d.aliases.Some? && exists j :: 0 <= j < |d.aliases.value| && Contains(Lower(d.aliases.value[j]), q)))
  }

  /** `matchesCategory`: the selection is "all" or one of the record's
      categories. */
  predicate UiMatchesCategory(d: RawRecord, category: string) {
    category == "all" || (d.Record? && d.categories.Some? && category in d.categories.value)
  }

  /** All entries passing both tests, in dataset order. */
  function UiMatches(drugs: Dataset, q: string, category: string): seq<SearchResult> {
    if drugs == [] then []
    else
      var init, e := drugs[..|drugs| - 1], drugs[|drugs| - 1];
      UiMatches(init, q, category)
        + (if UiMatchesQuery(e.1, q) && UiMatchesCategory(e.1, category) then [SearchResult(e.0, e.1)] else [])
  }

  /** What `filteredSubstances` holds for a query and a selected category. */
  function FilteredSubstances(drugs: Dataset, query: string, category: string): (r: seq<SearchResult>)
    ensures Trim(query) == "" ==> r == []
    ensures |r| <= SuggestionLimit
  {
    if Trim(query) == "" then [] else Take(UiMatches(drugs, Lower(query), category), SuggestionLimit)
  }

  /** The `filteredSubstances` memo body: a blank query gives nothing;
      otherwise every matching entry is pushed in dataset order and the first
      `SuggestionLimit` are kept. */
  method FilterSubstances(drugs: Dataset, query: string, category: string) returns (results: seq<SearchResult>)
    requires Trim(query) == "" || AllRecords(drugs)
    ensures results == FilteredSubstances(drugs, query, category)
  {
    if Trim(query) == "" {
      return [];
    }
    var q := Lower(query);
    var found: seq<SearchResult> := [];
    for i := 0 to |drugs|
      invariant found == UiMatches(drugs[..i], q, category)
    {
      var key, drug := drugs[i].0, drugs[i].1;
      assert drugs[..i + 1][..i] == drugs[..i];
      var matchesQuery := UiMatchesQuery(drug, q);
      var matchesCategory := UiMatchesCategory(drug, category);
      if matchesQuery && matchesCategory {
        found := found + [SearchResult(key, drug)];
      }
    }
    assert drugs[..|drugs|] == drugs;
    results := Take(found, SuggestionLimit);
  }

  /** An entry is a match exactly when it is in the dataset and passes both
      tests. */
  lemma {:induction false} UiMatchesMembers(drugs: Dataset, q: string, category: string, key: string, d: RawRecord)
    ensures SearchResult(key, d) in UiMatches(drugs, q, category) <==>
      (key, d) in drugs && UiMatchesQuery(d, q) && UiMatchesCategory(d, category)
  {
    if drugs != [] {
      var init := drugs[..|drugs| - 1];
      assert drugs == init + [drugs[|drugs| - 1]];
      UiMatchesMembers(init, q, category, key, d);
    }
  }

  /** Matching keeps dataset order: it distributes over concatenation. */
  lemma {:induction false} UiMatchesAppend(a: Dataset, b: Dataset, q: string, category: string)
    ensures UiMatches(a + b, q, category) == UiMatches(a, q, category) + UiMatches(b, q, category)
    decreases |b|
  {
    if b == [] {
      assert a + b == a;
    } else {
      var init := b[..|b| - 1];
      assert a + b == (a + init) + [b[|b| - 1]];
      assert b == init + [b[|b| - 1]];
      UiMatchesAppend(a, init, q, category);
    }
  }

  /** For a query that is not blank the suggestions are the first
      `SuggestionLimit` matches of the lower-cased query, each a dataset entry
      passing both tests, and all the matches when there are no more. */
  lemma FilteredSubstancesProperties(drugs: Dataset, query: string, category: string)
    requires Trim(query) != ""
    ensures var r, all := FilteredSubstances(drugs, query, category), UiMatches(drugs, Lower(query), category);
      && r <= all
      && (|all| <= SuggestionLimit ==> r == all)
      && (|all| > SuggestionLimit ==> |r| == SuggestionLimit)
      && forall i :: 0 <= i < |r| ==>
           (r[i].key, r[i].drug) in drugs && UiMatchesQuery(r[i].drug, Lower(query))
           && UiMatchesCategory(r[i].drug, category)
  {
    var r := FilteredSubstances(drugs, query, category);
    forall i | 0 <= i < |r|
      ensures (r[i].key, r[i].drug) in drugs && UiMatchesQuery(r[i].drug, Lower(query))
              && UiMatchesCategory(r[i].drug, category)
    {
      assert r[i] in UiMatches(drugs, Lower(query), category);
      UiMatchesMembers(drugs, Lower(query), category, r[i].key, r[i].drug);
    }
  }

  // ---------------------------------------------------------------------------
  // categories

  /** The categories a record contributes: its `categories` array, if any. */
  function CategoriesOf(d: RawRecord): seq<string> {
    if d.Record? && d.categories.Some? then d.categories.value else []
  }

  /** Every record's categories, one record after the other. */
  function AllCategories(drugs: Dataset): seq<string> {
    if drugs == [] then [] else AllCategories(drugs[..|drugs| - 1]) + CategoriesOf(drugs[|drugs| - 1].1)
  }

  /** The elements of `s` in first-seen order, each once: what a `Set` filled
      from `s` yields through `Array.from`. */
  function Dedup<T(==)>(s: seq<T>): seq<T> {
    if s == [] then []
    else
      var d, x := Dedup(s[..|s| - 1]), s[|s| - 1];
      if x in d then d else d + [x]
  }

  /** The position of the first occurrence of `x` in `s`. */
  function FirstIndex<T(==)>(s: seq<T>, x: T): (i: nat)
    requires x in s
    ensures i < |s| && s[i] == x && forall j :: 0 <= j < i ==> s[j] != x
  {
    if s[0] == x then 0 else 1 + FirstIndex(s[1..], x)
  }

  /** The `categories` memo body: every category of every record is added to
      a set, which is then listed in insertion order. */
  method CollectCategories(drugs: Dataset) returns (cats: seq<string>)
    requires AllRecords(drugs)
    ensures cats == Dedup(AllCategories(drugs))
  {
    cats := [];
    for i := 0 to |drugs|
      invariant cats == Dedup(AllCategories(drugs[..i]))
    {
      var drug := drugs[i].1;
      assert drugs[..i + 1][..i] == drugs[..i];
      assert AllCategories(drugs[..i + 1]) == AllCategories(drugs[..i]) + CategoriesOf(drug);
      if drug.categories.Some? {
        var cs := drug.categories.value;
        assert AllCategories(drugs[..i]) + cs[..0] == AllCategories(drugs[..i]);
        for j := 0 to |cs|
          invariant cats == Dedup(AllCategories(drugs[..i]) + cs[..j])
        {
          var cat := cs[j];
          assert (AllCategories(drugs[..i]) + cs[..j + 1])[..|AllCategories(drugs[..i]) + cs[..j]|]
              == AllCategories(drugs[..i]) + cs[..j];
          if cat !in cats {
            cats := cats + [cat];
          }
        }
        assert cs[..|cs|] == cs;
      } else {
        assert AllCategories(drugs[..i]) + CategoriesOf(drug) == AllCategories(drugs[..i]);
      }
    }
    assert drugs[..|drugs|] == drugs;
  }

  /** The list holds exactly the categories of the records. */
  lemma {:induction false} DedupMembers<T>(s: seq<T>, x: T)
    ensures x in Dedup(s) <==> x in s
  {
    if s != [] {
      var init := s[..|s| - 1];
      assert s == init + [s[|s| - 1]];
      DedupMembers(init, x);
    }
  }

  /** No category is listed twice. */
  lemma {:induction false} DedupDistinct<T>(s: seq<T>)
    ensures NoDuplicates(Dedup(s))
  {
    if s != [] {
      DedupDistinct(s[..|s| - 1]);
    }
  }

  /** Categories are listed in the order they are first seen. */
  lemma {:induction false} DedupOrder<T>(s: seq<T>)
    ensures forall i, j :: 0 <= i < j < |Dedup(s)| ==>
      Dedup(s)[i] in s && Dedup(s)[j] in s && FirstIndex(s, Dedup(s)[i]) < FirstIndex(s, Dedup(s)[j])
  {
    if s == [] {
      assert Dedup(s) == [];
    } else {
      var init, x := s[..|s| - 1], s[|s| - 1];
      var d := Dedup(init);
      DedupOrder(init);
      forall y | y in init ensures FirstIndex(s, y) == FirstIndex(init, y) {
        FirstIndexPrefix(init, s, y);
      }
      forall i | 0 <= i < |d| ensures d[i] in init {
        DedupMembers(init, d[i]);
      }
      var r := Dedup(s);
      if x !in d {
        DedupMembers(init, x);
        assert FirstIndex(s, x) == |init|;
      }
      forall i, j | 0 <= i < j < |r|
        ensures r[i] in s && r[j] in s && FirstIndex(s, r[i]) < FirstIndex(s, r[j])
      {
        assert r[i] == d[i] && d[i] in init;
        if j < |d| {
          assert r[j] == d[j] && d[j] in init;
        } else {
          assert r[j] == x;
        }
      }
    }
  }

  lemma FirstIndexPrefix<T>(init: seq<T>, s: seq<T>, y: T)
    requires init <= s && y in init
    ensures FirstIndex(s, y) == FirstIndex(init, y)
  {
    assert s[FirstIndex(init, y)] == y;
  }

  /** The category list: every category of every record once, in first-seen
      order. */
  lemma CategoriesProperties(drugs: Dataset)
    ensures var cats, all := Dedup(AllCategories(drugs)), AllCategories(drugs);
      && NoDuplicates(cats)
      && (forall c :: c in cats <==> c in all)
      && forall i, j :: 0 <= i < j < |cats| ==> FirstIndex(all, cats[i]) < FirstIndex(all, cats[j])
  {
    DedupDistinct(AllCategories(drugs));
    DedupOrder(AllCategories(drugs));
    forall c ensures c in Dedup(AllCategories(drugs)) <==> c in AllCategories(drugs) {
      DedupMembers(AllCategories(drugs), c);
    }
  }

  /** A record contributes a category to the list exactly when the category
      is in its own `categories`. */
  lemma {:induction false} AllCategoriesMembers(drugs: Dataset, c: string)
    ensures c in AllCategories(drugs) <==> exists i :: 0 <= i < |drugs| && c in CategoriesOf(drugs[i].1)
  {
    if drugs != [] {
      var init := drugs[..|drugs| - 1];
      AllCategoriesMembers(init, c);
      if c in AllCategories(init) {
        var i :| 0 <= i < |init| && c in CategoriesOf(init[i].1);
        assert init[i] == drugs[i];
      }
      if exists i :: 0 <= i < |drugs| && c in CategoriesOf(drugs[i].1) {
        var i :| 0 <= i < |drugs| && c in CategoriesOf(drugs[i].1);
        if i < |init| {
          assert init[i] == drugs[i];
        }
      }
    }
  }
}
