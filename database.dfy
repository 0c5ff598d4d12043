/** The substance index and query layer of `database.ts`: the lazily built,
    cached table of processed substances keyed by raw key and by normalised
    alias (`loadSubstanceDatabase`), and the two queries over it
    (`searchSubstances`, `getSubstance`). */
module Database {
  import opened Strings
  import opened Types
  import opened Normalizer

  /** The most results `searchSubstances` returns. */
  const MaxResults := 15

  // ---------------------------------------------------------------------------
  // Normalised keys

  predicate IsKeyChar(c: char) {
    'a' <= c <= 'z' || '0' <= c <= '9'
  }

  /** `s.replace(/[^a-z0-9]/g, "")`. */
  function KeepKeyChars(s: string): (k: string)
    ensures forall i :: 0 <= i < |k| ==> IsKeyChar(k[i])
    ensures |k| <= |s|
  {
    if s == "" then ""
    else (if IsKeyChar(s[0]) then [s[0]] else "") + KeepKeyChars(s[1..])
  }

  /** `s.toLowerCase().replace(/[^a-z0-9]/g, "")`, the normalisation applied
      to alias keys, to display names and to lookup names. */
  function NormalizeKey(s: string): string {
    KeepKeyChars(Lower(s))
  }

  /** Dropping characters works piecewise. */
  lemma {:induction false} KeepKeyCharsAppend(a: string, b: string)
    ensures KeepKeyChars(a + b) == KeepKeyChars(a) + KeepKeyChars(b)
  {
    if a == "" {
      assert a + b == b;
    } else {
      assert (a + b)[1..] == a[1..] + b;
      KeepKeyCharsAppend(a[1..], b);
    }
  }

  lemma {:induction false} KeepKeyCharsUnchanged(s: string)
    requires forall i :: 0 <= i < |s| ==> IsKeyChar(s[i])
    ensures KeepKeyChars(s) == s
  {
    if s != "" {
      KeepKeyCharsUnchanged(s[1..]);
      assert s == [s[0]] + s[1..];
    }
  }

  /** Normalised keys are made of `[a-z0-9]` only, and a string made of those
      characters is its own normalisation; hence normalising is idempotent. */
  lemma NormalizeKeyIdempotent(s: string)
    ensures forall i :: 0 <= i < |NormalizeKey(s)| ==> IsKeyChar(NormalizeKey(s)[i])
    ensures NormalizeKey(NormalizeKey(s)) == NormalizeKey(s)
  {
    var k := NormalizeKey(s);
    assert Lower(k) == k;
    KeepKeyCharsUnchanged(k);
  }

  // ---------------------------------------------------------------------------
  // The index: a JavaScript object from key to substance, in insertion order

  type Index = seq<(string, Substance)>

  /** `index[k] = v`: replaces the value in place when `k` is present (keeping
      its position), appends a new entry otherwise. */
  function Put(index: Index, k: string, v: Substance): Index {
    if index == [] then [(k, v)]
    else if index[0].0 == k then [(k, v)] + index[1..]
    else [index[0]] + Put(index[1..], k, v)
  }

  /** After `index[k] = v`, `k` holds `v` and every other key what it held. */
  lemma {:induction false} PutLookup(index: Index, k: string, v: Substance, k': string)
    ensures Lookup(Put(index, k, v), k') == if k' == k then Some(v) else Lookup(index, k')
  {
    if index != [] && index[0].0 != k {
      PutLookup(index[1..], k, v, k');
    }
  }

  /** `index[k] = v` keeps the keys and adds `k`. */
  lemma {:induction false} PutKeys(index: Index, k: string, v: Substance)
    ensures |Put(index, k, v)| >= |index|
    ensures forall i :: 0 <= i < |index| ==> Put(index, k, v)[i].0 == index[i].0
    ensures forall i :: |index| <= i < |Put(index, k, v)| ==> Put(index, k, v)[i].0 == k
  {
    if index != [] && index[0].0 != k {
      PutKeys(index[1..], k, v);
    }
  }

  /** `index[k] = v` never makes a key appear twice. */
  lemma PutDistinct(index: Index, k: string, v: Substance)
    requires KeysDistinct(index)
    ensures KeysDistinct(Put(index, k, v))
  {
    PutKeys(index, k, v);
    var r := Put(index, k, v);
    if |r| > |index| {
      PutLookup(index, k, v, k);
      PutAppends(index, k, v);
      forall i | 0 <= i < |index| ensures index[i].0 != k {
        if index[i].0 == k { LookupFound(index, k); }
      }
    }
  }

  /** `index[k] = v` appends only when `k` is absent, and then just one entry. */
  lemma {:induction false} PutAppends(index: Index, k: string, v: Substance)
    ensures |Put(index, k, v)| <= |index| + 1
    ensures |Put(index, k, v)| > |index| ==> Lookup(index, k).None?
  {
    if index != [] && index[0].0 != k {
      PutAppends(index[1..], k, v);
    }
  }

  /** The key an alias is indexed under. */
  function AliasKey(alias: string): string {
    NormalizeKey(alias)
  }

  /** The body of the alias loop: `if (n && !index[n]) index[n] = substance`. */
  function AddAlias(index: Index, alias: string, sub: Substance): Index {
    var n := AliasKey(alias);
    if n != "" && Lookup(index, n).None? then index + [(n, sub)] else index
  }

  /** All aliases of `sub`, in order. */
  function AddAliases(index: Index, aliases: seq<string>, sub: Substance): Index
  {
    if aliases == [] then index
    else AddAlias(AddAliases(index, aliases[..|aliases| - 1], sub), aliases[|aliases| - 1], sub)
  }

  /** One step of the `forEach` over the dataset. */
  function AddEntry(index: Index, key: string, data: RawRecord): Index {
    var sub := Processed(key, data);
    AddAliases(Put(index, key, sub), sub.aliases, sub)
  }

  /** The table `loadSubstanceDatabase` builds from the dataset. */
  function BuildIndex(drugs: Dataset): Index {
    if drugs == [] then []
    else
      var (key, data) := drugs[|drugs| - 1];
      AddEntry(BuildIndex(drugs[..|drugs| - 1]), key, data)
  }

  // ---------------------------------------------------------------------------
  // What the index holds

  /** Some alias in `aliases` is indexed under `k`. */
  predicate HasAliasKey(aliases: seq<string>, k: string) {
    exists j :: 0 <= j < |aliases| && AliasKey(aliases[j]) == k
  }

  /** The first substance in dataset order that has an alias normalising to
      the non-empty key `k`: the owner of `k` when `k` is no raw key. */
  function FirstAliasOwner(drugs: Dataset, k: string): (r: Option<Substance>)
  {
    if drugs == [] || k == "" then None
    else
      var sub := Processed(drugs[0].0, drugs[0].1);
      if HasAliasKey(sub.aliases, k) then Some(sub) else FirstAliasOwner(drugs[1..], k)
  }

  lemma {:induction false} FirstAliasOwnerSnoc(drugs: Dataset, e: (string, RawRecord), k: string)
    ensures var sub := Processed(e.0, e.1);
      FirstAliasOwner(drugs + [e], k) ==
        if FirstAliasOwner(drugs, k).Some? then FirstAliasOwner(drugs, k)
        else if k != "" && HasAliasKey(sub.aliases, k) then Some(sub)
        else None
  {
    if drugs != [] && k != "" {
      assert (drugs + [e])[1..] == drugs[1..] + [e];
      FirstAliasOwnerSnoc(drugs[1..], e, k);
    } else if drugs == [] {
      assert drugs + [e] == [e];
    }
  }

  lemma LookupSnoc<V>(obj: seq<(string, V)>, e: (string, V), k: string)
    ensures Lookup(obj + [e], k) ==
      if Lookup(obj, k).Some? then Lookup(obj, k) else if e.0 == k then Some(e.1) else None
  {
    if obj != [] {
      assert (obj + [e])[1..] == obj[1..] + [e];
      LookupSnoc(obj[1..], e, k);
    }
  }

  /** One alias: a key already present is kept; a missing key then holds
      `sub` exactly when the alias normalises to it. */
  lemma AddAliasLookup(index: Index, alias: string, sub: Substance, k: string)
    ensures Lookup(AddAlias(index, alias, sub), k) ==
      if Lookup(index, k).Some? then Lookup(index, k)
      else if k != "" && AliasKey(alias) == k then Some(sub)
      else None
  {
    var n := AliasKey(alias);
    if n != "" && Lookup(index, n).None? {
      LookupSnoc(index, (n, sub), k);
    }
  }

  lemma HasAliasKeySnoc(init: seq<string>, last: string, k: string)
    ensures HasAliasKey(init + [last], k) <==> HasAliasKey(init, k) || AliasKey(last) == k
  {
    var aliases := init + [last];
    if HasAliasKey(aliases, k) && !HasAliasKey(init, k) {
      var j :| 0 <= j < |aliases| && AliasKey(aliases[j]) == k;
      assert j == |aliases| - 1;
    }
    if HasAliasKey(init, k) {
      var j :| 0 <= j < |init| && AliasKey(init[j]) == k;
      assert aliases[j] == init[j];
    }
    assert aliases[|init|] == last;
  }

  /** Adding aliases never disturbs a key already present, and a missing key
      afterwards holds `sub` exactly when one of the aliases normalises to it. */
  lemma {:induction false} AddAliasesLookup(index: Index, aliases: seq<string>, sub: Substance, k: string)
    ensures Lookup(AddAliases(index, aliases, sub), k) ==
      if Lookup(index, k).Some? then Lookup(index, k)
      else if k != "" && HasAliasKey(aliases, k) then Some(sub)
      else None
  {
    if aliases != [] {
      var init, last := aliases[..|aliases| - 1], aliases[|aliases| - 1];
      var mid := AddAliases(index, init, sub);
      assert AddAliases(index, aliases, sub) == AddAlias(mid, last, sub);
      AddAliasesLookup(index, init, sub, k);
      AddAliasLookup(mid, last, sub, k);
      assert aliases == init + [last];
      HasAliasKeySnoc(init, last, k);
    }
  }

  /** Adding aliases keeps the keys distinct and adds only entries for `sub`. */
  lemma {:induction false} AddAliasesDistinct(index: Index, aliases: seq<string>, sub: Substance)
    requires KeysDistinct(index)
    ensures KeysDistinct(AddAliases(index, aliases, sub))
  {
    if aliases != [] {
      var init, last := aliases[..|aliases| - 1], aliases[|aliases| - 1];
      var mid := AddAliases(index, init, sub);
      AddAliasesDistinct(index, init, sub);
      var n := AliasKey(last);
      if n != "" && Lookup(mid, n).None? {
        LookupFound(mid, n);
      }
    }
  }

  /** What `loadSubstanceDatabase` stores under any key `k`: the processed
      record when `k` is a raw key (a later primary key overwrites an earlier
      alias entry), otherwise the first substance in dataset order with an
      alias normalising to `k`, and nothing when there is none. */
  lemma {:induction false} BuildIndexLookup(drugs: Dataset, k: string)
    requires KeysDistinct(drugs)
    ensures Lookup(BuildIndex(drugs), k) ==
      match Lookup(drugs, k)
      case Some(data) => Some(Processed(k, data))
      case None => FirstAliasOwner(drugs, k)
  {
    if drugs != [] {
      var init, e := drugs[..|drugs| - 1], drugs[|drugs| - 1];
      assert drugs == init + [e];
      var sub := Processed(e.0, e.1);
      var before := BuildIndex(init);
      assert KeysDistinct(init) by {
        forall i, j | 0 <= i < j < |init| ensures init[i].0 != init[j].0 {
          assert init[i] == drugs[i] && init[j] == drugs[j];
        }
      }
      BuildIndexLookup(init, k);
      PutLookup(before, e.0, sub, k);
      AddAliasesLookup(Put(before, e.0, sub), sub.aliases, sub, k);
      LookupSnoc(init, e, k);
      FirstAliasOwnerSnoc(init, e, k);
      if e.0 == k {
        LookupFound(init, k);
      }
    }
  }

  /** The index never holds a key twice. */
  lemma {:induction false} BuildIndexKeysDistinct(drugs: Dataset)
    ensures KeysDistinct(BuildIndex(drugs))
  {
    if drugs != [] {
      var init, e := drugs[..|drugs| - 1], drugs[|drugs| - 1];
      BuildIndexKeysDistinct(init);
      var sub := Processed(e.0, e.1);
      PutDistinct(BuildIndex(init), e.0, sub);
      AddAliasesDistinct(Put(BuildIndex(init), e.0, sub), sub.aliases, sub);
    }
  }

  /** Every raw key is present with its own processed record: no key of the
      dataset is ever dropped. */
  lemma PrimaryKeysPresent(drugs: Dataset, i: nat)
    requires KeysDistinct(drugs) && i < |drugs|
    ensures Lookup(BuildIndex(drugs), drugs[i].0) == Some(Processed(drugs[i].0, drugs[i].1))
  {
    BuildIndexLookup(drugs, drugs[i].0);
    LookupFirst(drugs, i);
  }

  lemma {:induction false} LookupFirst<V>(obj: seq<(string, V)>, i: nat)
    requires KeysDistinct(obj) && i < |obj|
    ensures Lookup(obj, obj[i].0) == Some(obj[i].1)
  {
    if i > 0 {
      LookupFirst(obj[1..], i - 1);
    }
  }

  /** The processed record of every raw record, in dataset order. */
  function ProcessAll(drugs: Dataset): seq<Substance> {
    seq(|drugs|, m requires 0 <= m < |drugs| => Processed(drugs[m].0, drugs[m].1))
  }

  /** The position of the first substance with an alias normalising to the
      non-empty key `k`, or `|subs|` when there is none. */
  function FirstOwnerIndex(subs: seq<Substance>, k: string): (m: nat)
    ensures m <= |subs|
    ensures m < |subs| ==> k != "" && HasAliasKey(subs[m].aliases, k)
    ensures k != "" ==> forall j :: 0 <= j < m ==> !HasAliasKey(subs[j].aliases, k)
    ensures m == |subs| ==> k == "" || forall j :: 0 <= j < |subs| ==> !HasAliasKey(subs[j].aliases, k)
  {
    if subs == [] || k == "" then |subs|
    else if HasAliasKey(subs[0].aliases, k) then 0
    else
      var m := FirstOwnerIndex(subs[1..], k);
      assert forall j :: 1 <= j < |subs| ==> subs[j] == subs[1..][j - 1];
      1 + m
  }

  /** `FirstAliasOwner` is the substance at `FirstOwnerIndex`. */
  lemma {:induction false} FirstAliasOwnerAt(drugs: Dataset, k: string)
    ensures var m := FirstOwnerIndex(ProcessAll(drugs), k);
      FirstAliasOwner(drugs, k) == if m < |drugs| then Some(Processed(drugs[m].0, drugs[m].1)) else None
  {
    if drugs != [] && k != "" {
      var subs := ProcessAll(drugs);
      assert subs[0] == Processed(drugs[0].0, drugs[0].1);
      if !HasAliasKey(subs[0].aliases, k) {
        assert ProcessAll(drugs[1..]) == subs[1..];
        FirstAliasOwnerAt(drugs[1..], k);
        var m := FirstOwnerIndex(subs[1..], k);
        if m < |drugs[1..]| {
          assert drugs[1..][m] == drugs[m + 1];
        }
      }
    }
  }

  /** The first owner comes no later than any substance owning the key. */
  lemma {:induction false} FirstOwnerBefore(subs: seq<Substance>, k: string, i: nat, a: string)
    requires i < |subs| && k != ""
    requires a in subs[i].aliases && AliasKey(a) == k
    ensures FirstOwnerIndex(subs, k) <= i
  {
    if i == 0 {
      var j :| 0 <= j < |subs[0].aliases| && subs[0].aliases[j] == a;
      assert HasAliasKey(subs[0].aliases, k);
    } else if !HasAliasKey(subs[0].aliases, k) {
      FirstOwnerBefore(subs[1..], k, i - 1, a);
    }
  }

  /** Alias collisions: a key that is no raw key holds the substance at
      position `FirstOwnerIndex`, the first in dataset order with an alias
      normalising to it (the first writer wins), and nothing when there is
      no such substance. */
  lemma AliasFirstWriterWins(drugs: Dataset, k: string)
    requires KeysDistinct(drugs) && Lookup(drugs, k).None?
    ensures var m := FirstOwnerIndex(ProcessAll(drugs), k);
      Lookup(BuildIndex(drugs), k) == if m < |drugs| then Some(Processed(drugs[m].0, drugs[m].1)) else None
  {
    BuildIndexLookup(drugs, k);
    FirstAliasOwnerAt(drugs, k);
  }

  /** The owner of an alias key comes no later than any substance carrying an
      alias that normalises to the key. */
  lemma AliasOwnerNoLater(drugs: Dataset, i: nat, a: string)
    requires i < |drugs| && AliasKey(a) != ""
    requires a in Processed(drugs[i].0, drugs[i].1).aliases
    ensures FirstOwnerIndex(ProcessAll(drugs), AliasKey(a)) <= i
  {
    var subs := ProcessAll(drugs);
    assert subs[i] == Processed(drugs[i].0, drugs[i].1);
    FirstOwnerBefore(subs, AliasKey(a), i, a);
  }

  // ---------------------------------------------------------------------------
  // searchSubstances

  /** The category test: no category (or ""), "all", or one of the substance's. */
  predicate MatchesCategory(sub: Substance, category: Option<string>) {
    !Truthy(category) || category.value == "all" || category.value in sub.categories
  }

  /** The query test, for an already lower-cased query. */
  predicate MatchesQuery(sub: Substance, lowerQuery: string) {
    Contains(Lower(sub.name), lowerQuery)
    || exists j :: 0 <= j < |sub.aliases| && Contains(Lower(sub.aliases[j]), lowerQuery)
  }

  /** Whether entry `e` of the index is pushed: its key is its substance's
      normalised name (an alias entry can qualify; a raw key such as `2c-b`
      cannot), and the substance matches the query and the category. */
  predicate Selected(e: (string, Substance), lowerQuery: string, category: Option<string>) {
    e.0 == NormalizeKey(e.1.name) && MatchesQuery(e.1, lowerQuery) && MatchesCategory(e.1, category)
  }

  /** The substances pushed into `results`, in index order. */
  function SearchMatches(index: Index, lowerQuery: string, category: Option<string>): (r: seq<Substance>)
    ensures |r| <= |index|
  {
    if index == [] then []
    else
      var e := index[|index| - 1];
      SearchMatches(index[..|index| - 1], lowerQuery, category)
        + (if Selected(e, lowerQuery, category) then [e.1] else [])
  }

  /** What `searchSubstances(query, category)` returns for a given index. */
  function SearchResults(index: Index, query: string, category: Option<string>): seq<Substance> {
    Take(SearchMatches(index, Lower(query), category), MaxResults)
  }

  /** Each match is the value of an index entry whose key is its normalised
      name, and it passes both tests. */
  lemma {:induction false} SearchMatchesSound(index: Index, lowerQuery: string, category: Option<string>)
    ensures forall s :: s in SearchMatches(index, lowerQuery, category) ==>
      (NormalizeKey(s.name), s) in index && MatchesQuery(s, lowerQuery) && MatchesCategory(s, category)
  {
    if index != [] {
      SearchMatchesSound(index[..|index| - 1], lowerQuery, category);
      assert forall e :: e in index[..|index| - 1] ==> e in index;
    }
  }

  /** Every selected entry of the index is matched: the search misses no
      entry keyed by its normalised name that passes both tests. */
  lemma {:induction false} SearchMatchesComplete(index: Index, lowerQuery: string, category: Option<string>, e: (string, Substance))
    requires e in index && Selected(e, lowerQuery, category)
    ensures e.1 in SearchMatches(index, lowerQuery, category)
  {
    var init := index[..|index| - 1];
    if e != index[|index| - 1] {
      assert index == init + [index[|index| - 1]];
      SearchMatchesComplete(init, lowerQuery, category, e);
    }
  }

  /** Matching keeps index order: it distributes over concatenation. */
  lemma {:induction false} SearchMatchesAppend(a: Index, b: Index, lowerQuery: string, category: Option<string>)
    ensures SearchMatches(a + b, lowerQuery, category)
         == SearchMatches(a, lowerQuery, category) + SearchMatches(b, lowerQuery, category)
    decreases |b|
  {
    if b == [] {
      assert a + b == a;
    } else {
      var init := b[..|b| - 1];
      assert (a + b)[..|a + b| - 1] == a + init;
      assert (a + b)[|a + b| - 1] == b[|b| - 1];
      SearchMatchesAppend(a, init, lowerQuery, category);
    }
  }

  /** An index never holding a key twice gives no substance twice. */
  lemma {:induction false} SearchMatchesDistinct(index: Index, lowerQuery: string, category: Option<string>)
    requires KeysDistinct(index)
    ensures NoDuplicates(SearchMatches(index, lowerQuery, category))
  {
    if index != [] {
      var init, e := index[..|index| - 1], index[|index| - 1];
      var before := SearchMatches(init, lowerQuery, category);
      assert KeysDistinct(init) by {
        forall i, j | 0 <= i < j < |init| ensures init[i].0 != init[j].0 {
          assert init[i] == index[i] && init[j] == index[j];
        }
      }
      SearchMatchesDistinct(init, lowerQuery, category);
      if !Selected(e, lowerQuery, category) {
        assert SearchMatches(index, lowerQuery, category) == before;
      } else {
        SearchMatchesSound(init, lowerQuery, category);
        assert e.1 !in before;
        var r := before + [e.1];
        assert SearchMatches(index, lowerQuery, category) == r;
        forall i, j | 0 <= i < j < |r| ensures r[i] != r[j] {
          assert r[i] == before[i];
          if j == |before| {
            assert r[i] in before;
          } else {
            assert r[j] == before[j];
            assert before[i] != before[j];
          }
        }
      }
    }
  }

  /** The properties `searchSubstances` promises: at most `MaxResults`
      results, each the value of an entry keyed by its normalised name that
      matches, no substance
      twice, the first `MaxResults` matches in index order, and every match
      when there are no more than `MaxResults`. */
  lemma SearchResultsProperties(index: Index, query: string, category: Option<string>)
    requires KeysDistinct(index)
    ensures var r := SearchResults(index, query, category);
      && |r| <= MaxResults
      && r <= SearchMatches(index, Lower(query), category)
      && (forall s :: s in r ==>
            (NormalizeKey(s.name), s) in index && MatchesQuery(s, Lower(query)) && MatchesCategory(s, category))
      && NoDuplicates(r)
      && (|SearchMatches(index, Lower(query), category)| <= MaxResults ==>
            forall e :: e in index && Selected(e, Lower(query), category) ==> e.1 in r)
  {
    SearchMatchesSound(index, Lower(query), category);
    SearchMatchesDistinct(index, Lower(query), category);
    forall e | e in index && Selected(e, Lower(query), category)
      ensures e.1 in SearchMatches(index, Lower(query), category)
    {
      SearchMatchesComplete(index, Lower(query), category, e);
    }
  }

  /** A raw key that differs from the normalised name is skipped even when
      its substance matches: `2c-b` holding "2C-B" is not found by "2c". */
  lemma RawKeySkipped(s: Substance)
    requires s.name == "2C-B"
    ensures MatchesQuery(s, "2c") && MatchesCategory(s, None)
    ensures SearchMatches([("2c-b", s)], "2c", None) == []
  {
    assert Lower("2C-B") == "2c-b";
    assert "2c" <= "2c-b";
    assert NormalizeKey("2C-B") == "2cb" by {
      assert KeepKeyChars("2c-b") == "2" + KeepKeyChars("c-b");
      assert KeepKeyChars("c-b") == "c" + KeepKeyChars("-b");
      assert KeepKeyChars("-b") == KeepKeyChars("b");
    }
    assert [("2c-b", s)][..0] == [];
  }

  /** An alias entry keyed by the normalised name is found in place of a raw
      key that is not: `foo-bar` and its alias `foobar` give one result. */
  lemma AliasEntrySelected(s: Substance)
    requires s.name == "Foo Bar"
    ensures SearchMatches([("foo-bar", s), ("foobar", s)], "foo", None) == [s]
  {
    assert Lower("Foo Bar") == "foo bar";
    assert "foo" <= "foo bar";
    assert NormalizeKey("Foo Bar") == "foobar" by {
      assert KeepKeyChars("foo bar") == "foo" + KeepKeyChars(" bar") by {
        assert KeepKeyChars("foo bar") == "f" + KeepKeyChars("oo bar");
        assert KeepKeyChars("oo bar") == "o" + KeepKeyChars("o bar");
        assert KeepKeyChars("o bar") == "o" + KeepKeyChars(" bar");
      }
      assert KeepKeyChars(" bar") == KeepKeyChars("bar");
    }
    var index := [("foo-bar", s), ("foobar", s)];
    assert index[..1] == [("foo-bar", s)];
    assert [("foo-bar", s)][..0] == [];
  }

  /** An empty query matches every substance, so only the candidate filter
      and the category test remain. */
  lemma EmptyQueryMatchesAll(sub: Substance)
    ensures MatchesQuery(sub, Lower(""))
  {
  }

  // ---------------------------------------------------------------------------
  // getSubstance

  /** What `getSubstance(name)` returns for a given index. */
  function SubstanceNamed(index: Index, name: string): Option<Substance> {
    Lookup(index, NormalizeKey(name))
  }

  /** Looking up a normalised name gives what looking up the name gives. */
  lemma SubstanceNamedNormalized(index: Index, name: string)
    ensures SubstanceNamed(index, NormalizeKey(name)) == SubstanceNamed(index, name)
  {
    NormalizeKeyIdempotent(name);
  }

  /** A lookup finds what the index holds under the normalised name, and
      finds nothing only when no entry has that key. */
  lemma SubstanceNamedFound(index: Index, name: string)
    ensures SubstanceNamed(index, name).Some? <==> exists i :: 0 <= i < |index| && index[i].0 == NormalizeKey(name)
    ensures SubstanceNamed(index, name).Some? ==> (NormalizeKey(name), SubstanceNamed(index, name).value) in index
  {
    LookupFound(index, NormalizeKey(name));
  }

  /** Names differing only in letter case find the same substance (for
      example "COCAINE" and "cocaine"). */
  lemma SubstanceNamedIgnoresCase(index: Index, name: string)
    ensures SubstanceNamed(index, Upper(name)) == SubstanceNamed(index, name)
  {
    assert Lower(Upper(name)) == Lower(name);
  }

  /** Names differing only in a character that is no letter or digit find
      the same substance (for example "co-caine!!" and "cocaine"). */
  lemma SubstanceNamedIgnoresPunctuation(index: Index, a: string, c: char, b: string)
    requires !IsKeyChar(LowerChar(c))
    ensures SubstanceNamed(index, a + [c] + b) == SubstanceNamed(index, a + b)
  {
    var la, lc, lb := Lower(a), [LowerChar(c)], Lower(b);
    assert Lower(a + [c] + b) == la + lc + lb;
    assert Lower(a + b) == la + lb;
    assert KeepKeyChars(lc) == "" by {
      assert lc[1..] == "";
    }
    KeepKeyCharsAppend(la + lc, lb);
    KeepKeyCharsAppend(la, lc);
    KeepKeyCharsAppend(la, lb);
    assert KeepKeyChars(la) + KeepKeyChars(lc) == KeepKeyChars(la);
    assert NormalizeKey(a + [c] + b) == NormalizeKey(a + b);
  }

  // ---------------------------------------------------------------------------
  // The cached database

  /** The module-level `processedSubstances` cache together with the bundled
      dataset it is built from. */
  class SubstanceDatabase {
    const drugs: Dataset
    var processed: Option<Index>

    /** The cache, once filled, holds the table built from the dataset. */
    ghost predicate Valid()
      reads this
    {
      processed.Some? ==> processed.value == BuildIndex(drugs)
    }

    constructor (drugs: Dataset)
      ensures this.drugs == drugs && processed == None && Valid()
    {
      this.drugs := drugs;
      processed := None;
    }

    /** `loadSubstanceDatabase()`: returns the cache if it is filled, and
        otherwise fills it by walking the dataset. */
    method Load() returns (index: Index)
      requires Valid()
      modifies this
      ensures Valid() && processed == Some(index) && index == BuildIndex(drugs)
      ensures old(processed).Some? ==> index == old(processed).value
    {
      if processed.Some? {
        return processed.value;
      }
      processed := Some([]);
      for i := 0 to |drugs|
        invariant processed == Some(BuildIndex(drugs[..i]))
      {
        var (key, data) := drugs[i];
        var before := processed.value;
        var substance := ProcessSubstanceData(key, data);
        processed := Some(Put(processed.value, key, substance));
        var aliases := substance.aliases;
        for j := 0 to |aliases|
          invariant processed == Some(AddAliases(Put(before, key, substance), aliases[..j], substance))
        {
          var normalizedAlias := NormalizeKey(aliases[j]);
          if normalizedAlias != "" && Lookup(processed.value, normalizedAlias).None? {
            processed := Some(processed.value + [(normalizedAlias, substance)]);
          }
          assert aliases[..j + 1][..j] == aliases[..j];
        }
        assert aliases[..|aliases|] == aliases;
        assert drugs[..i + 1][..i] == drugs[..i];
      }
      assert drugs[..|drugs|] == drugs;
      index := processed.value;
    }

    /** `searchSubstances(query, category)`. */
    method SearchSubstances(query: string, category: Option<string>) returns (results: seq<Substance>)
      requires Valid()
      modifies this
      ensures Valid() && processed == Some(BuildIndex(drugs))
      ensures results == SearchResults(BuildIndex(drugs), query, category)
    {
      var database := Load();
      results := Search(database, query, category);
    }

    /** `getSubstance(name)`. */
    method GetSubstance(name: string) returns (r: Option<Substance>)
      requires Valid()
      modifies this
      ensures Valid() && processed == Some(BuildIndex(drugs))
      ensures r == SubstanceNamed(BuildIndex(drugs), name)
    {
      var database := Load();
      r := Lookup(database, NormalizeKey(name));
    }
  }

  /** The walk of `searchSubstances` over an index: skip every entry whose
      key is not its substance's normalised name, push every match, keep the
      first `MaxResults`. */
  method Search(database: Index, query: string, category: Option<string>) returns (results: seq<Substance>)
    ensures results == SearchResults(database, query, category)
  {
    var normalizedQuery := Lower(query);
    var matches: seq<Substance> := [];
    for i := 0 to |database|
      invariant matches == SearchMatches(database[..i], normalizedQuery, category)
    {
      var (key, substance) := database[i];
      if key == NormalizeKey(substance.name) {
        var matchesQuery := Contains(Lower(substance.name), normalizedQuery)
          || exists j :: 0 <= j < |substance.aliases| && Contains(Lower(substance.aliases[j]), normalizedQuery);
        var matchesCategory := !Truthy(category) || category.value == "all" || category.value in substance.categories;
        if matchesQuery && matchesCategory {
          matches := matches + [substance];
        }
      }
      assert database[..i + 1][..i] == database[..i];
    }
    assert database[..|database|] == database;
    results := if |matches| <= MaxResults then matches else matches[..MaxResults];
  }
}
