/** The data shapes of the plugin: the loosely shaped raw records of the
    bundled substance dataset (`DrugInfo`) and the normalised record the
    database hands to the panel (`SubstanceResponse`, `RouteOfAdministration`).

    A JSON object is modelled as its list of (key, value) pairs in key order;
    a JavaScript object never repeats a key, and a lookup takes the first pair
    with the key. */
module Types {

  datatype Option<+T> = None | Some(value: T)

  /** A JSON object whose values are strings, such as `formatted_onset`. */
  type Table = seq<(string, string)>

  /** `obj[k]`: the value stored under `k`, if any. */
  function Lookup<V>(obj: seq<(string, V)>, k: string): Option<V> {
    if obj == [] then None
    else if obj[0].0 == k then Some(obj[0].1)
    else Lookup(obj[1..], k)
  }

  /** A lookup succeeds exactly when some pair has the key, and then returns
      the value of the first such pair. */
  lemma {:induction false} LookupFound<V>(obj: seq<(string, V)>, k: string)
    ensures Lookup(obj, k).Some? <==> exists i :: 0 <= i < |obj| && obj[i].0 == k
    ensures Lookup(obj, k).Some? ==>
      exists i :: 0 <= i < |obj| && obj[i] == (k, Lookup(obj, k).value) && forall j :: 0 <= j < i ==> obj[j].0 != k
  {
    if obj != [] && obj[0].0 != k {
      LookupFound(obj[1..], k);
      if Lookup(obj, k).Some? {
        var i :| 0 <= i < |obj[1..]| && obj[1..][i] == (k, Lookup(obj, k).value) && forall j :: 0 <= j < i ==> obj[1..][j].0 != k;
        assert obj[i + 1] == (k, Lookup(obj, k).value);
      }
      if exists i :: 0 <= i < |obj| && obj[i].0 == k {
        var i :| 0 <= i < |obj| && obj[i].0 == k;
        assert obj[1..][i - 1].0 == k;
      }
    }
  }

  /** JavaScript truthiness of an optional string: present and not "". */
  predicate Truthy(o: Option<string>) {
    o.Some? && o.value != ""
  }

  /** A value of `formatted_dose`: a per-route dose table (any non-null
      object), or anything else (null, a string, a number). */
  datatype DoseValue = NonObject | DoseObject(amounts: Table)

  /** The `properties` object of a raw record; only `summary` is read. */
  datatype Properties = Properties(summary: Option<string>)

  /** One raw record of the dataset. `Missing` is a falsy value (null); a
      `Record` lists the fields the normaliser reads, each `None` when absent,
      and in `otherFields` the names of the keys it does not read (for example
      `links`) or whose value is null. */
  datatype RawRecord =
    | Missing
    | Record(
        name: Option<string>,
        prettyName: Option<string>,
        aliases: Option<seq<string>>,
        categories: Option<seq<string>>,
        properties: Option<Properties>,
        formattedEffects: Option<seq<string>>,
        formattedDose: Option<seq<(string, DoseValue)>>,
        formattedOnset: Option<Table>,
        formattedDuration: Option<Table>,
        doseNote: Option<string>,
        otherFields: seq<string>)

  /** `RouteOfAdministration`; `bioavailability` is never filled in. */
  datatype Route = Route(name: string, notes: Option<string>)

  /** `SubstanceResponse`; `interactions` is never filled in, and aliases,
      summary and categories are always set by the normaliser. */
  datatype Substance = Substance(
    name: string,
    aliases: seq<string>,
    summary: string,
    categories: seq<string>,
    warnings: Option<string>,
    roas: Option<seq<Route>>,
    source: string)

  /** The raw dataset: substance key and raw record, in dataset order. */
  type Dataset = seq<(string, RawRecord)>

  /** No element occurs twice. */
  predicate NoDuplicates<T(==)>(s: seq<T>) {
    forall i, j :: 0 <= i < j < |s| ==> s[i] != s[j]
  }

  /** The keys of a JSON object are pairwise distinct. */
  predicate KeysDistinct<V>(obj: seq<(string, V)>) {
    forall i, j :: 0 <= i < j < |obj| ==> obj[i].0 != obj[j].0
  }

  /** `s.slice(0, n)`: the first `n` elements, or all of them. */
  function Take<T>(s: seq<T>, n: nat): (r: seq<T>)
    ensures r <= s && |r| == (if |s| <= n then |s| else n)
  {
    if |s| <= n then s else s[..n]
  }
}
